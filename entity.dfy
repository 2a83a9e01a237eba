/** One fighter of the encounter: its stats, the saturating damage primitive and
    the health percentage shown on the gauge (src/entity.rs). */
module Entities {

  /** The Rust program keeps every stat in an unsigned 16-bit integer. */
  newtype u16 = x: int | 0 <= x < 0x1_0000

  const U16_MAX: int := 0xFFFF

  /** Health left after a hit of `damage` on `hp` health: the subtraction
      floors at zero instead of wrapping around. */
  function Damaged(hp: u16, damage: u16): (r: u16)
    ensures r <= hp
    ensures r as int >= hp as int - damage as int
    ensures r == 0 || r as int == hp as int - damage as int
  {
    if hp > damage then hp - damage else 0
  }

  /** A hit of zero damage changes nothing, and neither does a hit on a
      fighter already at zero health. */
  lemma DamagedNoop(hp: u16, damage: u16)
    ensures Damaged(hp, 0) == hp
    ensures Damaged(0, damage) == 0
  {
  }

  /** Two hits in a row leave the same health as one hit of their sum. */
  lemma DamagedTwice(hp: u16, a: u16, b: u16)
    requires a as int + b as int <= U16_MAX
    ensures Damaged(Damaged(hp, a), b) == Damaged(hp, a + b)
  {
  }

  /** When the gauge percentage can be computed without a fault: at full
      health no arithmetic happens; otherwise the divisor is non-zero and
      `now * 100` fits in 16 bits. */
  predicate PercentDefined(now: u16, full: u16)
  {
    now == full || (0 < full && now as int * 100 <= U16_MAX)
  }

  /** A fighter whose health never exceeds its maximum can always be shown,
      provided its current health is at most 655 (the largest value whose
      hundredfold fits in 16 bits) or it is at full health. */
  lemma PercentDefinedWhenBounded(now: u16, full: u16)
    requires now <= full
    requires now == full || now <= 655
    ensures PercentDefined(now, full)
  {
  }

  /** With a maximum health of at most 656 the gauge can always be shown:
      656 itself is full health, and every lower value times 100 fits. */
  lemma GaugeAlwaysDefinedUpTo656(now: u16, full: u16)
    requires now <= full <= 656
    ensures PercentDefined(now, full)
  {
  }

  /** From a maximum health of 657 on, one hit of 1 damage already reaches a
      health whose hundredfold overflows 16 bits. */
  lemma GaugeFaultsFrom657()
    ensures Damaged(657, 1) == 656
    ensures !PercentDefined(Damaged(657, 1), 657)
  {
  }

  /** The health percentage: exactly 100 at full health, otherwise the
      integer part of `now * 100 / full`. */
  function PercentHp(now: u16, full: u16): (r: u16)
    requires PercentDefined(now, full)
    ensures now == full ==> r == 100
    ensures now != full ==> r as int * full as int <= now as int * 100 < (r as int + 1) * full as int
    ensures now <= full ==> r <= 100
    ensures now <= full ==> (r == 100 <==> now == full)
  {
    if full == now then 100
    else
      var r := now * 100 / full;
      DivBracket(now as int * 100, full as int);
      if now < full then
        MulCancel(r as int, 100, full as int);
        r
      else
        r
  }

  /** The quotient of integer division is the largest multiple of the
      divisor that does not exceed the dividend. */
  lemma DivBracket(x: int, f: int)
    requires 0 <= x && 0 < f
    ensures (x / f) * f <= x < (x / f + 1) * f
  {
    var q, m := x / f, x % f;
    assert x == q * f + m && 0 <= m < f;
    assert (q + 1) * f == q * f + f;
  }

  /** Multiplying by the same positive factor preserves strict order. */
  lemma MulCancel(x: int, y: int, f: int)
    requires 0 < f && x * f < y * f
    ensures x < y
  {
  }

  /** Integer division by a positive divisor is monotone in the dividend. */
  lemma DivMonotone(a: int, b: int, d: int)
    requires 0 <= a <= b && 0 < d
    ensures a / d <= b / d
  {
    MulCancel(a / d, b / d + 1, d);
  }

  /** A hit never raises the health gauge of a fighter whose maximum health
      is small enough for every percentage to be computed. */
  lemma GaugeNeverRises(now: u16, full: u16, damage: u16)
    requires now <= full && full as int * 100 <= U16_MAX
    ensures PercentDefined(now, full) && PercentDefined(Damaged(now, damage), full)
    ensures PercentHp(Damaged(now, damage), full) <= PercentHp(now, full)
  {
    var after := Damaged(now, damage);
    assert after as int * 100 <= now as int * 100 <= full as int * 100;
    if after != now && now != full {
      DivMonotone(after as int * 100, now as int * 100, full as int);
    }
  }

  /** Health left after `n` hits of `damage` each. */
  function Hits(hp: u16, damage: u16, n: nat): u16
  {
    if n == 0 then hp else Damaged(Hits(hp, damage, n - 1), damage)
  }

  /** Closed form of repeated hits: `n` hits remove `n * damage` health,
      floored at zero. */
  lemma {:induction false} HitsClosedForm(hp: u16, damage: u16, n: nat)
    ensures Hits(hp, damage, n) as int
      == if hp as int > n * damage as int then hp as int - n * damage as int else 0
  {
    if n > 0 {
      HitsClosedForm(hp, damage, n - 1);
      assert (n - 1) * damage as int + damage as int == n * damage as int;
    }
  }

  /** A fighter is brought to zero health by `n` hits exactly when those hits
      together deal at least its health. */
  lemma HitsDefeat(hp: u16, damage: u16, n: nat)
    ensures Hits(hp, damage, n) == 0 <==> n * damage as int >= hp as int
  {
    HitsClosedForm(hp, damage, n);
  }

  /** One fighter's stats. Only `nowHp` is ever changed after creation. */
  class Entity {
    var name: string
    var fullHp: u16
    var nowHp: u16
    var damage: u16
    var armor: u16
    var dodge: u16

    /** Health never exceeds its maximum. */
    ghost predicate Valid()
      reads this
    {
      nowHp <= fullHp
    }

    /** The state that creation with these arguments produces: every stat
        stored as given, with no clamping, and health full. */
    ghost predicate Initial(name: string, fullHp: u16, damage: u16, armor: u16, dodge: u16)
      reads this
    {
      this.name == name && this.fullHp == fullHp && this.nowHp == fullHp &&
      this.damage == damage && this.armor == armor && this.dodge == dodge
    }

    constructor (name: string, fullHp: u16, damage: u16, armor: u16, dodge: u16)
      ensures Initial(name, fullHp, damage, armor, dodge)
      ensures Valid()
    {
      this.name := name;
      this.fullHp := fullHp;
      this.nowHp := fullHp;
      this.damage := damage;
      this.armor := armor;
      this.dodge := dodge;
    }

    /** Takes a hit: health drops by `damage`, or to zero if the hit is at
        least as large as the health left. No other stat changes. */
    method GetDamage(damage: u16)
      modifies this`nowHp
      ensures nowHp == Damaged(old(nowHp), damage)
      ensures nowHp <= old(nowHp)
      ensures old(Valid()) ==> Valid()
    {
      if nowHp > damage {
        nowHp := nowHp - damage;
      } else {
        nowHp := 0;
      }
    }

    /** The percentage shown on this fighter's health gauge. */
    function GetPercentHp(): (r: u16)
      reads this
      requires PercentDefined(nowHp, fullHp)
      ensures Valid() ==> r <= 100
    {
      PercentHp(nowHp, fullHp)
    }
  }

  /** The player side: a thin wrapper around an entity. */
  class Player {
    const entity: Entity

    constructor (name: string, fullHp: u16, damage: u16, armor: u16, dodge: u16)
      ensures fresh(entity)
      ensures entity.Initial(name, fullHp, damage, armor, dodge)
      ensures entity.Valid()
    {
      entity := new Entity(name, fullHp, damage, armor, dodge);
    }
  }

  /** The monster side: a thin wrapper around an entity. */
  class Monster {
    const entity: Entity

    constructor (name: string, fullHp: u16, damage: u16, armor: u16, dodge: u16)
      ensures fresh(entity)
      ensures entity.Initial(name, fullHp, damage, armor, dodge)
      ensures entity.Valid()
    {
      entity := new Entity(name, fullHp, damage, armor, dodge);
    }
  }
}
