/** The encounter: one player and one monster trading hits until one of them
    is at zero health (src/combat.rs). */
module Combats {
  import opened Entities

  /** The health of both sides at one moment. */
  datatype Standing = Standing(playerHp: u16, monsterHp: u16)

  /** One call on the encounter: the player hits the monster, or the monster
      hits the player. */
  datatype Blow = PlayerHitsMonster | MonsterHitsPlayer

  /** The encounter is over once either side is at zero health. */
  predicate Over(s: Standing)
  {
    s.playerHp == 0 || s.monsterHp == 0
  }

  /** The standing after one blow, each side hitting with its own damage. */
  function Strike(s: Standing, b: Blow, playerDamage: u16, monsterDamage: u16): (r: Standing)
    ensures r.playerHp <= s.playerHp && r.monsterHp <= s.monsterHp
    ensures b == PlayerHitsMonster ==> r.playerHp == s.playerHp
    ensures b == MonsterHitsPlayer ==> r.monsterHp == s.monsterHp
  {
    match b
    case PlayerHitsMonster => Standing(s.playerHp, Damaged(s.monsterHp, playerDamage))
    case MonsterHitsPlayer => Standing(Damaged(s.playerHp, monsterDamage), s.monsterHp)
  }

  /** The standing after a sequence of blows, applied in order. */
  function Replay(s: Standing, blows: seq<Blow>, playerDamage: u16, monsterDamage: u16): Standing
    decreases |blows|
  {
    if blows == [] then s
    else Replay(Strike(s, blows[0], playerDamage, monsterDamage), blows[1..], playerDamage, monsterDamage)
  }

  /** Neither side ever gains health, whatever blows are exchanged. */
  lemma {:induction false} ReplayNeverHeals(s: Standing, blows: seq<Blow>, playerDamage: u16, monsterDamage: u16)
    ensures Replay(s, blows, playerDamage, monsterDamage).playerHp <= s.playerHp
    ensures Replay(s, blows, playerDamage, monsterDamage).monsterHp <= s.monsterHp
    decreases |blows|
  {
    if blows != [] {
      ReplayNeverHeals(Strike(s, blows[0], playerDamage, monsterDamage), blows[1..], playerDamage, monsterDamage);
    }
  }

  /** Once the encounter is over it stays over, whatever blows follow. */
  lemma {:induction false} OverIsTerminal(s: Standing, blows: seq<Blow>, playerDamage: u16, monsterDamage: u16)
    requires Over(s)
    ensures Over(Replay(s, blows, playerDamage, monsterDamage))
    decreases |blows|
  {
    if blows != [] {
      OverIsTerminal(Strike(s, blows[0], playerDamage, monsterDamage), blows[1..], playerDamage, monsterDamage);
    }
  }

  /** A run of blows that all land on the monster leaves the player's health
      as it was and the monster's as after that many hits. */
  lemma {:induction false} ReplayMonsterOnly(s: Standing, n: nat, playerDamage: u16, monsterDamage: u16)
    ensures Replay(s, seq(n, _ => PlayerHitsMonster), playerDamage, monsterDamage)
      == Standing(s.playerHp, Hits(s.monsterHp, playerDamage, n))
    decreases n
  {
    if n > 0 {
      var blows := seq(n, _ => PlayerHitsMonster);
      var next := Strike(s, PlayerHitsMonster, playerDamage, monsterDamage);
      ReplayMonsterOnly(next, n - 1, playerDamage, monsterDamage);
      assert blows[1..] == seq(n - 1, _ => PlayerHitsMonster);
      HitsFirst(s.monsterHp, playerDamage, n);
    }
  }

  /** Peeling off the first of `n` hits instead of the last. */
  lemma {:induction false} HitsFirst(hp: u16, damage: u16, n: nat)
    requires n > 0
    ensures Hits(hp, damage, n) == Hits(Damaged(hp, damage), damage, n - 1)
  {
    if n > 1 {
      HitsFirst(hp, damage, n - 1);
    }
  }

  /** With the monster's 50 health and the player's 10 damage set up by the
      program's entry point, the monster falls exactly from the fifth hit on. */
  lemma OpeningNeedsFiveHits(n: nat)
    ensures Hits(50, 10, n) == 0 <==> n >= 5
  {
    HitsDefeat(50, 10, n);
  }

  /** An encounter owning one player and one monster, and the line of text
      that describes the last event. */
  class Combat {
    var text: string
    const player: Player
    const monster: Monster

    /** The encounter owns two distinct fighters. */
    ghost predicate Valid()
    {
      player.entity != monster.entity
    }

    /** Neither side has more health than its maximum. */
    ghost predicate HealthBounded()
      reads player.entity, monster.entity
    {
      player.entity.Valid() && monster.entity.Valid()
    }

    /** The health of both sides right now. */
    ghost function Now(): Standing
      reads player.entity, monster.entity
    {
      Standing(player.entity.nowHp, monster.entity.nowHp)
    }

    constructor (player: Player, monster: Monster)
      requires player.entity != monster.entity
      ensures this.player == player && this.monster == monster
      ensures text == ""
      ensures Valid()
    {
      this.text := "";
      this.player := player;
      this.monster := monster;
    }

    /** The player hits the monster with the player's damage. Only the
        monster's health changes. */
    method HitMonster()
      requires Valid()
      modifies monster.entity`nowHp
      ensures monster.entity.nowHp == Damaged(old(monster.entity.nowHp), player.entity.damage)
      ensures Now() == Strike(old(Now()), PlayerHitsMonster, player.entity.damage, monster.entity.damage)
      ensures unchanged(this) && unchanged(player.entity)
      ensures old(HealthBounded()) ==> HealthBounded()
      ensures old(IsFin()) ==> IsFin()
    {
      monster.entity.GetDamage(player.entity.damage);
    }

    /** The monster hits the player with the monster's damage. Only the
        player's health changes. */
    method HitPlayer()
      requires Valid()
      modifies player.entity`nowHp
      ensures player.entity.nowHp == Damaged(old(player.entity.nowHp), monster.entity.damage)
      ensures Now() == Strike(old(Now()), MonsterHitsPlayer, player.entity.damage, monster.entity.damage)
      ensures unchanged(this) && unchanged(monster.entity)
      ensures old(HealthBounded()) ==> HealthBounded()
      ensures old(IsFin()) ==> IsFin()
    {
      player.entity.GetDamage(monster.entity.damage);
    }

    /** Whether the encounter has ended. */
    function IsFin(): (r: bool)
      reads player.entity, monster.entity
      ensures r == Over(Now())
    {
      player.entity.nowHp == 0 || monster.entity.nowHp == 0
    }
  }

  /** The encounter set up by the program's entry point: the player "held"
      (100 health, 10 damage) against "Ugly Bastard" (50 health, 10 damage).
      Four hits on the monster leave it standing; the fifth ends the fight. */
  method OpeningEncounter() returns (finAfterFour: bool, fin: bool, playerHp: u16, monsterHp: u16)
    ensures !finAfterFour
    ensures fin && monsterHp == 0 && playerHp == 100
  {
    var player := new Player("held", 100, 10, 10, 1);
    var monster := new Monster("Ugly Bastard", 50, 10, 10, 1);
    var combat := new Combat(player, monster);
    combat.HitMonster();
    combat.HitMonster();
    combat.HitMonster();
    combat.HitMonster();
    finAfterFour := combat.IsFin();
    combat.HitMonster();
    fin := combat.IsFin();
    playerHp, monsterHp := player.entity.nowHp, monster.entity.nowHp;
  }
}
