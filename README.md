# combat-realize: a verified model of the combat core

This project models the combat arithmetic and state of `combat-realize`, a
terminal game in which a player and a monster exchange hits.

- `entity.dfy` (module `Entities`) models `src/entity.rs`. An `Entity` class
  holds one fighter's stats (`name`, `fullHp`, `nowHp`, `damage`, `armor`,
  `dodge`, each of the integer stats an unsigned 16-bit number). Creation
  stores the stats exactly as given and fills health. `GetDamage` is a
  saturating subtraction on `nowHp`. The health percentage is 100 at full
  health and `now * 100 / full` otherwise. `Player` and `Monster` are thin
  wrappers around an entity.
- `combat.dfy` (module `Combats`) models `src/combat.rs`. A `Combat` class
  owns one player, one monster and the `text` line. `HitMonster` applies the
  player's damage to the monster, `HitPlayer` does the reverse, and `IsFin`
  reports whether either side is at zero health. Below the class, sequences
  of hits are replayed on plain values (`Standing`, `Blow`, `Strike`,
  `Replay`) so that properties of any run of calls can be proved by
  induction.

The 16-bit type is the newtype `u16`, so no value in the model ever leaves
0..65535. Every subtraction and multiplication in the model is proved not
to overflow or underflow.

## Model

| member | source | states |
|---|---|---|
| `Entities.Damaged` | src/entity.rs:34-40 | A hit never raises health. It removes at most `damage`. The result is either exactly `hp - damage` or 0, so it is `max(0, hp - damage)` with no underflow. |
| `Entities.DamagedNoop` | src/entity.rs:35-39 | A hit of 0 damage leaves health as it was. A hit on a fighter already at 0 health leaves it at 0. |
| `Entities.DamagedTwice` | src/entity.rs:34-40 | Two successive hits of `a` and `b` leave the same health as one hit of `a + b`, when `a + b` fits in 16 bits. |
| `Entities.HitsClosedForm` | src/entity.rs:34-40 | `n` successive hits of `damage` leave `hp - n*damage` when that is positive, and 0 otherwise. |
| `Entities.HitsDefeat` | src/entity.rs:34-40 | `n` hits bring a fighter to 0 health exactly when `n*damage >= hp`, in both directions. |
| `Entities.PercentHp` | src/entity.rs:41-47 | Returns exactly 100 at full health. Otherwise the result `r` is the floor of `now*100/full`: `r*full <= now*100 < (r+1)*full`. When `now <= full` the result lies in 0..100 and equals 100 only at full health. The precondition holds exactly when a debug build computes without a fault: the divisor is non-zero and `now*100` fits in 16 bits whenever the division branch runs. |
| `Entities.PercentDefinedWhenBounded` | src/entity.rs:41-47 | If `now <= full`, the division branch runs only with `full > 0`. The percentage can therefore always be computed when health is full or at most 655. |
| `Entities.GaugeAlwaysDefinedUpTo656` | src/entity.rs:41-47 | For any maximum health up to 656 and any current health at or below it, the percentage is computable: 656 itself is full health, which returns 100 without multiplying, and every lower value times 100 fits in 16 bits. |
| `Entities.GaugeFaultsFrom657` | src/entity.rs:41-47 | A fighter with 657 maximum health that takes one hit of 1 damage reaches 656 health, whose hundredfold does not fit in 16 bits. |
| `Entities.GaugeNeverRises` | src/entity.rs:34-47 | For a fighter with `full*100` within 16 bits, a hit never raises the percentage shown on the gauge, and the percentage stays computable. |
| `Entities.Entity.constructor` | src/entity.rs:22-31 | Stores `name`, `fullHp`, `damage`, `armor` and `dodge` unchanged, with no clamping. Sets `nowHp == fullHp`. |
| `Entities.Entity.GetDamage` | src/entity.rs:34-40 | The new `nowHp` is `Damaged(old nowHp, damage)`, which is never larger. `nowHp <= fullHp` is preserved. The frame guarantees no other field changes. |
| `Entities.Entity.GetPercentHp` | src/entity.rs:41-47 | For an entity with `nowHp <= fullHp`, the gauge percentage is at most 100. |
| `Entities.Player.constructor` | src/entity.rs:54-56 | Wraps a freshly created entity in exactly the state that creating an entity with the same arguments produces. |
| `Entities.Monster.constructor` | src/entity.rs:62-64 | Wraps a freshly created entity in exactly the state that creating an entity with the same arguments produces. |
| `Combats.Combat.constructor` | src/combat.rs:39-45 | Stores the given player and monster unchanged and sets `text` to the empty string. |
| `Combats.Combat.HitMonster` | src/combat.rs:46-49 | The monster's `nowHp` becomes `max(0, old - player damage)`. The player's entity and the combat's own fields, including `text`, are unchanged. If both sides had `nowHp <= fullHp` before, both still do (`HealthBounded`). A finished combat stays finished. |
| `Combats.Combat.HitPlayer` | src/combat.rs:50-53 | The player's `nowHp` becomes `max(0, old - monster damage)`. The monster's entity and the combat's own fields, including `text`, are unchanged. If both sides had `nowHp <= fullHp` before, both still do (`HealthBounded`). A finished combat stays finished. |
| `Combats.Combat.IsFin` | src/combat.rs:54-56 | True exactly when the player's or the monster's `nowHp` is 0. |
| `Combats.Strike` | src/combat.rs:46-53 | A hit never raises either side's health. A hit on the monster leaves the player's health as it was, and a hit on the player leaves the monster's health as it was. |
| `Combats.ReplayNeverHeals` | src/combat.rs:46-53 | After any sequence of hits in either direction, neither side has more health than before. |
| `Combats.OverIsTerminal` | src/combat.rs:46-56 | Once either side is at 0 health, the combat is still finished after any further sequence of hits. |
| `Combats.ReplayMonsterOnly` | src/combat.rs:46-49 | `n` successive hits on the monster leave the player's health untouched. The monster's health becomes what `n` hits of the player's damage leave. |
| `Combats.OpeningNeedsFiveHits` | src/combat.rs:46-49 | With the parameters set up at src/main.rs:26-27 (monster health 50, player damage 10), `n` hits on the monster bring it to 0 exactly when `n >= 5`. |
| `Combats.OpeningEncounter` | src/combat.rs:46-56 | Starting from the fighters built at src/main.rs:26-27, the combat is not finished after four hits on the monster. After the fifth, `IsFin` holds, the monster is at 0 and the player is still at 100. |

## Left out

- Rendering (`Combat::draw`, `half_rect`, `centered_rect`, `half_centered_rect` and the ASCII-art constants) consists of terminal layout and widget calls. The gauge percentage it reads is modelled as `GetPercentHp`.
- `src/main.rs` is not part of this model: it does terminal setup and teardown and runs an input event loop. Its turn switching (`Step`, `combat.step`, `toggle_step`, imported at src/main.rs:17) refers to definitions that neither of the crate's two modules, `combat` and `entity` (src/main.rs:2-3), contains. Only its two fighter definitions are used, in `OpeningEncounter` and `OpeningNeedsFiveHits`.
- Monster decisions: `monster_ai_analizer` calls `ai_analizeer`, which is defined nowhere, and `Monster::ai_step` has an empty body. Neither is modelled.
- `Action` is imported from `crate::entity` at src/combat.rs:1, and `player.actions` and `player.select` are read at src/combat.rs:112-136. None of them is defined in either of the crate's modules, so there is no action menu and no action selection in the model. Turn alternation lives in `src/main.rs` and is left out with it; no decision policy for the monster exists beyond the empty step above.
- The content of `text`: `hit_monster` and `hit_player` assign the result of `get_damage`, which is `()`, to this `String` field. That does not type-check, so the model leaves `text` unchanged.
- Armor and dodge are stored but never read, and `ARMOR_100_PR` is unused. No random damage variance, armor mitigation, dodge roll, stat cap or flee exists in this code, and the model adds none.
- 16-bit wrap-around is not modelled. `PercentHp` requires that `now*100` fits whenever the division branch runs. Beyond that bound, Rust panics in a debug build and wraps in a release build. `GaugeAlwaysDefinedUpTo656` and `GaugeFaultsFrom657` locate the boundary. One consequence: a fighter with `fullHp >= 657` can reach a value of `nowHp` whose percentage the Rust program cannot compute correctly (a panic in a debug build, a wrapped value in a release build).
- `player`, `monster` and `entity` are fixed references (`const`), because no operation of the core replaces them. In Rust these fields are public and could be reassigned.
- Rust's move semantics make the combat own two distinct entities. The model states this as the requirement `player.entity != monster.entity` on `Combat` creation, and the `Valid()` predicate keeps it. The health bound `nowHp <= fullHp` of both sides is the separate predicate `HealthBounded()`, which both hits preserve. It is not required by the hits, because `get_damage` works on any health value.
