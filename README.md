# Enemy hit reactions and combat state

A Dafny model of the enemy actor of the *Knight of the Alliance* action game
(`AEnemy`, in `Private/Enemy/Enemy.cpp`): how a hit is classified into one of
the four hit-react montage sections (`FromFront`, `FromLeft`, `FromRight`,
`FromBack`), and the small state machine of the actor's event handlers —
`BeginPlay` (health-bar initialisation), `Die`, `Tick`, `GetHit` and
`TakeDamage`.

Layout:

- `wrappers.dfy` — module `Wrappers`: `Option`, standing in for a nullable actor pointer.
- `hit_direction.dfy` — module `HitDirection`: vectors, the Z component of the
  cross product, the signed angle and the half-open bucketing, as pure
  functions, with lemmas about them (including an independent "which
  quarter-turn" definition the if-chain is proved equal to).
- `enemy_state.dfy` — module `EnemyState`: the actor's mutable state as a value,
  one step function per handler, runs of handler events, and the invariant
  `Consistent` every run keeps (the stored death pose is exactly the section of
  the latest death-montage request; capsule collision is disabled exactly when removal
  has been scheduled).
- `enemy.dfy` — module `EnemyActor`: class `Enemy`, whose fields the handlers
  update in place; every method is proved equal to its step function and to
  keep `Valid()`; `CombatScenario` is a client run (hit while alive, lethal hit,
  hit after death, target dropped out of range).

Engine collaborators (health-bar widget, anim instance, the death and
hit-react montages, the attribute component, hit particles, the world) are
flags in `Collaborators`. Engine calls made by the actor are recorded as
requests: `montageLog` holds each (montage, section) pair that
`Montage_Play` + `Montage_JumpToSection` would receive, `particleLog` each
location given to `SpawnEmitterAtLocation`, and `damageLog` each amount given
to the attribute component's `ReceiveDamage`. Values the engine computes are
parameters: the unsigned angle between forward and to-hit in degrees (from
`Acos` and `RadiansToDegrees`, so in [0,180]), the distance to the combat
target, the random death selection (`RandRange(0, 1)`, so 0 or 1), whether the
attribute component reports alive, and the attribute component's new health
percent. The actor's forward vector and location are parameters too.

Behaviour of the code worth noting:

- `GetHit` has no guard against an enemy that is already dead: a further hit
  on a dead enemy runs `Die` again and, when the anim instance and death montage exist,
  requests another death montage and may change the stored pose (`RepeatedHitRerunsDie`). Death is not idempotent.
- `TakeDamage` does not show the health bar; only `GetHit` does.
- The impact point is not lowered to the actor's height before computing the
  direction (`ImpactLowered` is computed and unused). `CrossZIgnoresHeight`
  shows that this cannot change the sign of the angle; it only affects the
  unsigned angle, which is an input here.
- A zero displacement gets no special default: `GetSafeNormal` gives the
  zero vector, so the cosine is 0, the angle 90 and the cross product 0, and
  the hit is classified `FromRight` (`ZeroDisplacementIsRight`).
- `TakeDamage` passes the damage to the attribute component only when the
  health bar exists too, so an enemy without a health bar never loses health.

## Model

| member | source | states |
|---|---|---|
| `HitDirection.CrossZ` | Private/Enemy/Enemy.cpp:169-170 | the vertical component of forward × to-hit is 0 for a to-hit with no horizontal part or along forward, and non-negative (positive unless forward is vertical) for a to-hit a quarter-turn towards +Y |
| `HitDirection.SignedTheta` | Private/Enemy/Enemy.cpp:169-172 | the signed angle has the magnitude of the unsigned one, lies in [-180,180], is negative only when CrossZ < 0, is negative whenever CrossZ < 0 and the angle is non-zero, and equals the unsigned angle when CrossZ >= 0 (so CrossZ = 0 leaves it unchanged) |
| `HitDirection.SectionName` | Private/Enemy/Enemy.cpp:174-184 | every requested hit-react section name is one of "FromFront", "FromLeft", "FromRight", "FromBack" |
| `HitDirection.SectionNameInjective` | Private/Enemy/Enemy.cpp:174-184 | distinct sections are requested under distinct names |
| `HitDirection.Classify` | Private/Enemy/Enemy.cpp:174-184 | each section is returned exactly on its half-open interval, in both directions: front [-45,45), left [-135,-45), right [45,135), back everything else; so the classification is total and exclusive |
| `HitDirection.HitSection` | Private/Enemy/Enemy.cpp:155-184 | unsigned angle below 45 is the front and above 135 the back; strictly between them the hit is right iff CrossZ >= 0 and left iff CrossZ < 0; at 45 it is right or front and at 135 back or left, by the sign of CrossZ |
| `HitDirection.ClassifyIsQuadrant` | Private/Enemy/Enemy.cpp:174-184 | the if-chain equals an independent definition by the index of the 90-degree sector (floor of (theta+45)/90) for every real angle |
| `HitDirection.BoundaryTies` | Private/Enemy/Enemy.cpp:176-184 | 45 is right, -45 front, 135 back, -135 left, ±180 back |
| `HitDirection.AheadAndBehind` | Private/Enemy/Enemy.cpp:169-184 | unsigned angle 0 is front and 180 is back whatever the sign of the cross product |
| `HitDirection.MirrorSymmetry` | Private/Enemy/Enemy.cpp:169-184 | negating a non-zero cross product swaps left and right and keeps front and back, for every unsigned angle other than 45 and 135 (with CrossZ = 0 both signs give the same signed angle, so no swap happens) |
| `HitDirection.MirrorBrokenAtBoundaries` | Private/Enemy/Enemy.cpp:169-184 | at 45 and 135 the half-open bounds make mirrored hits right/front and back/left |
| `HitDirection.CrossZScaleInvariant` | Private/Enemy/Enemy.cpp:158-170 | scaling the to-hit vector by k > 0 scales CrossZ by k and keeps its sign |
| `HitDirection.HitSectionScaleInvariant` | Private/Enemy/Enemy.cpp:158-184 | the section depends only on the direction of the to-hit vector, not its length, so normalising it changes nothing |
| `HitDirection.CrossZIgnoresHeight` | Private/Enemy/Enemy.cpp:157-170 | lowering the impact point to the actor's height would not change CrossZ |
| `HitDirection.ZeroDisplacementIsRight` | Private/Enemy/Enemy.cpp:158-184 | an impact at the actor's own location, with angle 90 from the zero to-hit vector, gives FromRight |
| `HitDirection.RightHandHit` | Private/Enemy/Enemy.cpp:153-184 | forward +X with the impact at +Y and angle 90 gives FromRight |
| `EnemyState.SelectedPose` | Private/Enemy/Enemy.cpp:66-79 | selection 0 gives pose Death1 with section "Death1", selection 1 Death2 with "Death2" |
| `EnemyState.BeginPlayStep` | Private/Enemy/Enemy.cpp:39-42 | with a health bar: percent 1 and hidden; otherwise nothing changes; nothing else changes |
| `EnemyState.DieStep` | Private/Enemy/Enemy.cpp:59-87 | capsule collision disabled and lifespan 10 always; bar hidden when it exists; with anim instance and death montage, exactly one death request whose section matches the stored pose chosen by the selection; without either, pose and requests unchanged; target, percent, particles unchanged |
| `EnemyState.PlayHitReactStep` | Private/Enemy/Enemy.cpp:89-96 | one hit-react request of the given section when anim instance and montage exist, else nothing; only the request log changes |
| `EnemyState.DirectionalHitReactStep` | Private/Enemy/Enemy.cpp:153-186 | when anim instance and montage exist, exactly one request is appended: the hit-react montage at the name of the section `HitSection` assigns to the hit; otherwise nothing changes; only the request log ever changes |
| `EnemyState.TickStep` | Private/Enemy/Enemy.cpp:103-112 | the target changes iff one is set and the distance is strictly greater than the radius, and then it becomes none and the bar is hidden when it exists (left as it was otherwise); otherwise the state is unchanged |
| `EnemyState.GetHitStep` | Private/Enemy/Enemy.cpp:122-151 | alive with attributes: bar visible, at most the one hit-react request, no death effects; otherwise Die's effects (bar hidden, capsule collision off, lifespan 10, and exactly Die's montage requests and pose: the selected pose with its death request, or both unchanged without anim instance or death montage); a particle request at the impact iff particles and world exist; target and percent unchanged |
| `EnemyState.TakeDamageStep` | Private/Enemy/Enemy.cpp:197-205 | target always becomes the instigator's pawn; only when attributes and bar both exist is the amount passed to `ReceiveDamage` (appended to the damage log) and the percent set to the new value; nothing else changes |
| `EnemyState.ApplyKeepsConsistent` | Private/Enemy/Enemy.cpp:39-205 | every handler keeps the invariant: stored pose = section of the latest death request, a pose implies capsule collision off, capsule collision off iff lifespan 10 |
| `EnemyState.RunKeepsConsistent` | Private/Enemy/Enemy.cpp:39-205 | any sequence of handler events keeps that invariant |
| `EnemyState.RepeatedHitRerunsDie` | Private/Enemy/Enemy.cpp:122-132 | with an anim instance and a death montage, two hits on an enemy that is not alive request two death montages and leave the second selection's pose |
| `EnemyState.TickIdempotent` | Private/Enemy/Enemy.cpp:103-112 | a second tick at the same distance changes nothing |
| `EnemyState.TickAtRadiusKeepsTarget` | Private/Enemy/Enemy.cpp:105 | at distance exactly the radius nothing changes |
| `EnemyState.DamageThenHitScenario` | Private/Enemy/Enemy.cpp:122-205 | damage then hit: the instigator is the target, the damage was received and the bar shows the new percent; visible with capsule collision kept if alive, hidden with capsule collision off if not |
| `EnemyActor.Enemy.constructor` | Private/Enemy/Enemy.cpp:15-32 | a new enemy has no target, no pose, capsule collision on, no removal scheduled, no requests, and satisfies the invariant; the code always creates `Attributes` and `HealthBarWidget`, so the absent cases of those two flags model only its defensive null checks |
| `EnemyActor.Enemy.BeginPlay` | Private/Enemy/Enemy.cpp:35-42 | new state is `BeginPlayStep` of the old; invariant kept |
| `EnemyActor.Enemy.Die` | Private/Enemy/Enemy.cpp:59-87 | new state is `DieStep` of the old; invariant kept |
| `EnemyActor.Enemy.PlayHitReactMontage` | Private/Enemy/Enemy.cpp:89-96 | new state is `PlayHitReactStep` of the old; invariant kept |
| `EnemyActor.Enemy.Tick` | Private/Enemy/Enemy.cpp:99-113 | new state is `TickStep` of the old; invariant kept |
| `EnemyActor.Enemy.DirectionalHitReact` | Private/Enemy/Enemy.cpp:153-186 | new state is `DirectionalHitReactStep` of the old; invariant kept |
| `EnemyActor.Enemy.GetHit` | Private/Enemy/Enemy.cpp:122-151 | new state is `GetHitStep` of the old; invariant kept |
| `EnemyActor.Enemy.TakeDamage` | Private/Enemy/Enemy.cpp:197-205 | returns the damage amount unchanged; new state is `TakeDamageStep` of the old; invariant kept |

## Left out

- Floating-point vector maths: `GetSafeNormal`, `DotProduct`, `Acos`, `RadiansToDegrees` and the square root of `Size()` in `Tick`; the unsigned angle and the distance are real-valued inputs, and reals replace `float`/`double` with no rounding. Nothing ties the unsigned angle to the vectors supplied with it.
- `GetSafeNormal`'s tolerance: a displacement shorter than the engine's threshold becomes the zero vector, whose cross product is 0 even if the raw one is slightly negative; the model uses the raw displacement.
- The constructor's collision-channel, overlap and movement configuration: engine setup with no logic. The widget's visibility and percent before `BeginPlay` are engine defaults not given by the code; the model starts with the bar visible at percent 1.
- The patrol request in `BeginPlay` (`MoveTo` with acceptance radius 15, the path points and their debug spheres): navigation and debug drawing.
- Montage playback, particle spawning, the lifespan timer and collision internals: engine calls, recorded only as requests or field values. `capsuleCollisionEnabled` stands only for the capsule's `SetCollisionEnabled`; the mesh keeps its collision and overlap setup, which is why a dead enemy can still be hit.
- `RandRange(0, 1)`: replaced by a selection parameter of 0 or 1; the `default` branch of the switch in `Die` cannot be reached and is not modelled.
- `UAttributeComponent` (`ReceiveDamage`, `IsAlive`, `GetHealthPercent`) is not part of this model: "alive" and the new health percent are inputs, and no clamping is assumed.
- `TakeDamage`'s damage event and causer arguments are unused by the code and not modelled; the instigating controller is assumed non-null and only its pawn (possibly none) is modelled.
- Commented-out sound and debug-arrow code, `SetupPlayerInputComponent` (no logic).
- `MainCharacter.h` and `KnightAnimInstance.h`: declarations only; their bodies (`CanAttack`, `Arm`, `Disarm`, `FinishEquipping`, …) are not part of this model.
