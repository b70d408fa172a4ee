/**
 * The combat state of an AEnemy as a value, and one step function per
 * operation of the actor (BeginPlay, Die, Tick, GetHit, TakeDamage and the
 * hit-react helpers). The class Enemy is proved against these functions.
 *
 * Engine collaborators appear only as flags saying whether they exist, and
 * the engine calls the enemy makes (montage playback, particle spawning)
 * and the attribute component (damage received) are recorded as requests
 * in logs.
 */
module EnemyState {
  import opened Wrappers
  import opened HitDirection

  /** A stable identifier of an actor, standing in for an actor pointer. */
  type ActorId = nat

  /** The death pose; NoPose until a death montage section has been chosen. */
  datatype DeathPose = NoPose | Death1 | Death2

  datatype Montage = HitReactMontage | DeathMontage

  /** A request to play a montage and jump to one of its sections. */
  datatype MontageRequest = MontageRequest(montage: Montage, section: string)

  /** Which optional collaborators of the actor exist. */
  datatype Collaborators = Collaborators(
    healthBarWidget: bool,
    animInstance: bool,
    deathMontage: bool,
    hitReactMontage: bool,
    attributes: bool,
    hitParticles: bool,
    world: bool)

  /** Everything the operations below update. */
  datatype EnemyState = EnemyState(
    combatTarget: Option<ActorId>,
    healthBarVisible: bool,
    healthPercent: real,
    deathPose: DeathPose,
    capsuleCollisionEnabled: bool,
    lifeSpan: real,
    montageLog: seq<MontageRequest>,
    particleLog: seq<Vec3>,
    damageLog: seq<real>)

  /** The lifespan, in seconds, set on death. */
  const DeathLifeSpan: real := 10.0

  /** The health bar's percent after BeginPlay. */
  const FullHealth: real := 1.0

  /** The montage section belonging to a death pose. */
  function PoseSection(p: DeathPose): Option<string>
  {
    match p
    case NoPose => None
    case Death1 => Some("Death1")
    case Death2 => Some("Death2")
  }

  /** The pose stored for a random death selection (the engine draws 0 or 1). */
  function SelectedPose(selection: int): (p: DeathPose)
    requires selection == 0 || selection == 1
    ensures p != NoPose
    ensures PoseSection(p) == Some(if selection == 0 then "Death1" else "Death2")
  {
    if selection == 0 then Death1 else Death2
  }

  /** The health-bar part of BeginPlay: percent 1, hidden. */
  function BeginPlayStep(c: Collaborators, s: EnemyState): (r: EnemyState)
    ensures c.healthBarWidget ==> r.healthPercent == FullHealth && !r.healthBarVisible
    ensures !c.healthBarWidget ==> r == s
    ensures r.(healthPercent := s.healthPercent, healthBarVisible := s.healthBarVisible) == s
  {
    if c.healthBarWidget then s.(healthPercent := FullHealth, healthBarVisible := false) else s
  }

  /**
   * Die: when the anim instance and the death montage exist, play the death
   * montage at the section of a randomly selected pose and store that pose;
   * in every case hide the health bar, disable capsule collision and schedule
   * removal after DeathLifeSpan.
   */
  function DieStep(c: Collaborators, s: EnemyState, selection: int): (r: EnemyState)
    requires selection == 0 || selection == 1
    ensures !r.capsuleCollisionEnabled && r.lifeSpan == DeathLifeSpan
    ensures c.healthBarWidget ==> !r.healthBarVisible
    ensures !c.healthBarWidget ==> r.healthBarVisible == s.healthBarVisible
    ensures c.animInstance && c.deathMontage ==>
              r.deathPose == (if selection == 0 then Death1 else Death2) &&
              PoseSection(r.deathPose).Some? &&
              r.montageLog == s.montageLog + [MontageRequest(DeathMontage, PoseSection(r.deathPose).value)]
    ensures !(c.animInstance && c.deathMontage) ==> r.deathPose == s.deathPose && r.montageLog == s.montageLog
    ensures r.combatTarget == s.combatTarget && r.healthPercent == s.healthPercent
    ensures r.particleLog == s.particleLog && r.damageLog == s.damageLog
  {
    var s1 :=
      if c.animInstance && c.deathMontage then
        var pose := SelectedPose(selection);
        s.(montageLog := s.montageLog + [MontageRequest(DeathMontage, PoseSection(pose).value)],
           deathPose := pose)
      else s;
    var s2 := if c.healthBarWidget then s1.(healthBarVisible := false) else s1;
    s2.(capsuleCollisionEnabled := false, lifeSpan := DeathLifeSpan)
  }

  /** PlayHitReactMontage: request the section only when the anim instance and the montage exist. */
  function PlayHitReactStep(c: Collaborators, s: EnemyState, section: Section): (r: EnemyState)
    ensures c.animInstance && c.hitReactMontage ==>
              r.montageLog == s.montageLog + [MontageRequest(HitReactMontage, SectionName(section))]
    ensures !(c.animInstance && c.hitReactMontage) ==> r == s
    ensures r.(montageLog := s.montageLog) == s
  {
    if c.animInstance && c.hitReactMontage then
      s.(montageLog := s.montageLog + [MontageRequest(HitReactMontage, SectionName(section))])
    else s
  }

  /** DirectionalHitReact: classify the hit and play that section of the hit-react montage. */
  function DirectionalHitReactStep(c: Collaborators, s: EnemyState, forward: Vec3, location: Vec3,
                                   impactPoint: Vec3, unsignedTheta: real): (r: EnemyState)
    requires 0.0 <= unsignedTheta <= 180.0
    ensures r.(montageLog := s.montageLog) == s
    ensures !(c.animInstance && c.hitReactMontage) ==> r == s
    ensures c.animInstance && c.hitReactMontage ==>
              r.montageLog == s.montageLog +
                [MontageRequest(HitReactMontage, SectionName(HitSection(forward, location, impactPoint, unsignedTheta)))]
  {
    PlayHitReactStep(c, s, HitSection(forward, location, impactPoint, unsignedTheta))
  }

  /**
   * Tick: a combat target farther away than the combat radius is dropped
   * and the health bar hidden; otherwise nothing changes.
   */
  function TickStep(c: Collaborators, combatRadius: real, s: EnemyState, distance: real): (r: EnemyState)
    ensures r.combatTarget != s.combatTarget <==> s.combatTarget.Some? && distance > combatRadius
    ensures r.combatTarget == None || r.combatTarget == s.combatTarget
    ensures s.combatTarget.Some? && distance > combatRadius && c.healthBarWidget ==> !r.healthBarVisible
    ensures !c.healthBarWidget ==> r.healthBarVisible == s.healthBarVisible
    ensures !(s.combatTarget.Some? && distance > combatRadius) ==> r == s
    ensures r.(combatTarget := s.combatTarget, healthBarVisible := s.healthBarVisible) == s
  {
    if s.combatTarget.Some? && distance > combatRadius then
      var s1 := s.(combatTarget := None);
      if c.healthBarWidget then s1.(healthBarVisible := false) else s1
    else s
  }

  /**
   * GetHit: show the health bar, then either react to the hit (attributes
   * exist and report alive) or die; finally request hit particles at the
   * impact point. There is no guard against an enemy that is already dead.
   */
  function GetHitStep(c: Collaborators, s: EnemyState, forward: Vec3, location: Vec3, impactPoint: Vec3,
                      unsignedTheta: real, alive: bool, selection: int): (r: EnemyState)
    requires 0.0 <= unsignedTheta <= 180.0
    requires selection == 0 || selection == 1
    ensures c.attributes && alive ==>
              r.capsuleCollisionEnabled == s.capsuleCollisionEnabled && r.lifeSpan == s.lifeSpan &&
              r.deathPose == s.deathPose &&
              (c.healthBarWidget ==> r.healthBarVisible) &&
              r.montageLog == s.montageLog +
                (if c.animInstance && c.hitReactMontage
                 then [MontageRequest(HitReactMontage, SectionName(HitSection(forward, location, impactPoint, unsignedTheta)))]
                 else [])
    ensures !(c.attributes && alive) ==>
              !r.capsuleCollisionEnabled && r.lifeSpan == DeathLifeSpan &&
              (c.healthBarWidget ==> !r.healthBarVisible) &&
              (c.animInstance && c.deathMontage ==> r.deathPose == SelectedPose(selection)) &&
              r.montageLog == DieStep(c, s, selection).montageLog &&
              r.deathPose == DieStep(c, s, selection).deathPose
    ensures r.particleLog == s.particleLog + (if c.hitParticles && c.world then [impactPoint] else [])
    ensures r.combatTarget == s.combatTarget && r.healthPercent == s.healthPercent && r.damageLog == s.damageLog
    ensures !c.healthBarWidget ==> r.healthBarVisible == s.healthBarVisible
  {
    var s1 := if c.healthBarWidget then s.(healthBarVisible := true) else s;
    var s2 :=
      if c.attributes && alive then DirectionalHitReactStep(c, s1, forward, location, impactPoint, unsignedTheta)
      else DieStep(c, s1, selection);
    if c.hitParticles && c.world then s2.(particleLog := s2.particleLog + [impactPoint]) else s2
  }

  /**
   * TakeDamage: only when both the attributes and the health bar exist is
   * the damage passed to the attributes and the bar given their new
   * percent; an enemy without a health bar never receives damage. The
   * instigator's pawn always becomes the combat target. The amount itself
   * is returned unchanged by the class method.
   */
  function TakeDamageStep(c: Collaborators, s: EnemyState, amount: real, instigatorPawn: Option<ActorId>,
                          newHealthPercent: real): (r: EnemyState)
    ensures r.combatTarget == instigatorPawn
    ensures c.attributes && c.healthBarWidget ==>
              r.healthPercent == newHealthPercent && r.damageLog == s.damageLog + [amount]
    ensures !(c.attributes && c.healthBarWidget) ==>
              r.healthPercent == s.healthPercent && r.damageLog == s.damageLog
    ensures r.(combatTarget := s.combatTarget, healthPercent := s.healthPercent, damageLog := s.damageLog) == s
  {
    var s1 :=
      if c.attributes && c.healthBarWidget then
        s.(damageLog := s.damageLog + [amount], healthPercent := newHealthPercent)
      else s;
    s1.(combatTarget := instigatorPawn)
  }

  // ---------------------------------------------------------------------
  // Runs of events and the invariant they keep
  // ---------------------------------------------------------------------

  /** One externally triggered operation, with the values the engine supplies. */
  datatype Event =
    | BeginPlay
    | Tick(distance: real)
    | GetHit(forward: Vec3, location: Vec3, impactPoint: Vec3, unsignedTheta: real, alive: bool, selection: int)
    | TakeDamage(amount: real, instigatorPawn: Option<ActorId>, newHealthPercent: real)

  /** The engine only supplies angles from an arc-cosine and selections from RandRange(0, 1). */
  predicate WellFormed(e: Event)
  {
    e.GetHit? ==> 0.0 <= e.unsignedTheta <= 180.0 && (e.selection == 0 || e.selection == 1)
  }

  function Apply(c: Collaborators, combatRadius: real, s: EnemyState, e: Event): EnemyState
    requires WellFormed(e)
  {
    match e
    case BeginPlay => BeginPlayStep(c, s)
    case Tick(d) => TickStep(c, combatRadius, s, d)
    case GetHit(f, l, p, u, alive, sel) => GetHitStep(c, s, f, l, p, u, alive, sel)
    case TakeDamage(amount, pawn, pct) => TakeDamageStep(c, s, amount, pawn, pct)
  }

  function Run(c: Collaborators, combatRadius: real, s: EnemyState, events: seq<Event>): EnemyState
    requires forall i :: 0 <= i < |events| ==> WellFormed(events[i])
    decreases |events|
  {
    if events == [] then s
    else Run(c, combatRadius, Apply(c, combatRadius, s, events[0]), events[1..])
  }

  /** The section of the most recent death-montage request, if any. */
  function LastDeathSection(log: seq<MontageRequest>): Option<string>
    decreases |log|
  {
    if log == [] then None
    else if log[|log| - 1].montage == DeathMontage then Some(log[|log| - 1].section)
    else LastDeathSection(log[..|log| - 1])
  }

  /**
   * The state every spawned enemy keeps: the stored death pose is exactly
   * the section of the latest death-montage request (none before any), a
   * pose is only ever stored together with disabled capsule collision, and it
   * is disabled exactly when the actor has been scheduled for removal.
   */
  predicate Consistent(s: EnemyState)
  {
    && LastDeathSection(s.montageLog) == PoseSection(s.deathPose)
    && (s.deathPose != NoPose ==> !s.capsuleCollisionEnabled)
    && (!s.capsuleCollisionEnabled <==> s.lifeSpan == DeathLifeSpan)
  }

  /** The state of a freshly spawned enemy, before BeginPlay. */
  function Spawned(): (s: EnemyState)
    ensures Consistent(s)
  {
    EnemyState(None, true, FullHealth, NoPose, true, 0.0, [], [], [])
  }

  lemma LastDeathSectionAppend(log: seq<MontageRequest>, m: MontageRequest)
    ensures LastDeathSection(log + [m]) ==
              if m.montage == DeathMontage then Some(m.section) else LastDeathSection(log)
  {
    assert (log + [m])[..|log|] == log;
  }

  lemma ApplyKeepsConsistent(c: Collaborators, combatRadius: real, s: EnemyState, e: Event)
    requires WellFormed(e)
    requires Consistent(s)
    ensures Consistent(Apply(c, combatRadius, s, e))
  {
    match e
    case BeginPlay =>
    case Tick(d) =>
    case TakeDamage(_, _, _) =>
    case GetHit(f, l, p, u, alive, sel) =>
      var s1 := if c.healthBarWidget then s.(healthBarVisible := true) else s;
      if c.attributes && alive {
        if c.animInstance && c.hitReactMontage {
          LastDeathSectionAppend(s1.montageLog, MontageRequest(HitReactMontage, SectionName(HitSection(f, l, p, u))));
        }
      } else if c.animInstance && c.deathMontage {
        LastDeathSectionAppend(s1.montageLog, MontageRequest(DeathMontage, PoseSection(SelectedPose(sel)).value));
      }
  }

  /** Every run of well-formed events from a consistent state ends in a consistent state. */
  lemma {:induction false} RunKeepsConsistent(c: Collaborators, combatRadius: real, s: EnemyState, events: seq<Event>)
    requires forall i :: 0 <= i < |events| ==> WellFormed(events[i])
    requires Consistent(s)
    ensures Consistent(Run(c, combatRadius, s, events))
    decreases |events|
  {
    if events != [] {
      ApplyKeepsConsistent(c, combatRadius, s, events[0]);
      RunKeepsConsistent(c, combatRadius, Apply(c, combatRadius, s, events[0]), events[1..]);
    }
  }

  /**
   * GetHit has no dead-state guard: hitting an enemy whose attributes no
   * longer report alive runs Die again, requesting a second death montage
   * and possibly switching the stored pose.
   */
  lemma RepeatedHitRerunsDie(c: Collaborators, s: EnemyState, f: Vec3, l: Vec3, p: Vec3,
                                                u: real, sel1: int, sel2: int)
    requires 0.0 <= u <= 180.0
    requires (sel1 == 0 || sel1 == 1) && (sel2 == 0 || sel2 == 1)
    requires c.animInstance && c.deathMontage
    ensures var s1 := GetHitStep(c, s, f, l, p, u, false, sel1);
            var s2 := GetHitStep(c, s1, f, l, p, u, false, sel2);
            |s2.montageLog| == |s.montageLog| + 2 &&
            s2.montageLog[|s.montageLog|].montage == DeathMontage &&
            s2.montageLog[|s.montageLog| + 1].montage == DeathMontage &&
            s2.deathPose == SelectedPose(sel2)
  {
    var s1 := GetHitStep(c, s, f, l, p, u, false, sel1);
    var s2 := GetHitStep(c, s1, f, l, p, u, false, sel2);
    assert s1.montageLog == s.montageLog + [MontageRequest(DeathMontage, PoseSection(SelectedPose(sel1)).value)];
    assert s2.montageLog == s1.montageLog + [MontageRequest(DeathMontage, PoseSection(SelectedPose(sel2)).value)];
  }

  /**
   * Once dropped by Tick, a target stays dropped through further ticks, and
   * a target within the radius survives any number of ticks at that distance.
   */
  lemma TickIdempotent(c: Collaborators, combatRadius: real, s: EnemyState, distance: real)
    ensures TickStep(c, combatRadius, TickStep(c, combatRadius, s, distance), distance)
         == TickStep(c, combatRadius, s, distance)
  {
  }

  /** At exactly the combat radius the target is kept and nothing changes. */
  lemma TickAtRadiusKeepsTarget(c: Collaborators, combatRadius: real, s: EnemyState)
    ensures TickStep(c, combatRadius, s, combatRadius) == s
  {
  }

  /** A hit that follows damage from an instigator keeps that instigator as target and shows the bar. */
  lemma DamageThenHitScenario(c: Collaborators, s: EnemyState, amount: real, pawn: ActorId, pct: real,
                                                 f: Vec3, l: Vec3, p: Vec3, u: real, alive: bool, sel: int)
    requires 0.0 <= u <= 180.0 && (sel == 0 || sel == 1)
    requires c.healthBarWidget && c.attributes
    ensures var r := GetHitStep(c, TakeDamageStep(c, s, amount, Some(pawn), pct), f, l, p, u, alive, sel);
            r.combatTarget == Some(pawn) && r.healthPercent == pct && r.damageLog == s.damageLog + [amount] &&
            (alive ==> r.healthBarVisible && r.capsuleCollisionEnabled == s.capsuleCollisionEnabled) &&
            (!alive ==> !r.healthBarVisible && !r.capsuleCollisionEnabled)
  {
  }
}
