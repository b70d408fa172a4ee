/**
 * AEnemy as an object whose fields its event handlers update in place.
 * Each method is proved against the step function of EnemyState that
 * specifies it, and keeps the object invariant Valid().
 */
module EnemyActor {
  import opened Wrappers
  import opened HitDirection
  import opened EnemyState

  class Enemy {
    /** Which optional collaborators (health bar, anim instance, montages, attributes, particles, world) exist. */
    const parts: Collaborators
    /** Beyond this distance the combat target is dropped. */
    const combatRadius: real

    var combatTarget: Option<ActorId>
    var healthBarVisible: bool
    var healthPercent: real
    var deathPose: DeathPose
    var capsuleCollisionEnabled: bool
    var lifeSpan: real
    /** Montage sections requested from the anim instance, oldest first. */
    var montageLog: seq<MontageRequest>
    /** Locations at which hit particles were requested, oldest first. */
    var particleLog: seq<Vec3>
    /** Damage amounts passed to the attribute component, oldest first. */
    var damageLog: seq<real>

    function State(): EnemyState
      reads this
    {
      EnemyState(combatTarget, healthBarVisible, healthPercent, deathPose,
                 capsuleCollisionEnabled, lifeSpan, montageLog, particleLog, damageLog)
    }

    ghost predicate Valid()
      reads this
    {
      Consistent(State())
    }

    constructor (parts: Collaborators, combatRadius: real)
      ensures Valid()
      ensures this.parts == parts && this.combatRadius == combatRadius
      ensures State() == Spawned()
    {
      this.parts := parts;
      this.combatRadius := combatRadius;
      combatTarget := None;
      healthBarVisible := true;
      healthPercent := FullHealth;
      deathPose := NoPose;
      capsuleCollisionEnabled := true;
      lifeSpan := 0.0;
      montageLog := [];
      particleLog := [];
      damageLog := [];
    }

    method BeginPlay()
      requires Valid()
      modifies this
      ensures Valid()
      ensures State() == BeginPlayStep(parts, old(State()))
    {
      if parts.healthBarWidget {
        healthPercent := FullHealth;
        healthBarVisible := false;
      }
    }

    method Die(selection: int)
      requires selection == 0 || selection == 1
      requires Valid()
      modifies this
      ensures Valid()
      ensures State() == DieStep(parts, old(State()), selection)
    {
      if parts.animInstance && parts.deathMontage {
        var section: string;
        if selection == 0 {
          section := "Death1";
          deathPose := Death1;
        } else {
          section := "Death2";
          deathPose := Death2;
        }
        LastDeathSectionAppend(montageLog, MontageRequest(DeathMontage, section));
        montageLog := montageLog + [MontageRequest(DeathMontage, section)];
      }
      if parts.healthBarWidget {
        healthBarVisible := false;
      }
      capsuleCollisionEnabled := false;
      lifeSpan := DeathLifeSpan;
    }

    method PlayHitReactMontage(section: Section)
      requires Valid()
      modifies this
      ensures Valid()
      ensures State() == PlayHitReactStep(parts, old(State()), section)
    {
      if parts.animInstance && parts.hitReactMontage {
        LastDeathSectionAppend(montageLog, MontageRequest(HitReactMontage, SectionName(section)));
        montageLog := montageLog + [MontageRequest(HitReactMontage, SectionName(section))];
      }
    }

    method Tick(distance: real)
      requires Valid()
      modifies this
      ensures Valid()
      ensures State() == TickStep(parts, combatRadius, old(State()), distance)
    {
      if combatTarget.Some? {
        if distance > combatRadius {
          combatTarget := None;
          if parts.healthBarWidget {
            healthBarVisible := false;
          }
        }
      }
    }

    method DirectionalHitReact(forward: Vec3, location: Vec3, impactPoint: Vec3, unsignedTheta: real)
      requires 0.0 <= unsignedTheta <= 180.0
      requires Valid()
      modifies this
      ensures Valid()
      ensures State() == DirectionalHitReactStep(parts, old(State()), forward, location, impactPoint, unsignedTheta)
    {
      var theta := SignedTheta(unsignedTheta, CrossZ(forward, Sub(impactPoint, location)));
      var section := Classify(theta);
      PlayHitReactMontage(section);
    }

    method GetHit(forward: Vec3, location: Vec3, impactPoint: Vec3, unsignedTheta: real, alive: bool, selection: int)
      requires 0.0 <= unsignedTheta <= 180.0
      requires selection == 0 || selection == 1
      requires Valid()
      modifies this
      ensures Valid()
      ensures State() == GetHitStep(parts, old(State()), forward, location, impactPoint, unsignedTheta, alive, selection)
    {
      if parts.healthBarWidget {
        healthBarVisible := true;
      }
      if parts.attributes && alive {
        DirectionalHitReact(forward, location, impactPoint, unsignedTheta);
      } else {
        Die(selection);
      }
      if parts.hitParticles && parts.world {
        particleLog := particleLog + [impactPoint];
      }
    }

    method TakeDamage(amount: real, instigatorPawn: Option<ActorId>, newHealthPercent: real) returns (r: real)
      requires Valid()
      modifies this
      ensures Valid()
      ensures r == amount
      ensures State() == TakeDamageStep(parts, old(State()), amount, instigatorPawn, newHealthPercent)
    {
      if parts.attributes && parts.healthBarWidget {
        damageLog := damageLog + [amount];
        healthPercent := newHealthPercent;
      }
      combatTarget := instigatorPawn;
      r := amount;
    }
  }

  /**
   * A spawned enemy with every collaborator takes a hit from pawn 7 while
   * alive, then a lethal one, then is hit again after death.
   */
  method CombatScenario()
  {
    var all := Collaborators(true, true, true, true, true, true, true);
    var e := new Enemy(all, 500.0);
    e.BeginPlay();
    assert e.healthPercent == 1.0 && !e.healthBarVisible;

    var dealt := e.TakeDamage(30.0, Some(7), 0.7);
    assert dealt == 30.0 && e.combatTarget == Some(7) && e.healthPercent == 0.7 && e.damageLog == [30.0];
    RightHandHit();
    e.GetHit(Vec3(1.0, 0.0, 0.0), Vec3(0.0, 0.0, 0.0), Vec3(0.0, 1.0, 0.0), 90.0, true, 0);
    assert e.healthBarVisible && e.capsuleCollisionEnabled;
    assert e.montageLog == [MontageRequest(HitReactMontage, "FromRight")];

    e.Tick(500.0);
    assert e.combatTarget == Some(7);

    dealt := e.TakeDamage(50.0, Some(7), 0.0);
    e.GetHit(Vec3(1.0, 0.0, 0.0), Vec3(0.0, 0.0, 0.0), Vec3(-1.0, 0.0, 0.0), 180.0, false, 1);
    assert e.deathPose == Death2 && !e.capsuleCollisionEnabled && e.lifeSpan == 10.0 && !e.healthBarVisible;
    assert |e.montageLog| == 2 && e.montageLog[1] == MontageRequest(DeathMontage, "Death2");

    e.GetHit(Vec3(1.0, 0.0, 0.0), Vec3(0.0, 0.0, 0.0), Vec3(-1.0, 0.0, 0.0), 180.0, false, 0);
    assert e.deathPose == Death1 && |e.montageLog| == 3;

    e.Tick(500.5);
    assert e.combatTarget == None;
  }
}
