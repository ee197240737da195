/** How far a child is from reporting the names `x`, once the parent has published them: a number that
    no step of the child raises and that the steps it waits for lower. */
module KidConvergence {
  import opened Cluster
  import opened Coherence

  function Goal(x: Names): Option<Input> { Some(Input(x, x)) }

  /** Calls that a pass at `pc` still makes. */
  function Left(pc: KidPC): nat {
    match pc
    case Read => 6 case Write => 5 case Hash => 4 case Deploy => 3 case Check => 2 case Store => 1
  }

  /** The pass works on the current generation and on configuration rendered from `x`. */
  predicate GoodPass(kid: Kid, x: Names) {
    kid.pass.Working? ==>
      && kid.pass.gen == kid.Gen()
      && (kid.pass.pc.Read? || kid.pass.conf == x)
      && (kid.pass.pc.Deploy? || kid.pass.pc.Check? || (kid.pass.pc.Store? && kid.pass.ready) ==>
        kid.pass.recorded == Goal(x))
      && (kid.pass.pc.Store? && kid.pass.ready ==> kid.pass.applied == Some(x))
  }

  predicate Rolled(kid: Kid, x: Names) { kid.RolledOut(Input(x, x)) }

  /** The child reports `x`, and every further pass over the same inputs will report it again. */
  predicate Stable(kid: Kid, x: Names) {
    && kid.Reports(x) && Rolled(kid, x) && kid.recorded == Goal(x) && GoodPass(kid, x)
    && (kid.pass.Working? ==>
          && kid.pass.recorded == Goal(x) && kid.pass.applied == Some(x)
          && (kid.pass.pc.Store? ==> kid.pass.ready))
  }

  /** Whether the controller goes on to the Deployment in a pass that starts with this recorded hash. */
  predicate GoesOn(kind: Kind, recorded: Option<Input>, x: Names) { !kind.API? || recorded == Goal(x) }

  /** Calls until the Deployment carries the goal. */
  function ToDeploy(kind: Kind, kid: Kid, x: Names): nat {
    if kid.pass.Resting? then (if GoesOn(kind, kid.recorded, x) then 5 else 10)
    else match kid.pass.pc
      case Deploy => 1
      case Check => 2 + (if GoesOn(kind, kid.pass.recorded, x) then 5 else 10)
      case Store => 1 + (if GoesOn(kind, kid.pass.recorded, x) then 5 else 10)
      case pc => if GoesOn(kind, kid.pass.recorded, x) then Left(pc) - 2 else Left(pc) + 3
  }

  /** Calls until the child reports, when its pods are rolled out. */
  function ToReport(kind: Kind, kid: Kid, x: Names): nat {
    if kid.pass.Resting? then (if GoesOn(kind, kid.recorded, x) then 7 else 12)
    else match kid.pass.pc
      case Deploy => 3
      case Check => 2
      case Store => if kid.pass.ready then 1 else 1 + (if GoesOn(kind, kid.pass.recorded, x) then 7 else 12)
      case pc => if GoesOn(kind, kid.pass.recorded, x) then Left(pc) else Left(pc) + 5
  }

  /** Waiting for the rollout: no call of the controller can bring the child closer. */
  predicate Waiting(kid: Kid, x: Names) { GoodPass(kid, x) && kid.tmpl == Goal(x) && !Rolled(kid, x) }

  function Distance(kind: Kind, kid: Kid, x: Names): (d: nat)
    ensures d <= 66 && (GoodPass(kid, x) ==> d <= 42)
  {
    if !GoodPass(kid, x) then 60 + (if kid.pass.Working? then Left(kid.pass.pc) else 0)
    else if Stable(kid, x) then 0
    else if Rolled(kid, x) then ToReport(kind, kid, x)
    else if kid.tmpl == Goal(x) then 20
    else 30 + ToDeploy(kind, kid, x)
  }

  predicate Ready(kid: Kid, x: Names) { Coherent(kid) && kid.log != [] && kid.Spec().names == x }

  predicate Closer(kind: Kind, kid: Kid, kid': Kid, x: Names) {
    && Distance(kind, kid', x) <= Distance(kind, kid, x)
    && (Distance(kind, kid, x) > 0 && !Waiting(kid, x) ==> Distance(kind, kid', x) < Distance(kind, kid, x))
  }

  /** A pass over other inputs comes to its end. */
  lemma BadCallApproaches(kind: Kind, kid: Kid, x: Names)
    requires Ready(kid, x) && kid.pass.Working? && !GoodPass(kid, x)
    ensures Closer(kind, kid, KidStep(kind, kid, x, Done), x)
  {
    var kid' := KidStep(kind, kid, x, Done);
    assert kid'.pass.Working? ==> Left(kid'.pass.pc) < Left(kid.pass.pc);
  }

  lemma StableCallStays(kind: Kind, kid: Kid, x: Names)
    requires Ready(kid, x) && kid.pass.Working? && Stable(kid, x)
    ensures Stable(KidStep(kind, kid, x, Done), x)
  {
    var kid' := KidStep(kind, kid, x, Done);
    assert kid'.pods == kid.pods && kid'.log == kid.log && kid'.tmpl == kid.tmpl;
  }

  lemma EarlyCallApproaches(kind: Kind, kid: Kid, x: Names)
    requires Ready(kid, x) && kid.pass.Working? && GoodPass(kid, x) && !Stable(kid, x)
    requires kid.pass.pc.Read? || kid.pass.pc.Write? || kid.pass.pc.Hash?
    ensures Closer(kind, kid, KidStep(kind, kid, x, Done), x)
  {
    var kid' := KidStep(kind, kid, x, Done);
    assert kid'.pods == kid.pods && kid'.log == kid.log && kid'.tmpl == kid.tmpl;
    assert Rolled(kid', x) == Rolled(kid, x);
    assert kid.pass.spec.names == x && GoodPass(kid', x);
  }

  lemma LateCallApproaches(kind: Kind, kid: Kid, x: Names)
    requires Ready(kid, x) && kid.pass.Working? && GoodPass(kid, x) && !Stable(kid, x)
    requires kid.pass.pc.Deploy? || kid.pass.pc.Check? || kid.pass.pc.Store?
    ensures Closer(kind, kid, KidStep(kind, kid, x, Done), x)
  {
    var kid' := KidStep(kind, kid, x, Done);
    assert kid'.pods == kid.pods && kid'.log == kid.log;
    assert kid.pass.spec.names == x && GoodPass(kid', x);
    if kid.pass.pc.Deploy? {
      assert kid'.tmpl == Goal(x);
    } else {
      assert kid'.tmpl == kid.tmpl && Rolled(kid', x) == Rolled(kid, x);
    }
  }

  /** No call of the controller takes the child further away, and each takes it closer unless it waits
      for its rollout or has arrived. */
  lemma CallApproaches(kind: Kind, kid: Kid, x: Names)
    requires Ready(kid, x) && kid.pass.Working?
    ensures Closer(kind, kid, KidStep(kind, kid, x, Done), x)
  {
    if !GoodPass(kid, x) {
      BadCallApproaches(kind, kid, x);
    } else if Stable(kid, x) {
      StableCallStays(kind, kid, x);
    } else if kid.pass.pc.Read? || kid.pass.pc.Write? || kid.pass.pc.Hash? {
      EarlyCallApproaches(kind, kid, x);
    } else {
      LateCallApproaches(kind, kid, x);
    }
  }

  lemma StartApproaches(kind: Kind, kid: Kid, x: Names)
    requires Ready(kid, x) && kid.pass.Resting?
    ensures Closer(kind, kid, KidBegin(kid), x)
  {
    var kid' := KidBegin(kid);
    assert Rolled(kid', x) == Rolled(kid, x);
  }

  /** The rollout ends the wait. */
  lemma RolloutApproaches(kind: Kind, kid: Kid, x: Names)
    requires Ready(kid, x)
    ensures var kid' := kid.(pods := set p | p in kid.pods && Some(p.input) == kid.tmpl);
      && Distance(kind, kid', x) <= Distance(kind, kid, x)
      && (Waiting(kid, x) ==> Distance(kind, kid', x) < Distance(kind, kid, x))
  {
    var kid' := kid.(pods := set p | p in kid.pods && Some(p.input) == kid.tmpl);
    assert Rolled(kid, x) ==> Rolled(kid', x);
    assert kid.tmpl == Goal(x) ==> Rolled(kid', x);
  }

  lemma PodsKeepDistance(kind: Kind, kid: Kid, x: Names, pods: set<Pod>)
    requires Ready(kid, x)
    requires forall p <- pods ::
      p in kid.pods || Some(p.input) == kid.tmpl || exists q <- kid.pods :: q.input == p.input
    ensures Distance(kind, kid.(pods := pods), x) <= Distance(kind, kid, x)
  {
    assert Rolled(kid, x) ==> Rolled(kid.(pods := pods), x);
  }
}
