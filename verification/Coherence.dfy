/** What every child keeps, whatever the parent and the environment do: the meaning of its status. */
module Coherence {
  import opened Cluster

  /** The Deployment and all pods were created for the names `x`. */
  predicate Uniform(kid: Kid, x: Names) {
    kid.tmpl.Some? && kid.tmpl.value.names == x && forall p <- kid.pods :: p.input.names == x
  }

  predicate PassCoherent(kid: Kid) {
    kid.pass.Working? ==>
      && 1 <= kid.pass.gen <= kid.Gen()
      && kid.obs <= kid.pass.gen
      && kid.pass.spec == kid.log[kid.pass.gen - 1]
      && (kid.pass.ready ==>
            kid.pass.pc.Store? && kid.pass.applied == Some(kid.pass.spec.names) && Uniform(kid, kid.pass.spec.names))
  }

  predicate Coherent(kid: Kid) {
    && kid.obs <= kid.Gen()
    && (kid.ready ==> 1 <= kid.obs && kid.applied == Some(kid.log[kid.obs - 1].names))
    && (kid.ready && kid.obs == kid.Gen() ==> Uniform(kid, kid.Spec().names))
    && PassCoherent(kid)
    && (kid.log == [] ==> kid.pass.Resting? && kid.tmpl.None? && kid.cfg == NOTHING)
    && (kid.tmpl.None? ==> kid.pods == {})
  }

  predicate AllCoherent(s: Cluster) {
    forall k: Kind :: Coherent(s.kids.At(k))
  }

  lemma KidStepCoherent(kind: Kind, kid: Kid, parentCfg: Names, o: Outcome)
    requires Coherent(kid) && kid.pass.Working?
    ensures Coherent(KidStep(kind, kid, parentCfg, o))
  {
  }

  lemma KidEventCoherent(s: Cluster, k: Kind, e: Event)
    requires Enabled(s, e)
    requires e.KidStarts? || e.KidCalls? || e.KidCrashes? || e.PodUp? || e.PodDown? || e.RollsOut?
    requires e.k == k && Coherent(s.kids.At(k))
    ensures Coherent(KidEvent(s, k, e))
  {
    if e.KidCalls? {
      KidStepCoherent(k, s.kids.At(k), s.cfg, e.ko);
    }
  }

  lemma PushCoherent(kid: Kid, spec: KidSpec)
    requires Coherent(kid)
    ensures Coherent(kid.Push(spec)) && kid.Push(spec).Spec() == spec
  {
  }

  lemma ApplyCoherent(s: Cluster, e: Event)
    requires AllCoherent(s) && Enabled(s, e)
    ensures AllCoherent(Apply(s, e))
  {
    if e.ParentCalls? {
      if s.parent.pc.Child? {
        var p := s.parent;
        PushCoherent(s.kids.At(p.pc.kind), KidSpec(p.spec.tpl, p.cur));
      }
    } else if e.KidStarts? || e.KidCalls? || e.KidCrashes? || e.PodUp? || e.PodDown? || e.RollsOut? {
      KidEventCoherent(s, e.k, e);
    }
  }

  lemma {:induction false} RunCoherent(spec: ParentSpec, es: seq<Event>)
    requires ValidRun(Start(spec), es)
    ensures AllCoherent(Run(Start(spec), es))
  {
    if es != [] {
      RunCoherent(spec, es[..|es| - 1]);
      ApplyCoherent(Run(Start(spec), es[..|es| - 1]), es[|es| - 1]);
    }
  }

  /** Child status coherence: in every reachable state of every run, a child that is Ready carries the
      applied input hash of the names in the spec at its observed generation; and when that generation
      is the current one, its Deployment and every pod belong to the names in its spec. */
  lemma ReadyMeansApplied(spec: ParentSpec, es: seq<Event>, k: Kind)
    requires ValidRun(Start(spec), es)
    ensures var kid := Run(Start(spec), es).kids.At(k);
      kid.ready ==>
        && 1 <= kid.obs <= |kid.log|
        && kid.applied == Some(kid.log[kid.obs - 1].names)
        && (kid.obs == |kid.log| ==>
              && kid.Reports(kid.Spec().names)
              && kid.tmpl.Some? && kid.tmpl.value.names == kid.Spec().names
              && forall p <- kid.pods :: p.input.names == kid.Spec().names)
  {
    RunCoherent(spec, es);
    assert Coherent(Run(Start(spec), es).kids.At(k));
  }
}
