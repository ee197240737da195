/** The invariant behind rotation safety.  Below, for a bus `b`, the tracked name is the persisted
    `s.st.tracked.On(b)` and the published name is `s.cfg.On(b)`, the one in the parent's config Secret. */
module RotationInvariant {
  import opened Cluster
  import opened Coherence

  // ---------------------------------------------------------------- the names in a child

  function PodNames(pods: set<Pod>): set<Names> {
    (set p | p in pods :: p.loaded) + (set p | p in pods :: p.input.names) + (set p | p in pods :: p.input.conf)
  }

  function OwnNames(kid: Kid): set<Names> {
    {kid.Spec().names, kid.cfg}
    + (if kid.pass.Working? then {kid.pass.spec.names, kid.pass.conf} else {})
    + (if kid.tmpl.Some? then {kid.tmpl.value.names, kid.tmpl.value.conf} else {})
  }

  /** Every pair of names that a child holds or that one of its pods uses. */
  function KidNames(kid: Kid): set<Names> {
    OwnNames(kid) + PodNames(kid.pods)
  }

  predicate IsKidEvent(e: Event) {
    e.KidStarts? || e.KidCalls? || e.KidCrashes? || e.PodUp? || e.PodDown? || e.RollsOut?
  }

  lemma PodNamesGrow(pods: set<Pod>, p: Pod)
    ensures PodNames(pods + {p}) == PodNames(pods) + {p.loaded, p.input.names, p.input.conf}
  {
    var all := pods + {p};
    assert (set q | q in all :: q.loaded) == (set q | q in pods :: q.loaded) + {p.loaded};
    assert (set q | q in all :: q.input.names) == (set q | q in pods :: q.input.names) + {p.input.names};
    assert (set q | q in all :: q.input.conf) == (set q | q in pods :: q.input.conf) + {p.input.conf};
  }

  lemma PodNamesMember(pods: set<Pod>, p: Pod)
    requires p in pods
    ensures p.loaded in PodNames(pods) && p.input.names in PodNames(pods) && p.input.conf in PodNames(pods)
  {
  }

  lemma PodNamesMonotone(fewer: set<Pod>, pods: set<Pod>)
    requires fewer <= pods
    ensures PodNames(fewer) <= PodNames(pods)
  {
    assert (set q | q in fewer :: q.loaded) <= (set q | q in pods :: q.loaded);
    assert (set q | q in fewer :: q.input.names) <= (set q | q in pods :: q.input.names);
    assert (set q | q in fewer :: q.input.conf) <= (set q | q in pods :: q.input.conf);
  }

  lemma KidStepNames(kind: Kind, kid: Kid, parentCfg: Names, o: Outcome)
    requires kid.pass.Working?
    ensures KidNames(KidStep(kind, kid, parentCfg, o)) <= KidNames(kid) + {parentCfg}
  {
    var kid' := KidStep(kind, kid, parentCfg, o);
    assert kid'.pods == kid.pods;
    forall x | x in OwnNames(kid') ensures x in OwnNames(kid) + {parentCfg} {
      assert kid'.log == kid.log;
      assert kid'.cfg in {kid.cfg, kid.pass.conf};
      assert kid'.tmpl == kid.tmpl || kid'.tmpl == Some(KidInput(kid));
      assert kid'.pass.Working? ==> kid'.pass.spec == kid.pass.spec && kid'.pass.conf in {kid.pass.conf, parentCfg};
    }
  }

  lemma PodUpNames(kid: Kid, input: Input)
    requires kid.tmpl == Some(input) || exists p <- kid.pods :: p.input == input
    ensures KidNames(kid.(pods := kid.pods + {Pod(input, kid.cfg)})) <= KidNames(kid)
  {
    PodNamesGrow(kid.pods, Pod(input, kid.cfg));
    if kid.tmpl != Some(input) {
      var p :| p in kid.pods && p.input == input;
      PodNamesMember(kid.pods, p);
    }
  }

  /** A child learns names only from the parent's config Secret. */
  lemma KidEventNames(s: Cluster, k: Kind, e: Event)
    requires Enabled(s, e) && IsKidEvent(e) && e.k == k
    ensures KidNames(KidEvent(s, k, e)) <= KidNames(s.kids.At(k)) + {s.cfg, NOTHING}
  {
    var kid, kid' := s.kids.At(k), KidEvent(s, k, e);
    match e
    case PodUp(_, input) => PodUpNames(kid, input);
    case KidCalls(_, o) => KidStepNames(k, kid, s.cfg, o);
    case KidStarts(_) =>
    case KidCrashes(_) =>
    case PodDown(_, _) => PodNamesMonotone(kid'.pods, kid.pods);
    case RollsOut(_) => PodNamesMonotone(kid'.pods, kid.pods);
  }

  lemma PushNames(kid: Kid, spec: KidSpec)
    ensures KidNames(kid.Push(spec)) <= KidNames(kid) + {spec.names}
  {
  }

  predicate Within(kid: Kid, a: Names, c: Names) {
    forall x <- KidNames(kid), b: Bus :: x.On(b) == NoName || x.On(b) == a.On(b) || x.On(b) == c.On(b)
  }

  predicate Free(kid: Kid, b: Bus, x: Name) {
    forall y <- KidNames(kid) :: y.On(b) != x
  }

  predicate Fits(x: Names, held: set<Name>) {
    forall b: Bus :: x.On(b) == NoName || x.On(b) in held
  }

  predicate KidHeld(kid: Kid, held: set<Name>) {
    forall x <- KidNames(kid) :: Fits(x, held)
  }

  // ---------------------------------------------------------------- the chain from spec to pod

  /** Some template in use in the child was made for the name `c` and rendered without `o`. */
  predicate Marked(kid: Kid, b: Bus, c: Name, o: Name) {
    || (kid.tmpl.Some? && Made(kid.tmpl.value, b, c, o))
    || exists p <- kid.pods :: Made(p.input, b, c, o)
  }

  predicate Made(input: Input, b: Bus, c: Name, o: Name) {
    input.names.On(b) == c && input.conf.On(b) != o
  }

  /** Every template in use in the child that was made for the name `c` was rendered without `o`. */
  predicate Fresh(kid: Kid, b: Bus, c: Name, o: Name) {
    && (kid.tmpl.Some? && kid.tmpl.value.names.On(b) == c ==> kid.tmpl.value.conf.On(b) != o)
    && forall p <- kid.pods :: p.input.names.On(b) == c ==> p.input.conf.On(b) != o
  }

  /** `c` is the published name and `o` the tracked one.  A pass over a spec that names `c` renders without
      `o`; so does whatever made a template that carries the mark of `c`; and a child that reports `c` at
      its current generation has nothing but such templates. */
  predicate Chain(kid: Kid, b: Bus, c: Name, o: Name) {
    && (kid.pass.Working? && kid.pass.spec.names.On(b) == c ==>
          && kid.Spec().names.On(b) == c
          && kid.pass.conf.On(b) != o
          && (kid.pass.pc.Hash? || kid.pass.pc.Deploy? || kid.pass.pc.Check? ==> kid.cfg.On(b) != o))
    && (Marked(kid, b, c, o) ==>
          && kid.cfg.On(b) != o
          && kid.Spec().names.On(b) == c
          && (kid.pass.Working? ==> kid.pass.spec.names.On(b) == c))
    && (forall p <- kid.pods :: Made(p.input, b, c, o) ==> p.loaded.On(b) != o)
    && (Reporting(kid) && kid.Spec().names.On(b) == c ==> Fresh(kid, b, c, o))
  }

  /** The child is Ready, or about to be, at its current generation. */
  predicate Reporting(kid: Kid) {
    && kid.log != []
    && ((kid.ready && kid.obs == kid.Gen()) || (kid.pass.Working? && kid.pass.ready && kid.pass.gen == kid.Gen()))
  }

  /** The child does not exist yet, or nothing in it asks for the name `c` or was made for it without `o`. */
  predicate Clear(kid: Kid, b: Bus, c: Name, o: Name) {
    kid.log == [] || (
      && kid.Spec().names.On(b) != c
      && (kid.pass.Working? ==> kid.pass.spec.names.On(b) != c)
      && !Marked(kid, b, c, o))
  }

  lemma ClearChains(kid: Kid, b: Bus, c: Name, o: Name)
    requires Coherent(kid) && Clear(kid, b, c, o)
    ensures Chain(kid, b, c, o)
  {
  }

  /** Spec, pass, Deployment and pods all carry the names `x`. */
  predicate Settled(kid: Kid, x: Names) {
    && kid.log != []
    && kid.Spec().names == x
    && Uniform(kid, x)
    && (kid.pass.Working? ==> kid.pass.spec.names == x)
  }

  lemma ReportsSettled(kid: Kid, x: Names)
    requires Coherent(kid) && kid.Reports(x)
    ensures Settled(kid, x) && Reporting(kid)
  {
  }

  lemma SettledIsFree(kid: Kid, b: Bus, x: Names, o: Name)
    requires Settled(kid, x) && Chain(kid, b, x.On(b), o) && Fresh(kid, b, x.On(b), o) && o != x.On(b)
    ensures Free(kid, b, o)
  {
    assert Made(kid.tmpl.value, b, x.On(b), o);
    assert Marked(kid, b, x.On(b), o);
    forall p | p in kid.pods ensures p.loaded.On(b) != o && p.input.conf.On(b) != o {
      assert Made(p.input, b, x.On(b), o);
    }
  }

  lemma KidEventSettled(s: Cluster, k: Kind, e: Event, x: Names)
    requires Enabled(s, e) && IsKidEvent(e) && e.k == k
    requires Settled(s.kids.At(k), x)
    ensures Settled(KidEvent(s, k, e), x)
  {
  }

  lemma PodUpFresh(kid: Kid, input: Input, b: Bus, c: Name, o: Name)
    requires kid.tmpl == Some(input) || exists p <- kid.pods :: p.input == input
    requires Fresh(kid, b, c, o)
    ensures Fresh(kid.(pods := kid.pods + {Pod(input, kid.cfg)}), b, c, o)
  {
  }

  lemma KidEventFresh(s: Cluster, k: Kind, e: Event, b: Bus, o: Name)
    requires Enabled(s, e) && IsKidEvent(e) && e.k == k
    requires Fresh(s.kids.At(k), b, s.cfg.On(b), o) && Chain(s.kids.At(k), b, s.cfg.On(b), o)
    ensures Fresh(KidEvent(s, k, e), b, s.cfg.On(b), o)
  {
    var kid := s.kids.At(k);
    match e
    case PodUp(_, input) => PodUpFresh(kid, input, b, s.cfg.On(b), o);
    case KidCalls(_, q) => assert KidStep(k, kid, s.cfg, q).pods == kid.pods;
    case KidStarts(_) =>
    case KidCrashes(_) =>
    case PodDown(_, _) =>
    case RollsOut(_) =>
  }

  lemma KidStepMarks(kind: Kind, kid: Kid, parentCfg: Names, q: Outcome, b: Bus, c: Name, o: Name)
    requires kid.pass.Working?
    ensures var kid' := KidStep(kind, kid, parentCfg, q);
      && kid'.log == kid.log && kid'.pods == kid.pods
      && (Marked(kid', b, c, o) ==>
            || Marked(kid, b, c, o)
            || (kid.pass.pc.Deploy? && kid'.cfg == kid.cfg && Made(KidInput(kid), b, c, o)))
  {
    var kid' := KidStep(kind, kid, parentCfg, q);
    assert kid'.tmpl == kid.tmpl || (kid.pass.pc.Deploy? && kid'.tmpl == Some(KidInput(kid)));
  }

  lemma PodUpMarks(kid: Kid, input: Input, b: Bus, c: Name, o: Name)
    requires kid.tmpl == Some(input) || exists p <- kid.pods :: p.input == input
    ensures Marked(kid.(pods := kid.pods + {Pod(input, kid.cfg)}), b, c, o) ==> Marked(kid, b, c, o)
    ensures Made(input, b, c, o) ==> Marked(kid, b, c, o)
  {
  }

  lemma KidEventClear(s: Cluster, k: Kind, e: Event, b: Bus, c: Name, o: Name)
    requires Enabled(s, e) && IsKidEvent(e) && e.k == k
    requires Coherent(s.kids.At(k)) && Clear(s.kids.At(k), b, c, o)
    ensures Clear(KidEvent(s, k, e), b, c, o)
  {
    var kid, kid' := s.kids.At(k), KidEvent(s, k, e);
    match e
    case PodUp(_, input) => PodUpMarks(kid, input, b, c, o);
    case KidCalls(_, q) => KidStepMarks(k, kid, s.cfg, q, b, c, o);
    case KidStarts(_) => assert Marked(kid', b, c, o) == Marked(kid, b, c, o);
    case KidCrashes(_) => assert Marked(kid', b, c, o) == Marked(kid, b, c, o);
    case PodDown(_, _) => assert Marked(kid', b, c, o) ==> Marked(kid, b, c, o);
    case RollsOut(_) => assert Marked(kid', b, c, o) ==> Marked(kid, b, c, o);
  }

  lemma KidDeployChain(kind: Kind, kid: Kid, parentCfg: Names, q: Outcome, b: Bus, o: Name)
    requires kid.pass.Working? && kid.pass.pc.Deploy? && o != NoName && parentCfg.On(b) != o
    requires Coherent(kid) && Chain(kid, b, parentCfg.On(b), o)
    ensures Chain(KidStep(kind, kid, parentCfg, q), b, parentCfg.On(b), o)
  {
    KidStepMarks(kind, kid, parentCfg, q, b, parentCfg.On(b), o);
  }

  lemma KidCheckChain(kind: Kind, kid: Kid, parentCfg: Names, q: Outcome, b: Bus, o: Name)
    requires kid.pass.Working? && kid.pass.pc.Check? && o != NoName && parentCfg.On(b) != o
    requires Coherent(kid) && Chain(kid, b, parentCfg.On(b), o)
    ensures Chain(KidStep(kind, kid, parentCfg, q), b, parentCfg.On(b), o)
  {
    KidStepMarks(kind, kid, parentCfg, q, b, parentCfg.On(b), o);
  }

  lemma KidStoreChain(kind: Kind, kid: Kid, parentCfg: Names, q: Outcome, b: Bus, o: Name)
    requires kid.pass.Working? && kid.pass.pc.Store? && o != NoName && parentCfg.On(b) != o
    requires Coherent(kid) && Chain(kid, b, parentCfg.On(b), o)
    ensures Chain(KidStep(kind, kid, parentCfg, q), b, parentCfg.On(b), o)
  {
    KidStepMarks(kind, kid, parentCfg, q, b, parentCfg.On(b), o);
  }

  lemma KidEarlyChain(kind: Kind, kid: Kid, parentCfg: Names, q: Outcome, b: Bus, o: Name)
    requires kid.pass.Working? && (kid.pass.pc.Read? || kid.pass.pc.Write? || kid.pass.pc.Hash?)
    requires o != NoName && parentCfg.On(b) != o
    requires Coherent(kid) && Chain(kid, b, parentCfg.On(b), o)
    ensures Chain(KidStep(kind, kid, parentCfg, q), b, parentCfg.On(b), o)
  {
    KidStepMarks(kind, kid, parentCfg, q, b, parentCfg.On(b), o);
  }

  lemma KidStepChain(kind: Kind, kid: Kid, parentCfg: Names, q: Outcome, b: Bus, o: Name)
    requires kid.pass.Working? && o != NoName && parentCfg.On(b) != o
    requires Coherent(kid) && Chain(kid, b, parentCfg.On(b), o)
    ensures Chain(KidStep(kind, kid, parentCfg, q), b, parentCfg.On(b), o)
  {
    if kid.pass.pc.Deploy? {
      KidDeployChain(kind, kid, parentCfg, q, b, o);
    } else if kid.pass.pc.Check? {
      KidCheckChain(kind, kid, parentCfg, q, b, o);
    } else if kid.pass.pc.Store? {
      KidStoreChain(kind, kid, parentCfg, q, b, o);
    } else {
      KidEarlyChain(kind, kid, parentCfg, q, b, o);
    }
  }

  lemma PodUpChain(kid: Kid, input: Input, b: Bus, c: Name, o: Name)
    requires kid.tmpl == Some(input) || exists p <- kid.pods :: p.input == input
    requires Chain(kid, b, c, o)
    ensures Chain(kid.(pods := kid.pods + {Pod(input, kid.cfg)}), b, c, o)
  {
    PodUpMarks(kid, input, b, c, o);
    if Fresh(kid, b, c, o) {
      PodUpFresh(kid, input, b, c, o);
    }
  }

  lemma KidEventChain(s: Cluster, k: Kind, e: Event, b: Bus, o: Name)
    requires Enabled(s, e) && IsKidEvent(e) && e.k == k
    requires Coherent(s.kids.At(k))
    requires o != NoName && s.cfg.On(b) != o
    requires Chain(s.kids.At(k), b, s.cfg.On(b), o)
    ensures Chain(KidEvent(s, k, e), b, s.cfg.On(b), o)
  {
    var kid, kid', c := s.kids.At(k), KidEvent(s, k, e), s.cfg.On(b);
    match e
    case PodUp(_, input) => PodUpChain(kid, input, b, c, o);
    case KidCalls(_, q) => KidStepChain(k, kid, s.cfg, q, b, o);
    case KidStarts(_) => assert Marked(kid', b, c, o) ==> Marked(kid, b, c, o);
    case KidCrashes(_) => assert Marked(kid', b, c, o) ==> Marked(kid, b, c, o);
    case PodDown(_, _) => assert Marked(kid', b, c, o) ==> Marked(kid, b, c, o);
    case RollsOut(_) => assert Marked(kid', b, c, o) ==> Marked(kid, b, c, o);
  }
}
