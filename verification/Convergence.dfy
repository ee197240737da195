/** Convergence: once the environment is quiet and calls stop failing, a natural number never rises under
    any interleaving of the four controllers and the rollouts, some step lowers it as long as it is
    positive, and at zero the rotation is complete. */
module Convergence {
  import opened Cluster
  import opened Coherence
  import opened KidConvergence

  /** A step of a controller whose call succeeds, or a step of a Deployment. */
  predicate Calm(e: Event) {
    match e
    case ParentStarts => true
    case ParentCalls(o) => o.Done?
    case KidStarts(_) => true
    case KidCalls(_, o) => o.Done?
    case PodUp(_, _) => true
    case PodDown(_, _) => true
    case RollsOut(_) => true
    case _ => false
  }

  /** The names that everything has to reach. */
  function Target(s: Cluster): Names {
    Names(s.url.m, if s.spec.notify then s.url.n else NoName)
  }

  function TargetSpec(s: Cluster): KidSpec { KidSpec(s.spec.tpl, Target(s)) }

  /** What a pass that started in the quiet period has read and written before the child specs. */
  predicate PassReads(s: Cluster)
    requires s.parent.Running?
  {
    var p := s.parent;
    var at := Order(p.pc);
    && p.spec == s.spec
    && (p.pc.UrlN? || p.pc.HoldN? ==> p.spec.notify)
    && (at >= Order(HoldM) ==> p.cur.m == s.url.m)
    && (if p.spec.notify then at >= Order(HoldN) ==> p.cur.n == s.url.n else p.cur.n == NoName)
    && (at > Order(Config) ==> s.cfg == Target(s))
  }

  predicate Published(s: Cluster, k: Kind) {
    s.kids.At(k).log != [] && s.kids.At(k).Spec() == TargetSpec(s)
  }

  /** It has written the child specs that it has passed. */
  predicate PassPushes(s: Cluster)
    requires s.parent.Running?
  {
    forall k: Kind :: Order(s.parent.pc) > Order(Child(k)) ==> Published(s, k)
  }

  /** What it has finalized and pruned. */
  predicate PassEnds(s: Cluster)
    requires s.parent.Running?
  {
    var p := s.parent;
    var at := Order(p.pc);
    && (p.pc.DropURL? ==> p.Guard() && !p.spec.notify)
    && (at > Order(FinM) && p.Guard() ==> p.st.tracked.m == s.url.m)
    && (at > Order(DropURL) && p.Guard() ==> p.st.tracked.n == Target(s).n)
    && (at > Order(FinAC) && p.Guard() ==> p.st.ac == s.spec.ac)
    && (at > Order(PruneT) ==> s.held <= Keep(p))
    && (at > Order(PruneAC) ==> s.acHeld <= {p.st.ac, s.spec.ac})
  }

  /** The finalizers that it has added are still there. */
  predicate PassHolds(s: Cluster)
    requires s.parent.Running?
  {
    var at := Order(s.parent.pc);
    && (at > Order(HoldM) ==> s.url.m in s.held)
    && (s.spec.notify && at > Order(HoldN) ==> s.url.n in s.held)
    && (at > Order(HoldAC) ==> s.spec.ac == "" || s.spec.ac in s.acHeld)
  }

  /** The parent's pass, if one is running, started in the quiet period. */
  predicate CalmPass(s: Cluster) {
    s.parent.Running? ==> PassReads(s) && PassHolds(s) && PassPushes(s) && PassEnds(s)
  }

  /** The environment has provided what the spec needs. */
  predicate Provided(s: Cluster) {
    && s.url.m != NoName
    && (s.spec.notify ==> s.notifyURL && s.url.n != NoName)
    && s.spec.tpl in s.migrated && (s.spec.tpl.pkcs11 ==> s.spec.tpl in s.prepared)
  }

  predicate Quiet(s: Cluster) {
    Provided(s) && AllCoherent(s) && CalmPass(s)
  }

  // ---------------------------------------------------------------- the measure

  /** The parent has written the target into its config Secret and into the three child specs. */
  predicate AllPublished(s: Cluster) {
    s.cfg == Target(s) && forall k: Kind :: Published(s, k)
  }

  /** Everything that is current holds its finalizer. */
  predicate CurrentHeld(s: Cluster) {
    && Target(s).m in s.held
    && (Target(s).n == NoName || Target(s).n in s.held)
    && (s.spec.ac == "" || s.spec.ac in s.acHeld)
  }

  /** The rotation is complete: the current names are tracked, all current secrets are held and no others. */
  predicate Settled(s: Cluster) {
    && CurrentHeld(s)
    && s.st.tracked == Target(s) && s.st.ac == s.spec.ac
    && s.held <= {Target(s).m, Target(s).n}
    && s.acHeld <= {s.spec.ac}
    && (s.parent.Running? ==> s.parent.st.tracked == Target(s) && s.parent.st.ac == s.spec.ac)
  }

  predicate AllStable(s: Cluster) {
    forall k: Kind :: Stable(s.kids.At(k), Target(s))
  }

  predicate AllReport(s: Cluster) {
    forall k: Kind :: s.kids.At(k).Reports(Target(s))
  }

  predicate Converged(s: Cluster) {
    AllPublished(s) && AllStable(s) && Settled(s)
  }

  function KidsLeft(s: Cluster): nat {
    Distance(API, s.kids.api, Target(s)) + Distance(Worker, s.kids.worker, Target(s))
    + Distance(Listener, s.kids.listener, Target(s))
  }

  /** All children that the pass has read so far were found ready. */
  predicate OnTrack(p: Pass)
    requires p.Running?
  {
    forall k: Kind :: Order(p.pc) > Order(Child(k)) ==> p.ok.At(k)
  }

  function CallsLeft(p: Pass): nat {
    if p.Idle? then 21 else 20 - Order(p.pc)
  }

  function ParentLeft(s: Cluster): nat {
    if s.parent.Running? && !OnTrack(s.parent) then CallsLeft(s.parent) + 21 else CallsLeft(s.parent)
  }

  function Measure(s: Cluster): nat {
    if !AllPublished(s) then 250 + CallsLeft(s.parent)
    else if !AllStable(s) then 50 + KidsLeft(s)
    else if !Settled(s) then ParentLeft(s)
    else 0
  }

  lemma MeasureZero(s: Cluster)
    ensures Measure(s) == 0 <==> Converged(s)
  {
  }

  lemma StableIsNear(s: Cluster)
    ensures AllStable(s) ==> KidsLeft(s) == 0
    ensures AllPublished(s) && !AllStable(s) ==> KidsLeft(s) > 0
    ensures KidsLeft(s) <= 198
  {
    assert s.kids.At(API) == s.kids.api && s.kids.At(Worker) == s.kids.worker && s.kids.At(Listener) == s.kids.listener;
    if !AllStable(s) {
      var k: Kind :| !Stable(s.kids.At(k), Target(s));
    }
  }

  // ---------------------------------------------------------------- the children

  lemma NewKidKeepsQuiet(s: Cluster, k: Kind, kid': Kid)
    requires Quiet(s) && kid'.log == s.kids.At(k).log && Coherent(kid')
    ensures Quiet(s.(kids := s.kids.With(k, kid')))
    ensures AllPublished(s.(kids := s.kids.With(k, kid'))) == AllPublished(s)
  {
    var t := s.(kids := s.kids.With(k, kid'));
    assert Target(t) == Target(s);
    forall j: Kind ensures t.kids.At(j).log == s.kids.At(j).log && Coherent(t.kids.At(j)) &&
      Published(t, j) == Published(s, j) {
    }
  }

  /** Replacing one child by one that is no further away does not raise the measure. */
  lemma NearerKid(s: Cluster, k: Kind, kid': Kid)
    requires Quiet(s) && kid'.log == s.kids.At(k).log && Coherent(kid')
    requires Distance(k, kid', Target(s)) <= Distance(k, s.kids.At(k), Target(s))
    ensures var t := s.(kids := s.kids.With(k, kid'));
      && Quiet(t)
      && Measure(t) <= Measure(s)
      && (AllPublished(s) && Distance(k, kid', Target(s)) < Distance(k, s.kids.At(k), Target(s)) ==>
        Measure(t) < Measure(s))
  {
    var t := s.(kids := s.kids.With(k, kid'));
    NewKidKeepsQuiet(s, k, kid');
    assert Target(t) == Target(s) && Settled(t) == Settled(s) && ParentLeft(t) == ParentLeft(s);
    assert KidsLeft(t) + Distance(k, s.kids.At(k), Target(s)) == KidsLeft(s) + Distance(k, kid', Target(s));
    StableIsNear(s);
    StableIsNear(t);
    assert ParentLeft(t) <= 42;
  }

  /** No step of a child, its pods or its Deployment takes it further away. */
  lemma KidEventApproaches(s: Cluster, k: Kind, e: Event, x: Names)
    requires Enabled(s, e) && Calm(e) && !e.ParentStarts? && !e.ParentCalls? && e.k == k
    requires Ready(s.kids.At(k), x) && s.cfg == x
    ensures Distance(k, KidEvent(s, k, e), x) <= Distance(k, s.kids.At(k), x)
    ensures e.KidStarts? || e.KidCalls? ==> Closer(k, s.kids.At(k), KidEvent(s, k, e), x)
    ensures e.RollsOut? && Waiting(s.kids.At(k), x) ==> Distance(k, KidEvent(s, k, e), x) < Distance(k, s.kids.At(k), x)
  {
    var kid := s.kids.At(k);
    match e
    case KidStarts(_) => StartApproaches(k, kid, x);
    case KidCalls(_, _) => CallApproaches(k, kid, x);
    case RollsOut(_) => RolloutApproaches(k, kid, x);
    case PodUp(_, _) => PodsKeepDistance(k, kid, x, kid.pods + {Pod(e.input, kid.cfg)});
    case PodDown(_, _) => PodsKeepDistance(k, kid, x, kid.pods - {e.pod});
  }

  lemma KidEventKeepsLog(s: Cluster, k: Kind, e: Event)
    requires Enabled(s, e) && Calm(e) && !e.ParentStarts? && !e.ParentCalls? && e.k == k
    ensures KidEvent(s, k, e).log == s.kids.At(k).log
    ensures Apply(s, e) == s.(kids := s.kids.With(k, KidEvent(s, k, e)))
  {
  }

  lemma CalmKidEvent(s: Cluster, k: Kind, e: Event)
    requires Quiet(s) && Enabled(s, e) && Calm(e) && !e.ParentStarts? && !e.ParentCalls? && e.k == k
    ensures Quiet(Apply(s, e))
    ensures Measure(Apply(s, e)) <= Measure(s)
    ensures AllPublished(s) && Distance(k, KidEvent(s, k, e), Target(s)) < Distance(k, s.kids.At(k), Target(s))
      ==> Measure(Apply(s, e)) < Measure(s)
  {
    var kid, kid' := s.kids.At(k), KidEvent(s, k, e);
    assert Coherent(kid);
    KidEventCoherent(s, k, e);
    KidEventKeepsLog(s, k, e);
    if AllPublished(s) {
      assert Published(s, k);
      KidEventApproaches(s, k, e, Target(s));
      NearerKid(s, k, kid');
    } else {
      NewKidKeepsQuiet(s, k, kid');
    }
  }

  // ---------------------------------------------------------------- the parent

  lemma CalmStart(s: Cluster)
    requires Quiet(s) && s.parent.Idle?
    ensures var t := Apply(s, ParentStarts);
      Quiet(t) && Measure(t) <= Measure(s)
      && (Measure(s) > 0 && (!AllPublished(s) || AllStable(s)) ==> Measure(t) < Measure(s))
  {
    var t := Apply(s, ParentStarts);
    assert t.kids == s.kids && t.cfg == s.cfg && Target(t) == Target(s);
    assert AllCoherent(t) && CalmPass(t);
    assert forall k: Kind :: Published(t, k) == Published(s, k);
    assert forall k: Kind :: Stable(t.kids.At(k), Target(t)) == Stable(s.kids.At(k), Target(s));
    assert AllPublished(t) == AllPublished(s) && AllStable(t) == AllStable(s) && KidsLeft(t) == KidsLeft(s);
    assert Settled(t) == Settled(s);
    assert OnTrack(t.parent);
  }

  function Called(s: Cluster): Cluster
    requires s.parent.Running?
  {
    Apply(s, ParentCalls(Done))
  }

  /** A call of a calm pass leaves the target alone. */
  lemma CallKeepsTarget(s: Cluster)
    requires Provided(s) && s.parent.Running? && (s.parent.pc.DropURL? ==> !s.spec.notify)
    ensures var t := Called(s);
      && t.spec == s.spec && Target(t) == Target(s) && t.url.m == s.url.m
      && Provided(t)
  {
  }

  lemma CallHolds(s: Cluster)
    requires Provided(s) && s.parent.Running? && PassReads(s) && PassHolds(s) && Called(s).parent.Running?
    requires Order(s.parent.pc) <= Order(Child(Listener)) && Order(Called(s).parent.pc) <= Order(FinM)
    ensures PassHolds(Called(s))
  {
  }

  lemma ReleaseHolds(s: Cluster)
    requires s.parent.Running? && PassReads(s) && PassHolds(s) && s.url.m != NoName
    requires s.parent.pc.FinM? || s.parent.pc.FinN? || s.parent.pc.FinAC? || s.parent.pc.DropURL?
    requires s.parent.pc.DropURL? ==> !s.spec.notify
    ensures Called(s).parent.Running? && PassHolds(Called(s))
  {
  }

  lemma PruneHolds(s: Cluster)
    requires s.parent.Running? && PassReads(s) && PassHolds(s) && s.url.m != NoName
    requires s.parent.pc.PruneT? || s.parent.pc.PruneAC?
    ensures Called(s).parent.Running? && PassHolds(Called(s))
  {
  }

  lemma EarlyCallReads(s: Cluster)
    requires Provided(s) && CalmPass(s) && s.parent.Running? && Order(s.parent.pc) <= Order(Config)
    ensures var t := Called(s);
      && t.parent.Running? && Order(s.parent.pc) < Order(t.parent.pc) <= Order(HoldAC)
      && PassReads(t) && t.kids == s.kids
      && (s.cfg == Target(s) ==> t.cfg == Target(s))
  {
    assert s.parent.pc.Config? ==> s.parent.cur == Target(s);
  }

  lemma JobCallReads(s: Cluster)
    requires Provided(s) && CalmPass(s) && s.parent.Running? && Order(HoldAC) <= Order(s.parent.pc) <= Order(Prep)
    ensures var t := Called(s);
      && t.parent.Running? && Order(s.parent.pc) < Order(t.parent.pc) <= Order(Child(API))
      && PassReads(t) && t.kids == s.kids && t.cfg == s.cfg
  {
  }

  lemma EarlyPassIsCalm(t: Cluster)
    requires t.parent.Running? && Order(t.parent.pc) <= Order(Child(API)) && PassReads(t) && PassHolds(t)
    ensures CalmPass(t)
  {
  }

  lemma EarlyCallHolds(s: Cluster)
    requires Provided(s) && s.parent.Running? && PassReads(s) && PassHolds(s)
    requires Called(s).parent.Running? && Order(Called(s).parent.pc) <= Order(Child(API)) && PassReads(Called(s))
    requires Order(s.parent.pc) <= Order(Prep)
    ensures CalmPass(Called(s))
  {
    CallHolds(s);
    EarlyPassIsCalm(Called(s));
  }

  lemma EarlyCallKeepsPass(s: Cluster)
    requires Provided(s) && CalmPass(s) && s.parent.Running? && Order(s.parent.pc) <= Order(Prep)
    ensures CalmPass(Called(s)) && Called(s).kids == s.kids
    ensures Called(s).parent.Running? && Order(s.parent.pc) < Order(Called(s).parent.pc) <= Order(Child(API))
    ensures s.cfg == Target(s) ==> Called(s).cfg == Target(s)
  {
    if Order(s.parent.pc) <= Order(Config) {
      EarlyCallReads(s);
    } else {
      JobCallReads(s);
    }
    EarlyCallHolds(s);
  }

  lemma PushReads(s: Cluster)
    requires s.parent.Running? && PassReads(s) && (s.parent.pc.Child? || s.parent.pc.Accounts?)
    ensures var t := Called(s);
      && t.cfg == s.cfg && t.url == s.url && t.spec == s.spec
      && t.parent.Running? && Order(s.parent.pc) < Order(t.parent.pc) <= Order(FinM)
      && PassReads(t) && s.parent.cur == Target(s)
  {
  }

  lemma PushEnds(s: Cluster)
    requires s.parent.Running? && (s.parent.pc.Child? || s.parent.pc.Accounts?)
    ensures Called(s).parent.Running? && PassEnds(Called(s))
  {
    assert Order(Called(s).parent.pc) <= Order(FinM);
  }

  lemma PushOrder(s: Cluster, k: Kind)
    requires s.parent.Running? && (s.parent.pc.Child? || s.parent.pc.Accounts?)
    ensures Called(s).parent.Running?
    ensures Order(Called(s).parent.pc) > Order(Child(k)) ==>
      Order(s.parent.pc) > Order(Child(k)) || s.parent.pc == Child(k)
  {
  }

  lemma PushPublishes(s: Cluster)
    requires Provided(s) && CalmPass(s) && s.parent.Running? && (s.parent.pc.Child? || s.parent.pc.Accounts?)
    requires s.parent.cur == Target(s)
    ensures forall k: Kind :: Published(s, k) ==> Called(s).kids.At(k) == s.kids.At(k)
    ensures forall k: Kind :: s.parent.pc == Child(k) || Published(s, k) ==> Published(Called(s), k)
    ensures AllPublished(s) ==> Called(s).kids == s.kids
  {
    var p := s.parent;
    if p.pc.Child? {
      var k := p.pc.kind;
      assert Called(s).kids == s.kids.With(k, s.kids.At(k).Push(TargetSpec(s)));
      assert Published(s, k) ==> s.kids.At(k).Push(TargetSpec(s)) == s.kids.At(k);
    }
  }

  lemma PushKeepsPass(s: Cluster)
    requires Provided(s) && CalmPass(s) && s.parent.Running? && (s.parent.pc.Child? || s.parent.pc.Accounts?)
    ensures var t := Called(s);
      && CalmPass(t) && t.cfg == s.cfg
      && t.parent.Running? && Order(t.parent.pc) > Order(s.parent.pc)
      && (AllPublished(s) ==> t.kids == s.kids)
  {
    PushReads(s);
    PushEnds(s);
    PushPublishes(s);
    CallHolds(s);
    var t := Called(s);
    forall k: Kind | Order(t.parent.pc) > Order(Child(k)) ensures Published(t, k) {
      PushOrder(s, k);
    }
  }

  lemma AllPushed(s: Cluster)
    requires Provided(s) && CalmPass(s) && s.parent.Running? && Order(s.parent.pc) >= Order(FinM)
    ensures AllPublished(s) && s.parent.cur == Target(s)
  {
    forall k: Kind ensures Published(s, k) {
      assert Order(s.parent.pc) > Order(Child(k));
    }
  }

  predicate LateStep(s: Cluster, t: Cluster)
    requires s.parent.Running?
  {
    && t.cfg == s.cfg && t.kids == s.kids
    && (if s.parent.pc.Patch? then t.parent.Idle?
        else t.parent.Running? && Order(t.parent.pc) > Order(s.parent.pc) && PassReads(t) && PassEnds(t))
  }

  lemma FinalizeStep(s: Cluster, t: Cluster, tracked: Names)
    requires s.parent.Running? && s.parent.pc.FinM? && PassReads(s) && PassEnds(s)
    requires t == s.(held := t.held, parent := s.parent.(pc := FinN, st := s.parent.st.(tracked := tracked)))
    requires s.parent.Guard() ==> tracked.m == s.url.m
    ensures LateStep(s, t)
  {
  }

  lemma FinalizedName(s: Cluster)
    requires s.parent.Running? && s.parent.pc.FinM? && PassReads(s)
    ensures var t, p := Called(s), s.parent;
      && t.parent.Running?
      && t == s.(held := t.held, parent := p.(pc := FinN, st := p.st.(tracked := t.parent.st.tracked)))
      && (p.Guard() ==> t.parent.st.tracked.m == s.url.m)
  {
  }

  lemma DropStep(s: Cluster)
    requires Provided(s) && s.parent.Running? && PassReads(s) && PassEnds(s)
    requires s.parent.pc.DropURL?
    ensures LateStep(s, Called(s))
  {
  }

  lemma FinalizeNotificationsStep(s: Cluster)
    requires Provided(s) && s.parent.Running? && PassReads(s) && PassEnds(s)
    requires s.parent.pc.FinN? && s.spec.notify
    ensures LateStep(s, Called(s))
  {
  }

  lemma SkipNotificationsStep(s: Cluster)
    requires s.parent.Running? && PassReads(s) && PassEnds(s) && s.parent.pc.FinN? && !s.spec.notify
    ensures LateStep(s, Called(s))
  {
  }

  lemma CredentialStep(s: Cluster)
    requires s.parent.Running? && PassReads(s) && PassEnds(s) && s.parent.pc.FinAC?
    ensures LateStep(s, Called(s))
  {
  }

  lemma PruneStep(s: Cluster)
    requires s.parent.Running? && PassReads(s) && PassEnds(s) && s.parent.pc.PruneT?
    ensures LateStep(s, Called(s))
  {
  }

  lemma LastStep(s: Cluster)
    requires s.parent.Running? && PassReads(s) && PassEnds(s) && (s.parent.pc.PruneAC? || s.parent.pc.Patch?)
    ensures LateStep(s, Called(s))
  {
    assert s.parent.pc.PruneAC? ==> Called(s).parent == s.parent.(pc := Patch);
  }

  lemma LateCallKeepsPass(s: Cluster)
    requires Provided(s) && CalmPass(s) && s.parent.Running? && Order(s.parent.pc) >= Order(FinM)
    ensures var t := Called(s);
      && CalmPass(t) && t.cfg == s.cfg && t.kids == s.kids
      && AllPublished(s)
      && (if s.parent.pc.Patch? then t.parent.Idle? else t.parent.Running? && Order(t.parent.pc) > Order(s.parent.pc))
  {
    AllPushed(s);
    CallKeepsTarget(s);
    var pc, t := s.parent.pc, Called(s);
    if pc.FinM? || pc.FinN? || pc.FinAC? || pc.DropURL? {
      ReleaseHolds(s);
    } else if !pc.Patch? {
      PruneHolds(s);
    }
    if pc.FinM? {
      FinalizedName(s);
      FinalizeStep(s, t, t.parent.st.tracked);
    } else if pc.DropURL? {
      DropStep(s);
    } else if pc.FinN? && s.spec.notify {
      FinalizeNotificationsStep(s);
    } else if pc.FinN? {
      SkipNotificationsStep(s);
    } else if pc.FinAC? {
      CredentialStep(s);
    } else if pc.PruneT? {
      PruneStep(s);
    } else {
      LastStep(s);
    }
    forall k: Kind ensures Published(t, k) {
      assert Published(s, k);
    }
  }

  lemma CallKeepsPass(s: Cluster)
    requires Provided(s) && CalmPass(s) && s.parent.Running?
    ensures CalmPass(Called(s))
    ensures CallsLeft(Called(s).parent) < CallsLeft(s.parent) || AllPublished(s)
    ensures AllPublished(s) ==> AllPublished(Called(s)) && Called(s).kids == s.kids
  {
    if Order(s.parent.pc) <= Order(Prep) {
      EarlyCallKeepsPass(s);
    } else if Order(s.parent.pc) <= Order(Child(Listener)) {
      PushKeepsPass(s);
    } else {
      LateCallKeepsPass(s);
    }
    CallKeepsPublished(s);
  }

  lemma CallKeepsPublished(s: Cluster)
    requires Provided(s) && CalmPass(s) && s.parent.Running?
    requires AllPublished(s) ==> Called(s).kids == s.kids && Called(s).cfg == s.cfg
    ensures AllPublished(s) ==> AllPublished(Called(s))
  {
    CallKeepsTarget(s);
    if AllPublished(s) {
      forall k: Kind ensures Published(Called(s), k) {
        assert Published(s, k);
      }
    }
  }

  lemma CallKeepsQuiet(s: Cluster)
    requires Quiet(s) && s.parent.Running?
    ensures Quiet(Called(s))
    ensures CallsLeft(Called(s).parent) < CallsLeft(s.parent) || AllPublished(s)
    ensures AllPublished(s) ==> AllPublished(Called(s)) && Called(s).kids == s.kids
  {
    ApplyCoherent(s, ParentCalls(Done));
    CallKeepsTarget(s);
    CallKeepsPass(s);
  }

  /** Complete stays complete. */
  lemma CallKeepsSettled(s: Cluster)
    requires Provided(s) && s.parent.Running? && PassReads(s) && PassEnds(s) && Settled(s)
    ensures Settled(Called(s))
  {
    CallKeepsTarget(s);
    if Order(s.parent.pc) <= Order(HoldN) {
      ReadKeepsSettled(s);
    } else if Order(s.parent.pc) <= Order(HoldAC) {
      EarlyKeepsSettled(s);
    } else if s.parent.pc.FinM? || s.parent.pc.FinN? || s.parent.pc.DropURL? || s.parent.pc.FinAC? {
      FinalizeKeepsSettled(s);
    } else {
      OtherKeepsSettled(s);
    }
  }

  lemma EarlyKeepsSettled(s: Cluster)
    requires s.parent.Running? && PassReads(s) && Settled(s) && Target(Called(s)) == Target(s)
    requires s.parent.pc.Inputs? || s.parent.pc.Config? || s.parent.pc.HoldAC?
    ensures Settled(Called(s))
  {
  }

  lemma ReadKeepsSettled(s: Cluster)
    requires Provided(s) && s.parent.Running? && PassReads(s) && Settled(s)
    requires Order(s.parent.pc) <= Order(HoldN) && Target(Called(s)) == Target(s)
    ensures Settled(Called(s))
  {
  }

  lemma FinalizeKeepsSettled(s: Cluster)
    requires s.parent.Running? && PassReads(s) && PassEnds(s) && Settled(s)
    requires s.parent.pc.FinM? || s.parent.pc.FinN? || s.parent.pc.DropURL? || s.parent.pc.FinAC?
    requires Target(Called(s)) == Target(s)
    ensures Settled(Called(s))
  {
    assert s.parent.cur == Target(s);
  }

  lemma OtherKeepsSettled(s: Cluster)
    requires s.parent.Running? && Settled(s) && Order(s.parent.pc) > Order(HoldAC) && Target(Called(s)) == Target(s)
    requires s.parent.pc.DbSync? || s.parent.pc.Prep? || s.parent.pc.Child? || s.parent.pc.Accounts?
      || s.parent.pc.PruneT? || s.parent.pc.PruneAC? || s.parent.pc.Patch?
    ensures Settled(Called(s))
  {
  }

  lemma PatchedAs(s: Cluster)
    requires s.parent.Running? && s.parent.pc.Patch?
    ensures Called(s) == s.(st := s.parent.st, parent := Idle)
  {
  }

  lemma HoldsCurrent(s: Cluster)
    requires s.parent.Running? && PassHolds(s) && s.parent.pc.Patch?
    ensures CurrentHeld(s)
  {
  }

  lemma LastCallSettles(s: Cluster)
    requires Provided(s) && s.parent.Running? && PassReads(s) && PassHolds(s) && PassEnds(s)
    requires s.parent.pc.Patch? && s.parent.Guard()
    ensures Settled(Called(s))
  {
    PatchedAs(s);
    HoldsCurrent(s);
    assert s.parent.cur == Target(s) && s.parent.st.tracked == Target(s);
  }

  lemma CallMovesOn(s: Cluster)
    requires Provided(s) && CalmPass(s) && s.parent.Running? && !s.parent.pc.Patch?
    ensures Called(s).parent.Running? && Order(Called(s).parent.pc) > Order(s.parent.pc)
  {
    if Order(s.parent.pc) <= Order(Prep) {
      EarlyCallKeepsPass(s);
    } else if Order(s.parent.pc) <= Order(Child(Listener)) {
      PushKeepsPass(s);
    } else {
      LateCallKeepsPass(s);
    }
  }

  lemma ReadKeepsTrack(s: Cluster)
    requires s.parent.Running? && s.parent.pc.Child? && OnTrack(s.parent)
    requires s.parent.cur == Target(s) && s.parent.spec == s.spec
    requires Published(s, s.parent.pc.kind) && s.kids.At(s.parent.pc.kind).Reports(Target(s))
    ensures Called(s).parent.Running? && OnTrack(Called(s).parent)
  {
    var p, q := s.parent, Called(s).parent;
    assert q.ok == p.ok.With(p.pc.kind, true);
    forall k: Kind | Order(q.pc) > Order(Child(k)) ensures q.ok.At(k) {
      PushOrder(s, k);
    }
  }

  lemma OtherKeepsTrack(s: Cluster)
    requires s.parent.Running? && !s.parent.pc.Child? && OnTrack(s.parent) && Called(s).parent.Running?
    requires !Called(s).parent.pc.Patch? || s.parent.pc.PruneAC?
    ensures OnTrack(Called(s).parent)
  {
    var p, q := s.parent, Called(s).parent;
    assert q.ok == p.ok;
    forall k: Kind ensures Order(q.pc) > Order(Child(k)) ==> Order(p.pc) > Order(Child(k)) {
    }
  }

  lemma CallKeepsTrack(s: Cluster)
    requires Provided(s) && CalmPass(s) && s.parent.Running? && !s.parent.pc.Patch? && AllPublished(s) && AllReport(s)
    requires OnTrack(s.parent) && Called(s).parent.Running?
    ensures OnTrack(Called(s).parent)
  {
    if s.parent.pc.Child? {
      assert Published(s, s.parent.pc.kind) && s.kids.At(s.parent.pc.kind).Reports(Target(s));
      PushReads(s);
      ReadKeepsTrack(s);
    } else {
      assert Provided(s) && PassReads(s);
      OtherKeepsTrack(s);
    }
  }

  /** With all children reporting, a pass that found them so completes the rotation, and any other pass
      is followed by one that does. */
  lemma CallNearsTheEnd(s: Cluster)
    requires Provided(s) && CalmPass(s) && s.parent.Running? && AllPublished(s) && AllStable(s) && !Settled(s)
    ensures Settled(Called(s)) || ParentLeft(Called(s)) < ParentLeft(s)
  {
    if s.parent.pc.Patch? {
      if OnTrack(s.parent) {
        assert Order(Patch) > Order(Child(API)) && Order(Patch) > Order(Child(Worker)) &&
          Order(Patch) > Order(Child(Listener));
        assert s.parent.ok.At(API) && s.parent.ok.At(Worker) && s.parent.ok.At(Listener);
        LastCallSettles(s);
      } else {
        LateCallKeepsPass(s);
      }
    } else {
      CallMovesOn(s);
      if OnTrack(s.parent) {
        assert forall k: Kind :: Stable(s.kids.At(k), Target(s)) ==> s.kids.At(k).Reports(Target(s));
        CallKeepsTrack(s);
      }
    }
  }

  lemma CalmCall(s: Cluster)
    requires Quiet(s) && s.parent.Running?
    ensures var t := Called(s);
      Quiet(t) && Measure(t) <= Measure(s)
      && (Measure(s) > 0 && (!AllPublished(s) || AllStable(s)) ==> Measure(t) < Measure(s))
  {
    var t := Called(s);
    CallKeepsQuiet(s);
    CallKeepsTarget(s);
    StableIsNear(s);
    StableIsNear(t);
    if !AllPublished(s) {
      assert ParentLeft(t) <= 42;
    } else {
      assert AllStable(t) == AllStable(s) && KidsLeft(t) == KidsLeft(s);
      if Settled(s) {
        CallKeepsSettled(s);
      } else if AllStable(s) {
        CallNearsTheEnd(s);
      }
    }
  }

  // ---------------------------------------------------------------- convergence

  /** No interleaving of the controllers and the rollouts takes the cluster away from convergence. */
  lemma NeverRises(s: Cluster, e: Event)
    requires Quiet(s) && Enabled(s, e) && Calm(e)
    ensures Quiet(Apply(s, e)) && Measure(Apply(s, e)) <= Measure(s)
    ensures (e.ParentStarts? || e.ParentCalls?) && Measure(s) > 0 && (!AllPublished(s) || AllStable(s))
      ==> Measure(Apply(s, e)) < Measure(s)
  {
    if e.ParentStarts? {
      CalmStart(s);
    } else if e.ParentCalls? {
      assert Apply(s, e) == Called(s);
      CalmCall(s);
    } else {
      CalmKidEvent(s, e.k, e);
    }
  }

  /** The step that everything else waits for. */
  function Helper(s: Cluster): Event {
    if !AllPublished(s) || AllStable(s) then
      (if s.parent.Idle? then ParentStarts else ParentCalls(Done))
    else
      HelpOf(s, if !Stable(s.kids.api, Target(s)) then API else if !Stable(s.kids.worker, Target(s)) then Worker
        else Listener)
  }

  function HelpOf(s: Cluster, k: Kind): Event {
    var kid := s.kids.At(k);
    if Waiting(kid, Target(s)) then RollsOut(k) else if kid.pass.Resting? then KidStarts(k) else KidCalls(k, Done)
  }

  lemma LaggardHelps(s: Cluster, k: Kind)
    requires Quiet(s) && AllPublished(s) && !Stable(s.kids.At(k), Target(s))
    ensures var e := HelpOf(s, k);
      && Enabled(s, e) && Calm(e) && !e.ParentStarts? && !e.ParentCalls? && e.k == k
      && Distance(k, KidEvent(s, k, e), Target(s)) < Distance(k, s.kids.At(k), Target(s))
  {
    assert Coherent(s.kids.At(k)) && Published(s, k);
    KidEventApproaches(s, k, HelpOf(s, k), Target(s));
  }

  /** Until convergence, some controller or some Deployment has a step that brings it closer. */
  lemma SomeStepHelps(s: Cluster)
    requires Quiet(s) && !Converged(s)
    ensures Enabled(s, Helper(s)) && Calm(Helper(s))
    ensures Quiet(Apply(s, Helper(s))) && Measure(Apply(s, Helper(s))) < Measure(s)
  {
    var e := Helper(s);
    MeasureZero(s);
    if !AllPublished(s) || AllStable(s) {
      NeverRises(s, e);
    } else {
      LaggardHelps(s, e.k);
      CalmKidEvent(s, e.k, e);
    }
  }

  predicate AllCalm(es: seq<Event>) { forall e <- es :: Calm(e) }

  /** Every calm run from a quiet state stays quiet and never moves away. */
  lemma {:induction false} CalmRunNeverRises(s: Cluster, es: seq<Event>)
    requires Quiet(s) && ValidRun(s, es) && AllCalm(es)
    ensures Quiet(Run(s, es)) && Measure(Run(s, es)) <= Measure(s)
  {
    if es != [] {
      CalmRunNeverRises(s, es[..|es| - 1]);
      NeverRises(Run(s, es[..|es| - 1]), es[|es| - 1]);
    }
  }

  /** The number of steps in a run that were, at their moment, the one that everything else waits for. */
  function Helped(s: Cluster, es: seq<Event>): nat
    requires ValidRun(s, es)
  {
    if es == [] then 0
    else
      var init := es[..|es| - 1];
      Helped(s, init) + if es[|es| - 1] == Helper(Run(s, init)) then 1 else 0
  }

  /** Every such step is paid for by the measure, until the cluster has converged. */
  lemma {:induction false} HelpIsBounded(s: Cluster, es: seq<Event>)
    requires Quiet(s) && ValidRun(s, es) && AllCalm(es)
    ensures Quiet(Run(s, es))
    ensures Converged(Run(s, es)) || Measure(Run(s, es)) + Helped(s, es) <= Measure(s)
  {
    if es != [] {
      var init := es[..|es| - 1];
      HelpIsBounded(s, init);
      var t := Run(s, init);
      NeverRises(t, es[|es| - 1]);
      MeasureZero(t);
      MeasureZero(Run(s, es));
      if !Converged(t) && es[|es| - 1] == Helper(t) {
        SomeStepHelps(t);
      }
    }
  }

  lemma MeasureIsBounded(s: Cluster)
    ensures Measure(s) <= 271
  {
    StableIsNear(s);
    assert ParentLeft(s) <= 42;
  }

  /** Convergence of every run: whatever the interleaving, a calm run from a quiet state has converged as
      soon as 271 of its steps have been the one that everything else waits for, and such a step is
      enabled in every state before that. */
  lemma AlwaysConverges(s: Cluster, es: seq<Event>)
    requires Quiet(s) && ValidRun(s, es) && AllCalm(es)
    ensures Helped(s, es) >= 271 ==> Converged(Run(s, es))
    ensures Converged(Run(s, es)) || (Enabled(Run(s, es), Helper(Run(s, es))) && Calm(Helper(Run(s, es))))
  {
    HelpIsBounded(s, es);
    MeasureIsBounded(s);
    MeasureZero(Run(s, es));
    if !Converged(Run(s, es)) {
      SomeStepHelps(Run(s, es));
    }
  }

  /** Once complete, no calm run undoes it: nothing current loses its finalizer and nothing old regains one. */
  lemma ConvergedStays(s: Cluster, es: seq<Event>)
    requires Quiet(s) && Converged(s) && ValidRun(s, es) && AllCalm(es)
    ensures Converged(Run(s, es))
  {
    CalmRunNeverRises(s, es);
    MeasureZero(s);
    MeasureZero(Run(s, es));
  }

  /** Notifications are off, and a TransportURL that is left over is still tracked. */
  predicate TeardownPending(s: Cluster) {
    && !s.spec.notify
    && (s.notifyURL ==> s.st.tracked.n != NoName && (s.parent.Running? ==> s.parent.st.tracked.n != NoName))
  }

  lemma TeardownStaysPending(s: Cluster, e: Event)
    requires Quiet(s) && Enabled(s, e) && Calm(e) && TeardownPending(s)
    ensures TeardownPending(Apply(s, e))
  {
  }

  /** However the controllers interleave and however often a pass found the children not yet ready: once
      a calm run has converged, the notifications TransportURL is gone and no notifications secret is held. */
  lemma {:induction false} TeardownCompletes(s: Cluster, es: seq<Event>)
    requires Quiet(s) && TeardownPending(s) && ValidRun(s, es) && AllCalm(es)
    ensures TeardownPending(Run(s, es))
    ensures Converged(Run(s, es)) ==>
      !Run(s, es).notifyURL && forall x <- Run(s, es).held :: x == NoName || x.bus == Messaging
  {
    if es != [] {
      TeardownCompletes(s, es[..|es| - 1]);
      CalmRunNeverRises(s, es[..|es| - 1]);
      TeardownStaysPending(Run(s, es[..|es| - 1]), es[|es| - 1]);
    }
  }

  // ---------------------------------------------------------------- a pass from before

  /** The number of calls of the parent in a run. */
  function ParentCallCount(es: seq<Event>): nat {
    if es == [] then 0 else ParentCallCount(es[..|es| - 1]) + if es[|es| - 1].ParentCalls? then 1 else 0
  }

  lemma CallGoesOn(s: Cluster, o: Outcome)
    requires s.parent.Running?
    ensures ParentStep(s, o).parent.Running? ==> Order(ParentStep(s, o).parent.pc) > Order(s.parent.pc)
  {
  }

  lemma {:induction false} CallsAdvance(s: Cluster, es: seq<Event>)
    requires s.parent.Running? && ValidRun(s, es) && forall e <- es :: !e.ParentStarts?
    ensures Run(s, es).parent.Running? ==>
      Order(s.parent.pc) + ParentCallCount(es) <= Order(Run(s, es).parent.pc)
  {
    if es != [] {
      var init, e := es[..|es| - 1], es[|es| - 1];
      CallsAdvance(s, init);
      if e.ParentCalls? {
        CallGoesOn(Run(s, init), e.o);
      }
    }
  }

  /** A pass that began before the quiet period ends within twenty calls, however they end and whatever
      else happens; without a pass, a provided cluster is quiet. */
  lemma OldPassEnds(s: Cluster, es: seq<Event>)
    requires AllCoherent(s) && s.parent.Running? && ValidRun(s, es)
    requires (forall e <- es :: !e.ParentStarts?) && ParentCallCount(es) >= 20
    ensures Run(s, es).parent.Idle?
    ensures Provided(Run(s, es)) ==> Quiet(Run(s, es))
  {
    CallsAdvance(s, es);
    RunStaysCoherent(s, es);
  }

  lemma {:induction false} RunStaysCoherent(s: Cluster, es: seq<Event>)
    requires AllCoherent(s) && ValidRun(s, es)
    ensures AllCoherent(Run(s, es))
  {
    if es != [] {
      RunStaysCoherent(s, es[..|es| - 1]);
      ApplyCoherent(Run(s, es[..|es| - 1]), es[|es| - 1]);
    }
  }
}
