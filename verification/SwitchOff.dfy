/** The exact condition for switching notifications off: every existing child asks for the notifications
    secret, and no template that was made and rendered without it is in use. */
module SwitchOff {
  import opened Cluster
  import opened Coherence
  import opened RotationInvariant
  import opened RotationSafety
  import opened Witnesses
  import opened Overlap
  import Convergence
  import Release

  // ---------------------------------------------------------------- names are never empty

  predicate HasNames(input: Input) { input.names.m != NoName && input.conf.m != NoName }

  /** A child that exists was made for a messaging secret, and so were its templates. */
  predicate Named(kid: Kid) {
    && (kid.log != [] ==> kid.Spec().names.m != NoName)
    && (kid.tmpl.Some? ==> HasNames(kid.tmpl.value))
    && (forall p <- kid.pods :: HasNames(p.input))
    && (kid.pass.Working? ==>
          && kid.pass.spec.names.m != NoName
          && (kid.pass.pc.Write? || kid.pass.pc.Hash? || kid.pass.pc.Deploy? || kid.pass.pc.Check? ==>
                kid.pass.conf.m != NoName))
  }

  predicate AllNamed(s: Cluster) {
    forall k: Kind :: Named(s.kids.At(k)) && (s.kids.At(k).log != [] ==> s.cfg.m != NoName)
  }

  lemma KidStepNamed(kind: Kind, kid: Kid, parentCfg: Names, o: Outcome)
    requires kid.pass.Working? && Named(kid) && parentCfg.m != NoName
    ensures Named(KidStep(kind, kid, parentCfg, o)) && KidStep(kind, kid, parentCfg, o).log == kid.log
  {
    assert KidStep(kind, kid, parentCfg, o).pods == kid.pods;
  }

  lemma PodUpNamed(kid: Kid, input: Input)
    requires Named(kid) && (kid.tmpl == Some(input) || exists p <- kid.pods :: p.input == input)
    ensures Named(kid.(pods := kid.pods + {Pod(input, kid.cfg)}))
  {
  }

  lemma KidEventNamed(s: Cluster, k: Kind, e: Event)
    requires Enabled(s, e) && IsKidEvent(e) && e.k == k && Coherent(s.kids.At(k))
    requires Named(s.kids.At(k)) && (s.kids.At(k).log != [] ==> s.cfg.m != NoName)
    ensures Named(KidEvent(s, k, e)) && KidEvent(s, k, e).log == s.kids.At(k).log
  {
    match e
    case KidCalls(_, o) => KidStepNamed(k, s.kids.At(k), s.cfg, o);
    case PodUp(_, input) => PodUpNamed(s.kids.At(k), input);
    case KidStarts(_) =>
    case KidCrashes(_) =>
    case PodDown(_, _) =>
    case RollsOut(_) =>
  }

  lemma ParentNamed(s: Cluster, o: Outcome)
    requires Inv(s) && Release.ReadFacts(s) && AllNamed(s) && s.parent.Running?
    ensures AllNamed(ParentStep(s, o))
  {
    var p, t := s.parent, ParentStep(s, o);
    if p.pc.Child? && !o.Failed? {
      var k := p.pc.kind;
      assert s.cfg == p.cur && p.cur.m != NoName;
      assert t.kids == s.kids.With(k, s.kids.At(k).Push(KidSpec(p.spec.tpl, p.cur)));
      assert Named(s.kids.At(k).Push(KidSpec(p.spec.tpl, p.cur)));
    } else {
      assert t.kids == s.kids;
      assert t.cfg == s.cfg || t.cfg == p.cur;
    }
  }

  lemma {:induction false} RunNamed(spec: ParentSpec, es: seq<Event>)
    requires ValidRun(Start(spec), es) && OrderlyRun(Start(spec), es)
    ensures AllNamed(Run(Start(spec), es))
  {
    if es != [] {
      var init, e := es[..|es| - 1], es[|es| - 1];
      var s := Run(Start(spec), init);
      RunNamed(spec, init);
      RunInv(spec, init);
      Release.RunFacts(spec, init);
      if e.ParentCalls? {
        ParentNamed(s, e.o);
      } else if IsKidEvent(e) {
        KidEventNamed(s, e.k, e);
      }
    }
  }

  // ---------------------------------------------------------------- what a child can be brought to

  /** From any state a child can roll out what it is asked for and what the config Secret holds, start a pod
      and report; pods of the same template stay. */
  lemma KidReports(from: Cluster, s: Cluster, k: Kind) returns (t: Cluster)
    requires Reachable(Strict, from, s) && s.kids.At(k).log != []
    ensures Reachable(Strict, from, t) && t == s.(kids := s.kids.With(k, t.kids.At(k)))
    ensures var kid, kid' := s.kids.At(k), t.kids.At(k);
      var goal := Input(kid.Spec().names, s.cfg);
      && kid'.log == kid.log && kid'.Reports(kid.Spec().names)
      && Pod(goal, s.cfg) in kid'.pods && forall p <- kid.pods :: p.input == goal ==> p in kid'.pods
  {
    t := Rests(from, s, k);
    if k.API? && t.kids.api.recorded != Some(Input(t.kids.api.Spec().names, s.cfg)) {
      t := Records(Strict, from, t);
    }
    t := Deploys(Strict, from, t, k);
    t := Replaces(from, t, k);
    t := PodStarts(Strict, from, t, k);
    t := Reported(Strict, from, t, k);
  }

  /** The Deployment replaces the pods of other templates. */
  lemma Replaces(from: Cluster, s: Cluster, k: Kind) returns (t: Cluster)
    requires Reachable(Strict, from, s) && s.kids.At(k).tmpl.Some?
    ensures Reachable(Strict, from, t)
    ensures var kid, kid' := s.kids.At(k), t.kids.At(k);
      && t == s.(kids := s.kids.With(k, kid.(pods := kid'.pods)))
      && (forall p :: p in kid'.pods <==> p in kid.pods && p.input == kid.tmpl.value)
  {
    t := Go(Strict, from, s, RollsOut(k));
  }

  /** A child that runs or can start pods of a template renders the config Secret and crashes; such a pod
      then starts and reads what has been rendered. */
  lemma OldTemplateLoads(from: Cluster, s: Cluster, k: Kind, input: Input) returns (t: Cluster)
    requires Reachable(Strict, from, s) && s.kids.At(k).log != []
    requires s.kids.At(k).tmpl == Some(input) || exists p <- s.kids.At(k).pods :: p.input == input
    ensures Reachable(Strict, from, t) && t == s.(kids := s.kids.With(k, t.kids.At(k)))
    ensures t.kids.At(k).log == s.kids.At(k).log && Pod(input, s.cfg) in t.kids.At(k).pods
  {
    t := Rests(from, s, k);
    t := Renders(Strict, from, t, k);
    t := Rests(from, t, k);
    t := Go(Strict, from, t, PodUp(k, input));
  }

  // ---------------------------------------------------------------- a pass that publishes

  /** The pass runs to the end of the child specs. */
  lemma {:induction false} RunsToChildren(from: Cluster, s: Cluster, k: Kind) returns (t: Cluster)
    requires Reachable(Strict, from, s) && Convergence.Quiet(s) && s.parent.Running?
    requires Order(s.parent.pc) <= Order(FinM)
    ensures Reachable(Strict, from, t) && Convergence.Quiet(t) && Convergence.AllPublished(t)
    ensures t.parent.Running? && t.spec == s.spec && Convergence.Target(t) == Convergence.Target(s) && t.st == s.st
    ensures t.kids.At(k).pods == s.kids.At(k).pods
    ensures Convergence.Published(s, k) ==> t.kids.At(k) == s.kids.At(k)
    decreases Convergence.CallsLeft(s.parent)
  {
    if s.parent.pc.FinM? {
      t := s;
      Convergence.AllPushed(s);
    } else {
      Convergence.CallKeepsQuiet(s);
      Convergence.CallKeepsTarget(s);
      CallLeavesPods(s, k);
      OnePush(s, k);
      t := Go(Strict, from, s, ParentCalls(Done));
      assert t == Convergence.Called(s);
      t := RunsToChildren(from, t, k);
    }
  }

  lemma OnePush(s: Cluster, k: Kind)
    requires Convergence.Quiet(s) && s.parent.Running? && Order(s.parent.pc) < Order(FinM)
    ensures var t := Convergence.Called(s);
      && t.parent.Running? && Order(s.parent.pc) < Order(t.parent.pc) <= Order(FinM) && t.st == s.st
      && (Convergence.Published(s, k) ==> t.kids.At(k) == s.kids.At(k) && Convergence.Published(t, k))
  {
    StatusUntouched(s);
    if Order(s.parent.pc) <= Order(Prep) {
      EarlyPush(s, k);
    } else {
      Convergence.PushReads(s);
      Convergence.PushPublishes(s);
    }
  }

  lemma EarlyPush(s: Cluster, k: Kind)
    requires Convergence.Provided(s) && Convergence.CalmPass(s)
    requires s.parent.Running? && Order(s.parent.pc) <= Order(Prep)
    ensures var t := Convergence.Called(s);
      && t.parent.Running? && Order(s.parent.pc) < Order(t.parent.pc) <= Order(FinM) && t.kids == s.kids
      && (Convergence.Published(s, k) ==> Convergence.Published(t, k))
  {
    Convergence.EarlyCallKeepsPass(s);
    Convergence.CallKeepsTarget(s);
  }

  lemma StatusUntouched(s: Cluster)
    requires s.parent.Running? && !s.parent.pc.Patch?
    ensures Convergence.Called(s).st == s.st
  {
  }

  // ---------------------------------------------------------------- a pass that releases

  /** The pass has found everything reporting so far, runs with notifications off and will release `x`. */
  predicate Releasing(s: Cluster, x: Name) {
    && Convergence.Quiet(s) && s.parent.Running? && Order(s.parent.pc) <= Order(FinN) && !s.spec.notify
    && Convergence.AllPublished(s) && Convergence.AllReport(s) && Convergence.OnTrack(s.parent)
    && s.parent.st.tracked.n == x != NoName
  }

  lemma OneCallReleases(s: Cluster, x: Name)
    requires Releasing(s, x) && Order(s.parent.pc) < Order(FinN)
    ensures var t := Convergence.Called(s);
      && Releasing(t, x) && t.kids == s.kids && Convergence.CallsLeft(t.parent) < Convergence.CallsLeft(s.parent)
  {
    Convergence.CallKeepsQuiet(s);
    Convergence.CallKeepsTarget(s);
    Convergence.CallMovesOn(s);
    Convergence.CallKeepsTrack(s);
    KeepsName(s);
  }

  lemma KeepsName(s: Cluster)
    requires s.parent.Running? && Order(s.parent.pc) < Order(FinN) && Convergence.PassReads(s) && !s.spec.notify
    requires Convergence.Called(s).parent.Running? && Order(Convergence.Called(s).parent.pc) > Order(s.parent.pc)
    ensures Convergence.Called(s).parent.pc.Patch? || Order(Convergence.Called(s).parent.pc) <= Order(FinN)
    ensures Convergence.Called(s).parent.st.tracked.n == s.parent.st.tracked.n
  {
  }

  lemma {:induction false} RunsToRelease(from: Cluster, s: Cluster, x: Name, k: Kind) returns (t: Cluster)
    requires Reachable(Strict, from, s) && Releasing(s, x)
    ensures Reachable(Strict, from, t) && x !in t.held && t.kids.At(k).pods == s.kids.At(k).pods
    decreases Convergence.CallsLeft(s.parent)
  {
    if s.parent.pc.FinN? {
      ReleasedNow(s, x);
      t := Go(Strict, from, s, ParentCalls(Done));
    } else {
      OneCallReleases(s, x);
      t := Go(Strict, from, s, ParentCalls(Done));
      t := RunsToRelease(from, t, x, k);
    }
  }

  lemma ReleasedNow(s: Cluster, x: Name)
    requires Releasing(s, x) && s.parent.pc.FinN?
    ensures x !in Convergence.Called(s).held && Convergence.Called(s).kids == s.kids
  {
    var p := s.parent;
    assert Order(FinN) > Order(Child(API)) && Order(FinN) > Order(Child(Worker)) &&
      Order(FinN) > Order(Child(Listener));
    assert p.ok.At(API) && p.ok.At(Worker) && p.ok.At(Listener);
    assert !p.spec.notify;
  }

  lemma StartsToRelease(from: Cluster, s: Cluster, x: Name, k: Kind) returns (t: Cluster)
    requires Reachable(Strict, from, s) && Convergence.Quiet(s) && s.parent.Idle? && !s.spec.notify
    requires Convergence.AllPublished(s) && Convergence.AllReport(s) && s.st.tracked.n == x != NoName
    ensures Reachable(Strict, from, t) && x !in t.held && t.kids.At(k).pods == s.kids.At(k).pods
  {
    Convergence.CalmStart(s);
    t := Go(Strict, from, s, ParentStarts);
    assert forall j: Kind :: Convergence.Published(s, j) ==> Convergence.Published(t, j);
    t := RunsToRelease(from, t, x, k);
  }

  // ---------------------------------------------------------------- stranding a pod

  /** The pod stays in child `k`, because the child reports already or the pod has the wanted template. */
  predicate Keeps(s: Cluster, k: Kind, pod: Pod) {
    var kid := s.kids.At(k);
    pod in kid.pods && (kid.Reports(kid.Spec().names) || pod.input == Input(kid.Spec().names, s.cfg))
  }

  /** Child `j` comes to report. */
  lemma EachReports(from: Cluster, s: Cluster, j: Kind, k: Kind, pod: Pod) returns (t: Cluster)
    requires Reachable(Strict, from, s) && s.kids.At(j).log != [] && Keeps(s, k, pod)
    ensures Reachable(Strict, from, t) && t == s.(kids := s.kids.With(j, t.kids.At(j))) && Keeps(t, k, pod)
    ensures t.kids.At(j).log == s.kids.At(j).log && t.kids.At(j).Reports(s.kids.At(j).Spec().names)
  {
    t := s;
    if !s.kids.At(j).Reports(s.kids.At(j).Spec().names) {
      t := KidReports(from, s, j);
    }
  }

  lemma ThreeReport(from: Cluster, s: Cluster, spec: KidSpec, k: Kind, pod: Pod) returns (t: Cluster)
    requires Reachable(Strict, from, s) && AllHave(s.kids, spec) && Keeps(s, k, pod)
    ensures Reachable(Strict, from, t) && t == s.(kids := t.kids) && AllHave(t.kids, spec) && Keeps(t, k, pod)
    ensures t.kids.api.Reports(spec.names) && t.kids.worker.Reports(spec.names) && t.kids.listener.Reports(spec.names)
  {
    t := EachReports(from, s, API, k, pod);
    var api := t.kids.api;
    assert api.Reports(spec.names) && AllHave(t.kids, spec);
    t := EachReports(from, t, Worker, k, pod);
    assert t.kids.api == api && t.kids.worker.Reports(spec.names) && AllHave(t.kids, spec);
    t := EachReports(from, t, Listener, k, pod);
  }

  lemma AllComeToReport(from: Cluster, s: Cluster, k: Kind, pod: Pod) returns (t: Cluster)
    requires Reachable(Strict, from, s) && Convergence.AllPublished(s) && Keeps(s, k, pod)
    ensures Reachable(Strict, from, t) && t == s.(kids := t.kids)
    ensures Convergence.AllPublished(t) && Convergence.AllReport(t) && pod in t.kids.At(k).pods
  {
    PublishedHave(s);
    t := ThreeReport(from, s, Convergence.TargetSpec(s), k, pod);
    HaveIsPublished(t);
  }

  lemma PublishedHave(s: Cluster)
    requires Convergence.AllPublished(s)
    ensures AllHave(s.kids, Convergence.TargetSpec(s))
  {
    assert Convergence.Published(s, API) && Convergence.Published(s, Worker) && Convergence.Published(s, Listener);
  }

  lemma HaveIsPublished(t: Cluster)
    requires AllHave(t.kids, Convergence.TargetSpec(t)) && t.cfg == Convergence.Target(t)
    requires var x := Convergence.Target(t);
      t.kids.api.Reports(x) && t.kids.worker.Reports(x) && t.kids.listener.Reports(x)
    ensures Convergence.AllPublished(t) && Convergence.AllReport(t)
  {
  }

  /** Notifications are off, and child `k` has a pod that uses their secret `x` and that its report does not
      tell from one that does not. */
  predicate Hidden(s: Cluster, k: Kind, pod: Pod, x: Name) {
    var off := Names(s.url.m, NoName);
    && !s.spec.notify && s.url.m != NoName && s.st.tracked.n == x != NoName
    && pod in s.kids.At(k).pods && pod.loaded.n == x
    && (|| pod.input == Input(off, off)
        || (s.kids.At(k).log != [] && s.kids.At(k).Spec() == KidSpec(s.spec.tpl, off) && s.kids.At(k).Reports(off)))
  }

  lemma HiddenStrands(from: Cluster, s: Cluster, k: Kind, pod: Pod, x: NotificationsName) returns (t: Cluster)
    requires Reachable(Strict, from, s) && AllCoherent(from) && Hidden(s, k, pod, x)
    ensures Reachable(Strict, from, t) && Stranded(t, k, x)
  {
    t := PublishesOff(from, s, k, pod, x);
    t := AllComeToReport(from, t, k, pod);
    ReachableCoherent(Strict, from, t);
    t := StartsToRelease(from, t, x, k);
    assert pod in t.kids.At(k).pods;
  }

  /** A pass takes the secret out of the config Secret and out of all specs, and ends there. */
  lemma PublishesOff(from: Cluster, s: Cluster, k: Kind, pod: Pod, x: Name) returns (t: Cluster)
    requires Reachable(Strict, from, s) && AllCoherent(from) && Hidden(s, k, pod, x)
    ensures Reachable(Strict, from, t) && t.parent.Idle? && !t.spec.notify && t.st.tracked.n == x
    ensures Convergence.Provided(t) && Convergence.AllPublished(t) && Keeps(t, k, pod)
  {
    t := Settles(from, s);
    ReachableCoherent(Strict, from, t);
    Convergence.CalmStart(t);
    assert Convergence.Published(t, k) || pod.input == Input(Convergence.Target(t), Convergence.Target(t));
    t := Go(Strict, from, t, ParentStarts);
    t := RunsToChildren(from, t, k);
    assert Convergence.Published(t, k);
    t := EndsHere(from, t);
  }

  lemma EndsHere(from: Cluster, s: Cluster) returns (t: Cluster)
    requires Reachable(Strict, from, s) && s.parent.Running? && Convergence.AllPublished(s)
    ensures Reachable(Strict, from, t) && t == s.(parent := Idle) && Convergence.AllPublished(t)
  {
    t := Go(Strict, from, s, ParentCrashes);
    assert forall j: Kind :: Convergence.Published(s, j) ==> Convergence.Published(t, j);
  }

  // ---------------------------------------------------------------- the exact condition

  /** The template is in the Deployment of the child or in one of its pods. */
  predicate Uses(kid: Kid, input: Input) {
    kid.tmpl == Some(input) || exists p <- kid.pods :: p.input == input
  }

  /** The notifications secret is in use, no rotation of the messaging secret is under way, and no child
      reconciles at the moment. */
  predicate AtRest(s: Cluster) {
    && s.spec.notify && InUse(s, Notifications) && s.st.tracked.m == s.url.m == s.cfg.m
    && forall k: Kind :: s.kids.At(k).pass.Resting?
  }

  /** The child does not exist, or asks for the current secrets and has no pod of, and cannot start one from,
      the template without notifications. */
  predicate LeftBehind(kid: Kid, names: Names) {
    var off := Names(names.m, NoName);
    kid.log == [] || (kid.Spec().names == names && !Uses(kid, Input(off, off)))
  }

  /** At rest there are only two pairs of names in a child. */
  lemma TwoPairs(s: Cluster, k: Kind, x: Names)
    requires Inv(s) && AtRest(s) && s.st.tracked.n == s.url.n && x in KidNames(s.kids.At(k))
    ensures x.n == NoName || x.n == s.url.n
    ensures x.m == NoName || x.m == s.url.m
  {
    assert Within(s.kids.At(k), s.st.tracked, s.cfg);
    assert x.On(Messaging) == x.m && x.On(Notifications) == x.n;
  }

  lemma TemplateNames(kid: Kid, input: Input)
    requires Uses(kid, input)
    ensures input.names in KidNames(kid) && input.conf in KidNames(kid)
  {
    if kid.tmpl != Some(input) {
      var p :| p in kid.pods && p.input == input;
      PodNamesMember(kid.pods, p);
    }
  }

  lemma OnlyOffTemplate(s: Cluster, k: Kind, input: Input)
    requires Inv(s) && AllNamed(s) && AtRest(s) && s.st.tracked.n == s.url.n && Uses(s.kids.At(k), input)
    ensures var off := Names(s.url.m, NoName);
      Made(input, Notifications, NoName, s.url.n) <==> input == Input(off, off)
  {
    TemplateNames(s.kids.At(k), input);
    TwoPairs(s, k, input.names);
    TwoPairs(s, k, input.conf);
    assert Named(s.kids.At(k)) && HasNames(input);
  }

  /** At rest the rule for a switch-off says the same in terms of specs and templates. */
  lemma ClearIsLeftBehind(s: Cluster, k: Kind)
    requires Inv(s) && AllNamed(s) && AtRest(s) && s.st.tracked.n == s.url.n
    ensures Clear(s.kids.At(k), Notifications, NoName, s.url.n) <==> LeftBehind(s.kids.At(k), s.url)
  {
    var kid, off := s.kids.At(k), Names(s.url.m, NoName);
    if kid.log != [] {
      assert kid.Spec().names in KidNames(kid) && Named(kid);
      TwoPairs(s, k, kid.Spec().names);
      if Marked(kid, Notifications, NoName, s.url.n) {
        var input := MarkedInput(kid, s.url.n);
        OnlyOffTemplate(s, k, input);
      }
      if Uses(kid, Input(off, off)) {
        assert Made(Input(off, off), Notifications, NoName, s.url.n);
      }
    }
  }

  lemma MarkedInput(kid: Kid, o: Name) returns (input: Input)
    requires Marked(kid, Notifications, NoName, o)
    ensures Uses(kid, input) && Made(input, Notifications, NoName, o)
  {
    if kid.tmpl.Some? && Made(kid.tmpl.value, Notifications, NoName, o) {
      input := kid.tmpl.value;
    } else {
      var p :| p in kid.pods && Made(p.input, Notifications, NoName, o);
      input := p.input;
    }
  }

  /** A child that asks for no notifications secret rolls out their credentials under that spec. */
  lemma HidesBySpec(from: Cluster, s: Cluster, k: Kind, x: NotificationsName) returns (t: Cluster, pod: Pod)
    requires Reachable(Strict, from, s) && !s.spec.notify && s.url.m != NoName && s.st.tracked.n == x != NoName
    requires s.cfg == Names(s.url.m, x)
    requires s.kids.At(k).log != [] && s.kids.At(k).Spec().names == Names(s.url.m, NoName)
    ensures Reachable(Strict, from, t) && Hidden(t, k, pod, x)
  {
    t := Go(Strict, from, s, Edit(s.kids.At(k).Spec().tpl));
    t := KidReports(from, t, k);
    pod := Pod(Input(s.kids.At(k).Spec().names, s.cfg), s.cfg);
  }

  /** A pod of the template without notifications starts and reads their credentials. */
  lemma HidesByTemplate(from: Cluster, s: Cluster, k: Kind, x: NotificationsName) returns (t: Cluster, pod: Pod)
    requires Reachable(Strict, from, s) && !s.spec.notify && s.url.m != NoName && s.st.tracked.n == x != NoName
    requires s.cfg == Names(s.url.m, x) && s.kids.At(k).log != []
    requires var off := Names(s.url.m, NoName); Uses(s.kids.At(k), Input(off, off))
    ensures Reachable(Strict, from, t) && Hidden(t, k, pod, x)
  {
    var off := Names(s.url.m, NoName);
    t := OldTemplateLoads(from, s, k, Input(off, off));
    pod := Pod(Input(off, off), s.cfg);
  }

  lemma UnclearStrands(s: Cluster, k: Kind)
    requires Inv(s) && AllNamed(s) && AtRest(s) && s.st.tracked.n == s.url.n && !LeftBehind(s.kids.At(k), s.url)
    ensures !SafeToApply(s, SetNotify(false))
  {
    var from, kid := Apply(s, SetNotify(false)), s.kids.At(k);
    var off, x := Names(s.url.m, NoName), s.url.n;
    StartReachable(Strict, from);
    assert kid.Spec().names in KidNames(kid) && Named(kid);
    TwoPairs(s, k, kid.Spec().names);
    assert s.cfg == Names(s.url.m, x);
    var t, pod;
    if Uses(kid, Input(off, off)) {
      t, pod := HidesByTemplate(from, from, k, x);
    } else {
      t, pod := HidesBySpec(from, from, k, x);
    }
    t := HiddenStrands(from, t, k, pod, x);
    StrandedIsUnsafe(t, k, x);
  }

  lemma UntrackedOffStrands(s: Cluster)
    requires AllCoherent(s) && s.spec.notify && InUse(s, Notifications) && s.st.tracked.n != s.url.n
    ensures !SafeToApply(s, SetNotify(false))
  {
    var from, x := Apply(s, SetNotify(false)), s.url.n;
    StartReachable(Strict, from);
    var t := Settles(from, from);
    t := WorkerLoads(from, t);
    assert AllCoherent(from);
    ReachableCoherent(Strict, from, t);
    var p :| p in t.kids.At(Worker).pods && p.loaded == s.cfg;
    assert p.loaded.On(Notifications) == x;
    t := PassStrands(from, t, x);
    StrandedIsUnsafe(t, Worker, x);
  }

  /** The exact condition for switching notifications off.  In every state of every orderly run in which
      their secret is in use and the children are at rest, it is safe, whatever happens afterwards, if and
      only if the persisted status tracks the secret and every existing child has left the template without
      notifications behind. */
  lemma SafeToSwitchOffIffLeftBehind(spec: ParentSpec, es: seq<Event>)
    requires ValidRun(Start(spec), es) && OrderlyRun(Start(spec), es)
    requires AtRest(Run(Start(spec), es))
    ensures var s := Run(Start(spec), es);
      SafeToApply(s, SetNotify(false)) <==>
        s.st.tracked.n == s.url.n && forall k: Kind :: LeftBehind(s.kids.At(k), s.url)
  {
    var s := Run(Start(spec), es);
    RunInv(spec, es);
    RunNamed(spec, es);
    StrictIsOrderly(Start(spec), es);
    assert Reachable(Strict, Start(spec), s);
    if s.st.tracked.n != s.url.n {
      UntrackedOffStrands(s);
    } else if k: Kind :| !LeftBehind(s.kids.At(k), s.url) {
      UnclearStrands(s, k);
    } else {
      forall k: Kind ensures Clear(s.kids.At(k), Notifications, NoName, s.url.n) {
        ClearIsLeftBehind(s, k);
      }
      OrderlyIsSafe(spec, s, SetNotify(false));
    }
  }
}
