/** How tight the orderly rule is for the names of the two TransportURLs: where the rule forbids a change,
    some run that is orderly from then on leaves a running pod with a secret that nobody holds. */
module Overlap {
  import opened Cluster
  import opened Coherence
  import opened RotationSafety
  import opened Convergence
  import opened Witnesses
  import RotationInvariant

  // ---------------------------------------------------------------- runs

  lemma ReachableCoherent(rule: Rule, from: Cluster, s: Cluster)
    requires AllCoherent(from) && Reachable(rule, from, s)
    ensures AllCoherent(s)
  {
    var es :| ValidRun(from, es) && AllowedRun(rule, from, es) && Run(from, es) == s;
    RunStaysCoherent(from, es);
  }

  lemma {:induction false} RunOn(rule: Rule, from: Cluster, s: Cluster, es: seq<Event>)
    requires Reachable(rule, from, s) && ValidRun(s, es) && AllowedRun(rule, s, es)
    ensures Reachable(rule, from, Run(s, es))
  {
    if es != [] {
      RunOn(rule, from, s, es[..|es| - 1]);
      var t := Go(rule, from, Run(s, es[..|es| - 1]), es[|es| - 1]);
    }
  }

  lemma ReachableIsTransitive(rule: Rule, from: Cluster, s: Cluster, t: Cluster)
    requires Reachable(rule, from, s) && Reachable(rule, s, t)
    ensures Reachable(rule, from, t)
  {
    var es :| ValidRun(s, es) && AllowedRun(rule, s, es) && Run(s, es) == t;
    RunOn(rule, from, s, es);
  }

  lemma StrictlyReachableIsSafe(spec: ParentSpec, s: Cluster)
    requires Reachable(Strict, Start(spec), s)
    ensures Safe(s)
  {
    var es :| ValidRun(Start(spec), es) && AllowedRun(Strict, Start(spec), es) && Run(Start(spec), es) == s;
    StrictIsOrderly(Start(spec), es);
    RotationIsSafe(spec, es);
    forall k: Kind, p | p in s.kids.At(k).pods ensures RotationInvariant.Fits(p.loaded, s.held) {
    }
  }

  /** Nothing that happens after the change `e`, orderly from then on, strands a pod. */
  ghost predicate SafeToApply(s: Cluster, e: Event)
    requires Enabled(s, e)
  {
    forall t :: Reachable(Strict, Apply(s, e), t) ==> Safe(t)
  }

  /** An orderly change in an orderly run is safe. */
  lemma OrderlyIsSafe(spec: ParentSpec, s: Cluster, e: Event)
    requires Reachable(Strict, Start(spec), s) && Enabled(s, e) && Orderly(s, e)
    ensures SafeToApply(s, e)
  {
    var t := Go(Strict, Start(spec), s, e);
    forall u | Reachable(Strict, t, u) ensures Safe(u) {
      ReachableIsTransitive(Strict, Start(spec), t, u);
      StrictlyReachableIsSafe(spec, u);
    }
  }

  // ---------------------------------------------------------------- a pod that uses the published secret

  predicate Loads(s: Cluster, k: Kind, names: Names) { exists p <- s.kids.At(k).pods :: p.loaded == names }

  /** No pass of the parent is running; the spec is served. */
  lemma Settles(from: Cluster, s: Cluster) returns (t: Cluster)
    requires Reachable(Strict, from, s)
    ensures Reachable(Strict, from, t)
    ensures t == s.(parent := Idle, migrated := s.migrated + {s.spec.tpl}, prepared := s.prepared + {s.spec.tpl})
  {
    t := s;
    if s.parent.Running? {
      t := Go(Strict, from, s, ParentCrashes);
    }
    t := Go(Strict, from, t, Migrates(s.spec.tpl));
    t := Go(Strict, from, t, Prepares(s.spec.tpl));
  }

  lemma Rests(from: Cluster, s: Cluster, k: Kind) returns (t: Cluster)
    requires Reachable(Strict, from, s)
    ensures Reachable(Strict, from, t)
    ensures t == s.(kids := s.kids.With(k, s.kids.At(k).(pass := Resting)))
  {
    t := s;
    if s.kids.At(k).pass.Working? {
      t := Go(Strict, from, s, KidCrashes(k));
    }
  }

  /** Whatever state the worker is in, it can start a pod with what the config Secret holds. */
  lemma WorkerLoads(from: Cluster, s: Cluster) returns (t: Cluster)
    requires Reachable(Strict, from, s) && s.kids.worker.log != []
    ensures Reachable(Strict, from, t) && t == s.(kids := t.kids) && Loads(t, Worker, s.cfg)
  {
    t := Rests(from, s, Worker);
    t := Deploys(Strict, from, t, Worker);
    t := PodStarts(Strict, from, t, Worker);
    assert Pod(t.kids.worker.tmpl.value, s.cfg) in t.kids.At(Worker).pods;
  }

  // ---------------------------------------------------------------- a pass that prunes

  /** The pass tracks `a` or the target on bus `b`. */
  predicate Tracks(s: Cluster, b: Bus, a: Name) {
    s.parent.Running? && s.parent.st.tracked.On(b) in {a, Target(s).On(b)}
  }

  lemma CallTracks(s: Cluster, b: Bus, a: Name)
    requires s.parent.Running? && PassReads(s) && !s.parent.pc.Patch? && Provided(s) && Tracks(s, b, a)
    requires s.parent.pc.DropURL? ==> !s.spec.notify
    requires Called(s).parent.Running? && Target(Called(s)) == Target(s)
    ensures Tracks(Called(s), b, a)
  {
  }

  lemma CallLeavesPods(s: Cluster, k: Kind)
    requires s.parent.Running?
    ensures Called(s).kids.At(k).pods == s.kids.At(k).pods
  {
  }

  /** Only the last prune leads to the patch; a quiet pass does not return early. */
  lemma LateGoesOn(s: Cluster)
    requires s.parent.Running? && Order(Prep) < Order(s.parent.pc) < Order(PruneAC)
    ensures Called(s).parent.Running? && !Called(s).parent.pc.Patch? && Order(Called(s).parent.pc) > Order(s.parent.pc)
  {
  }

  predicate Pruning(s: Cluster, b: Bus, a: Name) {
    Quiet(s) && Tracks(s, b, a) && !s.parent.pc.Patch?
  }

  lemma GoesOn(s: Cluster)
    requires Provided(s) && CalmPass(s) && s.parent.Running? && !s.parent.pc.Patch? && !s.parent.pc.PruneAC?
    ensures Called(s).parent.Running? && !Called(s).parent.pc.Patch? && Order(Called(s).parent.pc) > Order(s.parent.pc)
  {
    if Order(s.parent.pc) <= Order(Prep) {
      EarlyCallKeepsPass(s);
    } else {
      LateGoesOn(s);
    }
  }

  lemma OneCall(s: Cluster, b: Bus, a: Name)
    requires Pruning(s, b, a) && !s.parent.pc.PruneAC?
    ensures Pruning(Called(s), b, a) && Target(Called(s)) == Target(s)
    ensures CallsLeft(Called(s).parent) < CallsLeft(s.parent)
  {
    CallKeepsQuiet(s);
    CallKeepsTarget(s);
    GoesOn(s);
    CallTracks(s, b, a);
  }

  lemma PrunedAtTheEnd(s: Cluster)
    requires s.parent.Running? && PassReads(s) && PassEnds(s) && s.parent.pc.PruneAC?
    ensures s.held <= Keep(s.parent) && s.parent.cur == Target(s)
  {
  }

  lemma {:induction false} RunsToPrune(from: Cluster, s: Cluster, b: Bus, a: Name, k: Kind) returns (t: Cluster)
    requires Reachable(Strict, from, s) && Pruning(s, b, a)
    ensures Reachable(Strict, from, t) && t.kids.At(k).pods == s.kids.At(k).pods
    ensures Target(t) == Target(s) && Tracks(t, b, a) && t.parent.cur == Target(t) && t.held <= Keep(t.parent)
    decreases CallsLeft(s.parent)
  {
    if s.parent.pc.PruneAC? {
      t := s;
      PrunedAtTheEnd(s);
    } else {
      OneCall(s, b, a);
      CallLeavesPods(s, k);
      t := Go(Strict, from, s, ParentCalls(Done));
      t := RunsToPrune(from, t, b, a, k);
    }
  }

  /** A pass that starts now prunes every secret that is neither tracked nor wanted. */
  lemma PassStrands(from: Cluster, s: Cluster, x: Name) returns (t: Cluster)
    requires Reachable(Strict, from, s) && AllCoherent(s) && Provided(s) && s.parent.Idle?
    requires x != NoName && x != s.st.tracked.On(x.bus) && x != Target(s).On(x.bus)
    requires exists p <- s.kids.At(Worker).pods :: p.loaded.On(x.bus) == x
    ensures Reachable(Strict, from, t) && Stranded(t, Worker, x)
  {
    var b := x.bus;
    t := Go(Strict, from, s, ParentStarts);
    assert PassReads(t) && PassHolds(t) && PassPushes(t) && PassEnds(t);
    t := RunsToPrune(from, t, b, s.st.tracked.On(b), Worker);
    assert t.kids.At(Worker).pods == s.kids.At(Worker).pods;
    NotKept(t, x);
  }

  lemma NotKept(t: Cluster, x: Name)
    requires t.parent.Running? && x != NoName
    requires x != t.parent.st.tracked.On(x.bus) && x != t.parent.cur.On(x.bus)
    ensures x !in Keep(t.parent)
  {
  }

  // ---------------------------------------------------------------- a rotation

  /** The secret of `b` has reached the config Secret, and there is a worker to use it; whatever the spec
      wants is there. */
  predicate InUse(s: Cluster, b: Bus) {
    && Target(s).On(b) != NoName && s.cfg.On(b) == s.url.On(b) && s.kids.worker.log != []
    && s.url.m != NoName && (s.spec.notify ==> s.notifyURL && s.url.n != NoName)
  }

  lemma UntrackedStrands(s: Cluster, b: Bus, c: Names)
    requires AllCoherent(s) && InUse(s, b) && c.On(b) != NoName && c.On(b) != s.url.On(b)
    requires s.st.tracked.On(b) != s.url.On(b)
    ensures Enabled(s, SetURL(b, c)) && !SafeToApply(s, SetURL(b, c))
  {
    var from, x := Apply(s, SetURL(b, c)), s.url.On(b);
    StartReachable(Strict, from);
    var t := Settles(from, from);
    t := WorkerLoads(from, t);
    assert AllCoherent(from);
    ReachableCoherent(Strict, from, t);
    var p :| p in t.kids.At(Worker).pods && p.loaded == s.cfg;
    assert p.loaded.On(b) == x;
    t := PassStrands(from, t, x);
    StrandedIsUnsafe(t, Worker, x);
  }

  /** The exact condition for a rotation.  In every state of every orderly run in which the secret of a
      TransportURL is in use, replacing it by any other one is safe, whatever happens afterwards, if and
      only if the persisted status already tracks it. */
  lemma SafeToRotateIffTracked(spec: ParentSpec, es: seq<Event>, b: Bus, c: Names)
    requires ValidRun(Start(spec), es) && OrderlyRun(Start(spec), es)
    requires var s := Run(Start(spec), es); InUse(s, b) && c.On(b) != NoName && c.On(b) != s.url.On(b)
    ensures var s := Run(Start(spec), es);
      Enabled(s, SetURL(b, c)) && (SafeToApply(s, SetURL(b, c)) <==> s.st.tracked.On(b) == s.url.On(b))
  {
    var s := Run(Start(spec), es);
    StrictIsOrderly(Start(spec), es);
    assert Reachable(Strict, Start(spec), s);
    if s.st.tracked.On(b) == s.url.On(b) {
      OrderlyIsSafe(spec, s, SetURL(b, c));
    } else {
      RunCoherent(spec, es);
      UntrackedStrands(s, b, c);
    }
  }

  // ---------------------------------------------------------------- a name that comes too late

  /** Notifications are off; a pass that runs with notifications on carries their secret `x` along. */
  predicate Carrying(s: Cluster, x: Name) {
    && s.parent.Running? && s.parent.spec.notify && !s.spec.notify && Order(s.parent.pc) <= Order(Accounts)
    && s.url.n == x != NoName && s.notifyURL && s.url.m != NoName
    && s.parent.spec.tpl in s.migrated && s.parent.spec.tpl in s.prepared
    && (Order(s.parent.pc) >= Order(HoldN) ==> s.parent.cur.n == x)
    && (Order(s.parent.pc) > Order(Config) ==> s.cfg.n == x)
    && (Order(s.parent.pc) > Order(Child(Worker)) ==> s.kids.worker.log != [])
  }

  lemma EarlyCarries(s: Cluster, x: Name)
    requires Carrying(s, x) && Order(s.parent.pc) <= Order(Config)
    ensures Carrying(Called(s), x) && Order(Called(s).parent.pc) > Order(s.parent.pc)
    ensures Called(s).st == s.st && Called(s).spec == s.spec && Called(s).url == s.url
  {
  }

  lemma LateCarries(s: Cluster, x: Name)
    requires Carrying(s, x) && Order(Config) < Order(s.parent.pc) <= Order(Child(Worker))
    ensures Carrying(Called(s), x) && Order(Called(s).parent.pc) > Order(s.parent.pc)
    ensures Called(s).st == s.st && Called(s).spec == s.spec && Called(s).url == s.url
  {
  }

  /** The pass goes on until the worker exists and `x` is published. */
  lemma {:induction false} CarriesOn(from: Cluster, s: Cluster, x: Name) returns (t: Cluster)
    requires Reachable(Strict, from, s) && Carrying(s, x)
    ensures Reachable(Strict, from, t) && Carrying(t, x) && t.kids.worker.log != [] && t.cfg.n == x
    ensures t.st == s.st && t.spec == s.spec && t.url == s.url
    decreases CallsLeft(s.parent)
  {
    if Order(s.parent.pc) > Order(Child(Worker)) {
      t := s;
    } else {
      if Order(s.parent.pc) <= Order(Config) { EarlyCarries(s, x); } else { LateCarries(s, x); }
      t := Go(Strict, from, s, ParentCalls(Done));
      t := CarriesOn(from, t, x);
    }
  }

  const SOME: MessagingName := Secret(Messaging, "")

  lemma NamesMessaging(from: Cluster, s: Cluster) returns (t: Cluster)
    requires Reachable(Strict, from, s)
    ensures Reachable(Strict, from, t) && t.url.m != NoName && t == s.(url := Names(t.url.m, s.url.n))
  {
    t := s;
    if s.url.m == NoName {
      t := Go(Strict, from, t, SetURL(Messaging, Names(SOME, NoName)));
    }
  }

  /** What the pass in flight needs for its next calls. */
  lemma Supports(from: Cluster, s: Cluster) returns (t: Cluster)
    requires Reachable(Strict, from, s) && s.parent.Running?
    ensures Reachable(Strict, from, t) && t.url.m != NoName
    ensures var job := s.parent.spec.tpl;
      t == s.(url := Names(t.url.m, s.url.n), migrated := s.migrated + {job}, prepared := s.prepared + {job})
  {
    t := NamesMessaging(from, s);
    t := Go(Strict, from, t, Migrates(s.parent.spec.tpl));
    t := Go(Strict, from, t, Prepares(s.parent.spec.tpl));
  }

  lemma StillToRead(s: Cluster, x: Name)
    requires WillRead(s) && !s.spec.notify && s.url.n == x != NoName && s.notifyURL && s.url.m != NoName
    requires s.parent.spec.tpl in s.migrated && s.parent.spec.tpl in s.prepared
    ensures Carrying(s, x)
  {
    assert s.parent.pc.HoldM? || s.parent.pc.UrlM? || s.parent.pc.UrlN?;
  }

  lemma LateNameStrands(s: Cluster, c: Names)
    requires AllCoherent(s) && !s.spec.notify && s.notifyURL && WillRead(s)
    requires c.n != NoName && c.n != s.st.tracked.n
    ensures !SafeToApply(s, SetURL(Notifications, c))
  {
    var from, x := Apply(s, SetURL(Notifications, c)), c.n;
    StartReachable(Strict, from);
    var t := Supports(from, from);
    StillToRead(t, x);
    t := CarriesOn(from, t, x);
    t := Settles(from, t);
    t := WorkerLoads(from, t);
    assert AllCoherent(from);
    ReachableCoherent(Strict, from, t);
    t := PassStrands(from, t, x);
    StrandedIsUnsafe(t, Worker, x);
  }

  /** The exact condition for naming a notifications secret while notifications are off: in every state of
      every orderly run it is safe if and only if no pass that still runs with notifications on will read it. */
  lemma SafeToNameIffUnread(spec: ParentSpec, es: seq<Event>, c: Names)
    requires ValidRun(Start(spec), es) && OrderlyRun(Start(spec), es)
    requires var s := Run(Start(spec), es); !s.spec.notify && s.notifyURL && c.n != NoName && c.n != s.url.n
    ensures var s := Run(Start(spec), es); SafeToApply(s, SetURL(Notifications, c)) <==> !WillRead(s)
  {
    var s := Run(Start(spec), es);
    StrictIsOrderly(Start(spec), es);
    assert Reachable(Strict, Start(spec), s);
    if WillRead(s) {
      RunInv(spec, es);
      LateNameStrands(s, c);
    } else {
      OrderlyIsSafe(spec, s, SetURL(Notifications, c));
    }
  }

  /** Such a state is reached by an orderly run: notifications are switched off between the start of a pass
      and the moment in which the pass reads the TransportURL that an earlier one has created. */
  lemma LateNameIsReachable(a: MessagingName)
    requires a != NoName
    ensures exists s :: Reachable(Strict, Start(Quietly(false)), s) && !s.spec.notify && s.notifyURL && WillRead(s)
  {
    var from := Start(Quietly(false));
    var s := CreatesAll(Strict, a);
    s := TurnsOn(Strict, from, s, a);
    s := Go(Strict, from, s, ParentStarts);
    s := Go(Strict, from, s, SetNotify(false));
  }
}
