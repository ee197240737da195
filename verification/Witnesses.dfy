/** Why rotation safety asks for orderly changes: runs in which exactly one kind of change is not, and a
    running pod is left with a secret that nobody holds. */
module Witnesses {
  import opened Cluster
  import opened RotationSafety
  import RotationInvariant
  import Readiness

  /** Which change is exempt from being orderly. */
  datatype Rule =
    | Strict
    | Overlapping  // a TransportURL may be given another secret at any time
    | EarlyOff     // notifications may be switched off once the current name is tracked
    | NamedOff     // and in all three child specs

  predicate Allowed(rule: Rule, s: Cluster, e: Event) {
    || Orderly(s, e)
    || (rule.Overlapping? && e.SetURL?)
    || (rule.EarlyOff? && e.SetNotify? && s.st.tracked.n == s.url.n)
    || (rule.NamedOff? && e.SetNotify? && s.st.tracked.n == s.url.n
        && forall k: Kind :: s.kids.At(k).log != [] && s.kids.At(k).Spec().names.n == s.url.n)
  }

  predicate AllowedRun(rule: Rule, s: Cluster, es: seq<Event>)
    requires ValidRun(s, es)
    decreases |es|
  {
    es == [] || (AllowedRun(rule, s, es[..|es| - 1]) && Allowed(rule, Run(s, es[..|es| - 1]), es[|es| - 1]))
  }

  /** A run that obeys the rule leads from `from` to `s`. */
  ghost predicate Reachable(rule: Rule, from: Cluster, s: Cluster) {
    exists es :: ValidRun(from, es) && AllowedRun(rule, from, es) && Run(from, es) == s
  }

  /** The Strict rule is the hypothesis of rotation safety. */
  lemma {:induction false} StrictIsOrderly(s: Cluster, es: seq<Event>)
    requires ValidRun(s, es)
    ensures AllowedRun(Strict, s, es) <==> OrderlyRun(s, es)
  {
    if es != [] {
      StrictIsOrderly(s, es[..|es| - 1]);
    }
  }

  lemma StartReachable(rule: Rule, from: Cluster)
    ensures Reachable(rule, from, from)
  {
    assert ValidRun(from, []) && AllowedRun(rule, from, []) && Run(from, []) == from;
  }

  lemma Go(rule: Rule, from: Cluster, s: Cluster, e: Event) returns (t: Cluster)
    requires Reachable(rule, from, s) && Enabled(s, e) && Allowed(rule, s, e)
    ensures t == Apply(s, e) && Reachable(rule, from, t)
  {
    var es :| ValidRun(from, es) && AllowedRun(rule, from, es) && Run(from, es) == s;
    var longer := es + [e];
    assert longer[..|longer| - 1] == es;
    t := Apply(s, e);
    assert Run(from, longer) == t;
  }

  lemma Call(rule: Rule, from: Cluster, s: Cluster, o: Outcome) returns (t: Cluster)
    requires Reachable(rule, from, s) && s.parent.Running?
    ensures t == ParentStep(s, o) && Reachable(rule, from, t)
  {
    t := Go(rule, from, s, ParentCalls(o));
  }

  lemma KidCall(rule: Rule, from: Cluster, s: Cluster, k: Kind) returns (t: Cluster)
    requires Reachable(rule, from, s) && s.kids.At(k).pass.Working?
    ensures t == s.(kids := s.kids.With(k, KidStep(k, s.kids.At(k), s.cfg, Done))) && Reachable(rule, from, t)
  {
    t := Go(rule, from, s, KidCalls(k, Done));
  }

  lemma KidStart(rule: Rule, from: Cluster, s: Cluster, k: Kind) returns (t: Cluster)
    requires Reachable(rule, from, s) && s.kids.At(k).pass.Resting? && s.kids.At(k).log != []
    ensures t == s.(kids := s.kids.With(k, KidBegin(s.kids.At(k)))) && Reachable(rule, from, t)
  {
    t := Go(rule, from, s, KidStarts(k));
  }

  const TEMPLATE := Template(0, false)
  const NONE := Trio(false, false, false)

  function Quietly(notify: bool): ParentSpec { ParentSpec(notify, "", TEMPLATE) }

  // ---------------------------------------------------------------- parts of a pass

  /** The first calls of a pass: the messaging secret is read and held. */
  lemma Opens(rule: Rule, from: Cluster, s: Cluster) returns (t: Cluster)
    requires Reachable(rule, from, s) && s.parent.Idle? && s.url.m != NoName
    ensures Reachable(rule, from, t)
    ensures t == s.(held := s.held + {s.url.m},
                    parent := Running(if s.spec.notify then UrlN else Inputs, s.spec, s.gen, Names(s.url.m, NoName),
                                      s.st.(ready := false, tracked := FirstTracked(s.st.tracked, Messaging, s.url)),
                                        NONE))
  {
    t := Go(rule, from, s, ParentStarts);
    t := Call(rule, from, t, Done);
    t := Call(rule, from, t, Done);
  }

  /** The notifications secret is read and held. */
  lemma OpensNotifications(rule: Rule, from: Cluster, s: Cluster) returns (t: Cluster)
    requires Reachable(rule, from, s) && s.parent.Running? && s.parent.pc.UrlN? && s.notifyURL && s.url.n != NoName
    ensures Reachable(rule, from, t)
    ensures var p := s.parent;
      t == s.(held := s.held + {s.url.n},
              parent := p.(pc := Inputs, cur := p.cur.(n := s.url.n),
                           st := p.st.(tracked := FirstTracked(p.st.tracked, Notifications, s.url))))
  {
    t := Call(rule, from, s, Done);
    t := Call(rule, from, t, Done);
  }

  /** The config Secret is written. */
  lemma Publishes(rule: Rule, from: Cluster, s: Cluster) returns (t: Cluster)
    requires Reachable(rule, from, s) && s.parent.Running? && s.parent.pc.Inputs?
    ensures Reachable(rule, from, t) && t == s.(cfg := s.parent.cur, parent := s.parent.(pc := HoldAC))
  {
    t := Call(rule, from, s, Done);
    t := Call(rule, from, t, Done);
  }

  /** From there to the first child. */
  lemma ToChildren(rule: Rule, from: Cluster, s: Cluster) returns (t: Cluster)
    requires Reachable(rule, from, s) && s.parent.Running? && s.parent.pc.HoldAC?
    requires s.parent.spec.tpl == TEMPLATE && s.parent.spec.ac == "" && TEMPLATE in s.migrated
    ensures Reachable(rule, from, t)
    ensures t == s.(parent := s.parent.(pc := Child(API), st := s.parent.st.(db := Some(TEMPLATE))))
  {
    t := Call(rule, from, s, Done);
    t := ThroughJobs(rule, from, t);
  }

  lemma ThroughJobs(rule: Rule, from: Cluster, s: Cluster) returns (t: Cluster)
    requires Reachable(rule, from, s) && s.parent.Running? && s.parent.pc.DbSync?
    requires s.parent.spec.tpl == TEMPLATE && s.parent.spec.ac == "" && TEMPLATE in s.migrated
    ensures Reachable(rule, from, t)
    ensures t == s.(parent := s.parent.(pc := Child(API), st := s.parent.st.(db := Some(TEMPLATE))))
  {
    t := Call(rule, from, s, Done);
    t := Call(rule, from, t, Done);
  }

  function Pushed(s: Cluster, k: Kind): Kid
    requires s.parent.Running?
  {
    s.kids.At(k).Push(KidSpec(s.parent.spec.tpl, s.parent.cur))
  }

  /** Two children are read. */
  lemma OverTwo(rule: Rule, from: Cluster, s: Cluster) returns (t: Cluster)
    requires Reachable(rule, from, s) && s.parent.Running? && s.parent.pc == Child(API)
    ensures Reachable(rule, from, t)
    ensures var api, worker := Pushed(s, API), Pushed(s, Worker);
      t == s.(kids := Trio(api, worker, s.kids.listener),
              parent := s.parent.(pc := Accounts,
                                  ok := Trio(api.Reports(s.parent.cur), worker.Reports(s.parent.cur),
                                    s.parent.ok.listener)))
  {
    t := Call(rule, from, s, Done);
    t := Call(rule, from, t, Done);
  }

  /** The three children, read in turn. */
  lemma OverChildren(rule: Rule, from: Cluster, s: Cluster) returns (t: Cluster)
    requires Reachable(rule, from, s) && s.parent.Running? && s.parent.pc == Child(API)
    ensures Reachable(rule, from, t) && t.parent.Running?
    ensures var kids := Trio(Pushed(s, API), Pushed(s, Worker), Pushed(s, Listener));
      var ok := Trio(kids.api.Reports(s.parent.cur), kids.worker.Reports(s.parent.cur),
        kids.listener.Reports(s.parent.cur));
      t == s.(kids := kids, parent := s.parent.(pc := FinM, ok := ok, st := t.parent.st))
      && t.parent.st.tracked == s.parent.st.tracked && t.parent.st.ac == s.parent.st.ac
  {
    t := OverTwo(rule, from, s);
    t := Call(rule, from, t, Done);
    t := OverLast(rule, from, t);
  }

  lemma OverLast(rule: Rule, from: Cluster, s: Cluster) returns (t: Cluster)
    requires Reachable(rule, from, s) && s.parent.Running? && s.parent.pc == Child(Listener)
    ensures Reachable(rule, from, t) && t.parent.Running?
    ensures var listener := Pushed(s, Listener);
      t == s.(kids := s.kids.(listener := listener),
              parent := s.parent.(pc := FinM, st := t.parent.st,
                                  ok := s.parent.ok.(listener := listener.Reports(s.parent.cur))))
      && t.parent.st.tracked == s.parent.st.tracked && t.parent.st.ac == s.parent.st.ac
  {
    t := Call(rule, from, s, Done);
  }

  /** A pass that fails at its next call and saves its status. */
  lemma GiveUp(rule: Rule, from: Cluster, s: Cluster) returns (t: Cluster)
    requires Reachable(rule, from, s) && s.parent.Running? && !s.parent.pc.Patch?
    ensures Reachable(rule, from, t) && t == s.(st := s.parent.st, parent := Idle)
  {
    t := Call(rule, from, s, Failed);
    t := Call(rule, from, t, Done);
  }

  // ---------------------------------------------------------------- parts of a child

  /** The first calls of a child's pass: it renders the parent's config Secret into its own. */
  lemma Renders(rule: Rule, from: Cluster, s: Cluster, k: Kind) returns (t: Cluster)
    requires Reachable(rule, from, s) && s.kids.At(k).pass.Resting? && s.kids.At(k).log != []
    ensures Reachable(rule, from, t)
    ensures var kid := s.kids.At(k);
      t == s.(kids := s.kids.With(k, kid.(
        cfg := s.cfg, pass := Working(Hash, kid.Gen(), kid.Spec(), s.cfg, kid.recorded, kid.applied, false))))
  {
    t := KidStart(rule, from, s, k);
    t := KidCall(rule, from, t, k);
    t := KidCall(rule, from, t, k);
  }

  /** A first pass of the API child records the hash and returns. */
  lemma Records(rule: Rule, from: Cluster, s: Cluster) returns (t: Cluster)
    requires Reachable(rule, from, s) && s.kids.api.pass.Resting? && s.kids.api.log != []
    requires s.kids.api.recorded != Some(Input(s.kids.api.Spec().names, s.cfg))
    ensures Reachable(rule, from, t)
    ensures var kid, kid' := s.kids.api, t.kids.api;
      && t == s.(kids := s.kids.With(API, kid'))
      && kid'.pods == kid.pods && kid'.log == kid.log && kid'.pass.Resting?
      && kid'.recorded == Some(Input(kid.Spec().names, s.cfg))
  {
    t := Renders(rule, from, s, API);
    t := KidCall(rule, from, t, API);
    t := KidCall(rule, from, t, API);
  }

  predicate AtCheck(kid: Kid, kid': Kid, cfg: Names) {
    && kid'.pods == kid.pods && kid'.log == kid.log
    && kid'.cfg == cfg && kid'.tmpl == Some(Input(kid.Spec().names, cfg))
    && kid'.pass.Working? && kid'.pass.pc.Check? && kid'.pass.gen == kid.Gen()
    && kid'.pass.spec == kid.Spec() && kid'.pass.conf == cfg
  }

  /** A pass that does not return early writes the Deployment. */
  lemma Deploys(rule: Rule, from: Cluster, s: Cluster, k: Kind) returns (t: Cluster)
    requires Reachable(rule, from, s) && s.kids.At(k).pass.Resting? && s.kids.At(k).log != []
    requires k.API? ==> s.kids.At(k).recorded == Some(Input(s.kids.At(k).Spec().names, s.cfg))
    ensures Reachable(rule, from, t)
    ensures t == s.(kids := s.kids.With(k, t.kids.At(k))) && AtCheck(s.kids.At(k), t.kids.At(k), s.cfg)
    ensures t.kids.At(k).recorded == s.kids.At(k).recorded
  {
    t := Renders(rule, from, s, k);
    t := KidCall(rule, from, t, k);
    t := KidCall(rule, from, t, k);
  }

  /** From the first pass of a child to the call that writes its Deployment. */
  lemma Deployed(rule: Rule, from: Cluster, s: Cluster, k: Kind) returns (t: Cluster)
    requires Reachable(rule, from, s) && s.kids.At(k).pass.Resting? && s.kids.At(k).log != []
    requires s.kids.At(k).recorded.None?
    ensures Reachable(rule, from, t)
    ensures t == s.(kids := s.kids.With(k, t.kids.At(k))) && AtCheck(s.kids.At(k), t.kids.At(k), s.cfg)
  {
    t := s;
    if k.API? {
      t := Records(rule, from, s);
    }
    t := Deploys(rule, from, t, k);
  }

  /** A pod starts. */
  lemma PodStarts(rule: Rule, from: Cluster, s: Cluster, k: Kind) returns (t: Cluster)
    requires Reachable(rule, from, s) && s.kids.At(k).tmpl.Some?
    ensures Reachable(rule, from, t)
    ensures var kid := s.kids.At(k);
      t == s.(kids := s.kids.With(k, kid.(pods := kid.pods + {Pod(kid.tmpl.value, kid.cfg)})))
  {
    t := Go(rule, from, s, PodUp(k, s.kids.At(k).tmpl.value));
  }

  /** The child finds its Deployment rolled out and saves its status. */
  lemma Reported(rule: Rule, from: Cluster, s: Cluster, k: Kind) returns (t: Cluster)
    requires Reachable(rule, from, s) && s.kids.At(k).pass.Working? && s.kids.At(k).pass.pc.Check?
    requires s.kids.At(k).RolledOut(KidInput(s.kids.At(k)))
    ensures Reachable(rule, from, t)
    ensures var kid, kid' := s.kids.At(k), t.kids.At(k);
      && t == s.(kids := s.kids.With(k, kid'))
      && kid'.log == kid.log && kid'.pods == kid.pods
      && (kid.pass.gen == kid.Gen() ==> kid'.Reports(kid.pass.spec.names))
  {
    t := KidCall(rule, from, s, k);
    t := KidCall(rule, from, t, k);
  }

  // ---------------------------------------------------------------- stranded pods

  /** A running pod of child `k` uses the secret `x`, and the finalizer of `x` is gone. */
  predicate Stranded(s: Cluster, k: Kind, x: Name) {
    x != NoName && x !in s.held && exists p <- s.kids.At(k).pods :: p.loaded.On(x.bus) == x
  }

  lemma StrandedIsUnsafe(s: Cluster, k: Kind, x: Name)
    requires Stranded(s, k, x)
    ensures !Safe(s)
  {
    var p :| p in s.kids.At(k).pods && p.loaded.On(x.bus) == x;
    assert !RotationInvariant.Fits(p.loaded, s.held);
  }

  ghost predicate CanStrand(rule: Rule, from: Cluster, k: Kind, x: Name) {
    exists s :: Reachable(rule, from, s) && Stranded(s, k, x)
  }

  /** With orderly changes no pod is ever stranded.  The lemmas below show for concrete runs what happens
      without the condition on a rotation, and with weaker conditions on a switch-off. */
  lemma StrictNeverStrands(spec: ParentSpec, k: Kind, x: Name)
    ensures !CanStrand(Strict, Start(spec), k, x)
  {
    if CanStrand(Strict, Start(spec), k, x) {
      var s :| Reachable(Strict, Start(spec), s) && Stranded(s, k, x);
      var es :| ValidRun(Start(spec), es) && AllowedRun(Strict, Start(spec), es) && Run(Start(spec), es) == s;
      StrictIsOrderly(Start(spec), es);
      RotationIsSafe(spec, es);
    }
  }

  lemma Supplies(rule: Rule, a: MessagingName) returns (s: Cluster)
    requires a != NoName
    ensures Reachable(rule, Start(Quietly(false)), s)
    ensures s == Start(Quietly(false)).(migrated := {TEMPLATE}, url := Names(a, NoName))
  {
    var from := Start(Quietly(false));
    StartReachable(rule, from);
    s := Go(rule, from, from, Migrates(TEMPLATE));
    s := Go(rule, from, s, SetURL(Messaging, Names(a, NoName)));
  }

  /** The part of a pass with notifications off that ends before the first child. */
  lemma Prepares(rule: Rule, from: Cluster, s: Cluster) returns (t: Cluster)
    requires Reachable(rule, from, s) && s.parent.Idle? && s.url.m != NoName
    requires s.spec == Quietly(false) && TEMPLATE in s.migrated
    ensures Reachable(rule, from, t)
    ensures var cur, st := Names(s.url.m, NoName),
      s.st.(ready := false, tracked := FirstTracked(s.st.tracked, Messaging, s.url));
      t == s.(held := s.held + {s.url.m}, cfg := cur,
              parent := Running(Child(API), s.spec, s.gen, cur, st.(db := Some(TEMPLATE)), NONE))
  {
    t := Opens(rule, from, s);
    t := Publishes(rule, from, t);
    t := ToChildren(rule, from, t);
  }

  /** A first pass that creates the API child for secret `a`, and ends there. */
  lemma CreatesAPI(rule: Rule, a: MessagingName) returns (s: Cluster)
    requires a != NoName
    ensures Reachable(rule, Start(Quietly(false)), s)
    ensures
      && s.parent.Idle? && s.spec == Quietly(false)
      && TEMPLATE in s.migrated && s.url == Names(a, NoName) && s.st.tracked == Names(a, NoName)
      && s.kids == Trio(NOBODY.Push(KidSpec(TEMPLATE, Names(a, NoName))), NOBODY, NOBODY)
  {
    var from := Start(Quietly(false));
    s := Supplies(rule, a);
    s := Prepares(rule, from, s);
    s := Call(rule, from, s, Done);
    s := GiveUp(rule, from, s);
  }

  lemma NextSecret(rule: Rule, from: Cluster, s: Cluster, x: MessagingName) returns (t: Cluster)
    requires Reachable(rule, from, s) && (rule.Overlapping? || s.st.tracked.m == s.url.m)
    ensures Reachable(rule, from, t) && t == s.(url := Names(x, s.url.n))
  {
    t := Go(rule, from, s, SetURL(Messaging, Names(x, NoName)));
  }

  /** The end of a pass that has not found every child ready prunes everything but what is tracked and
      what is current. */
  lemma Prunes(rule: Rule, from: Cluster, s: Cluster) returns (t: Cluster)
    requires Reachable(rule, from, s) && s.parent.Running? && s.parent.pc.FinM? && !s.parent.Guard()
    requires !s.parent.spec.notify && s.parent.st.tracked.m != NoName
    ensures Reachable(rule, from, t)
    ensures t.held == s.held * Keep(s.parent) && t.kids == s.kids
  {
    t := Call(rule, from, s, Done);
    t := Call(rule, from, t, Done);
    t := FinishPrune(rule, from, t);
  }

  lemma FinishPrune(rule: Rule, from: Cluster, s: Cluster) returns (t: Cluster)
    requires Reachable(rule, from, s) && s.parent.Running? && s.parent.pc.FinAC?
    ensures Reachable(rule, from, t)
    ensures t.held == s.held * Keep(s.parent) && t.kids == s.kids
  {
    t := Call(rule, from, s, Done);
    t := Call(rule, from, t, Done);
  }

  /** The parent publishes the secret `b` and crashes before it reaches the children. */
  lemma RotatesAndCrashes(rule: Rule, from: Cluster, s: Cluster, b: MessagingName) returns (t: Cluster)
    requires Reachable(rule, from, s) && s.parent.Idle? && s.spec == Quietly(false)
    requires s.st.tracked == s.url && b != NoName
    ensures Reachable(rule, from, t)
    ensures t == s.(url := Names(b, s.url.n), held := s.held + {b}, cfg := Names(b, NoName))
  {
    t := NextSecret(rule, from, s, b);
    t := Opens(rule, from, t);
    t := Publishes(rule, from, t);
    t := Go(rule, from, t, ParentCrashes);
  }

  /** A child that was created but never ran rolls out whatever the config Secret holds now. */
  lemma RunsPod(rule: Rule, from: Cluster, s: Cluster, k: Kind) returns (t: Cluster)
    requires Reachable(rule, from, s) && s.kids.At(k).pass.Resting? && s.kids.At(k).log != []
    requires s.kids.At(k).recorded.None?
    ensures Reachable(rule, from, t) && t == s.(kids := s.kids.With(k, t.kids.At(k)))
    ensures var pod := Pod(Input(s.kids.At(k).Spec().names, s.cfg), s.cfg);
      && t.kids.At(k).log == s.kids.At(k).log && t.kids.At(k).pods == s.kids.At(k).pods + {pod}
      && AtCheck(s.kids.At(k).(pods := t.kids.At(k).pods), t.kids.At(k), s.cfg)
  {
    t := Deployed(rule, from, s, k);
    t := PodStarts(rule, from, t, k);
  }

  /** A pass that does not find every child ready prunes every secret that is neither tracked nor current. */
  lemma PassPrunes(rule: Rule, from: Cluster, s: Cluster) returns (t: Cluster)
    requires Reachable(rule, from, s) && s.parent.Idle? && s.url.m != NoName && s.st.tracked.m != NoName
    requires s.st.tracked.n == NoName
    requires s.spec == Quietly(false) && TEMPLATE in s.migrated && s.kids.worker == NOBODY
    ensures Reachable(rule, from, t)
    ensures t.held <= {s.st.tracked.m, s.url.m, NoName}
    ensures t.kids.api.pods == s.kids.api.pods
  {
    t := Prepares(rule, from, s);
    t := OverChildren(rule, from, t);
    assert !t.parent.ok.worker;
    t := Prunes(rule, from, t);
  }

  /** A second rotation before the first has been completed: from `a` to `b`, and on to `c` while `a` is
      still tracked.  The pass that follows prunes `b`, which an API pod is using. */
  lemma OverlapStrands(a: MessagingName, b: MessagingName, c: MessagingName)
    requires a != NoName && b != NoName && c != NoName && a != b && b != c
    ensures CanStrand(Overlapping, Start(Quietly(false)), API, b)
  {
    var rule, from := Overlapping, Start(Quietly(false));
    var s := CreatesAPI(rule, a);
    s := RotatesAndCrashes(rule, from, s, b);
    s := RunsPod(rule, from, s, API);
    var pod := Pod(Input(Names(a, NoName), Names(b, NoName)), Names(b, NoName));
    assert pod in s.kids.api.pods;
    s := NextSecret(rule, from, s, c);
    s := PassPrunes(rule, from, s);
    assert pod in s.kids.At(API).pods && pod.loaded.On(b.bus) == b;
    assert Stranded(s, API, b);
  }

  // ---------------------------------------------------------------- an early switch-off

  /** Notifications are off, and the messaging secret `a` is tracked and published. */
  predicate Without(s: Cluster, a: MessagingName) {
    && s.parent.Idle? && s.spec == Quietly(false) && TEMPLATE in s.migrated
    && s.url == Names(a, NoName) && s.st.tracked == Names(a, NoName) && !s.notifyURL && s.cfg == Names(a, NoName)
  }

  /** All three children exist for the messaging secret `a`, none has run yet, and the pass is over. */
  predicate ThreeNew(s: Cluster, a: MessagingName) {
    Without(s, a) && (forall k: Kind :: s.kids.At(k) == NOBODY.Push(KidSpec(TEMPLATE, Names(a, NoName))))
  }

  lemma CreatesAll(rule: Rule, a: MessagingName) returns (s: Cluster)
    requires a != NoName
    ensures Reachable(rule, Start(Quietly(false)), s) && ThreeNew(s, a)
  {
    var from := Start(Quietly(false));
    s := Supplies(rule, a);
    s := Prepares(rule, from, s);
    s := OverChildren(rule, from, s);
    s := GiveUp(rule, from, s);
  }

  /** Notifications are switched on; a first pass creates the TransportURL and waits for its secret. */
  lemma TurnsOn(rule: Rule, from: Cluster, s: Cluster, a: MessagingName) returns (t: Cluster)
    requires Reachable(rule, from, s) && Without(s, a) && a != NoName
    ensures Reachable(rule, from, t) && t.parent.Idle? && t.notifyURL && t.spec == Quietly(true)
    ensures t.kids == s.kids && t.url == s.url && t.migrated == s.migrated && t.st.tracked == s.st.tracked
  {
    t := Go(rule, from, s, SetNotify(true));
    t := Opens(rule, from, t);
    t := WaitsForSecret(rule, from, t);
  }

  lemma WaitsForSecret(rule: Rule, from: Cluster, s: Cluster) returns (t: Cluster)
    requires Reachable(rule, from, s) && s.parent.Running? && s.parent.pc.UrlN? && s.url.n == NoName
    ensures Reachable(rule, from, t) && t == s.(notifyURL := true, st := s.parent.st, parent := Idle)
  {
    t := Call(rule, from, s, Done);
    t := Call(rule, from, t, Done);
  }

  /** The secret `x` arrives; a second pass tracks it and publishes it. */
  lemma TracksAndPublishes(rule: Rule, from: Cluster, s: Cluster, x: NotificationsName) returns (t: Cluster)
    requires Reachable(rule, from, s) && s.parent.Idle? && s.notifyURL && s.spec == Quietly(true)
    requires s.url.m != NoName && s.url.n == NoName && s.st.tracked == s.url && x != NoName
    ensures Reachable(rule, from, t)
    ensures var names := Names(s.url.m, x);
      t == s.(url := names, held := t.held, cfg := names,
              parent := Running(HoldAC, s.spec, s.gen, names, s.st.(ready := false, tracked := names), NONE))
  {
    t := Go(rule, from, s, SetURL(Notifications, Names(NoName, x)));
    t := Opens(rule, from, t);
    t := OpensNotifications(rule, from, t);
    t := Publishes(rule, from, t);
  }

  /** It fails before the children. */
  lemma TracksAndFails(rule: Rule, from: Cluster, s: Cluster, x: NotificationsName) returns (t: Cluster)
    requires Reachable(rule, from, s) && s.parent.Idle? && s.notifyURL && s.spec == Quietly(true)
    requires s.url.m != NoName && s.url.n == NoName && s.st.tracked == s.url && x != NoName
    ensures Reachable(rule, from, t) && t.parent.Idle? && t.spec == s.spec && t.migrated == s.migrated
    ensures t.kids == s.kids && t.notifyURL
    ensures t.url == Names(s.url.m, x) && t.st.tracked == t.url && t.cfg == t.url
  {
    t := TracksAndPublishes(rule, from, s, x);
    t := GiveUp(rule, from, t);
  }

  lemma RunsAndReports(rule: Rule, from: Cluster, s: Cluster, k: Kind) returns (t: Cluster)
    requires Reachable(rule, from, s) && s.kids.At(k).pass.Resting? && s.kids.At(k).log != []
    requires s.kids.At(k).recorded.None? && s.kids.At(k).pods == {}
    ensures Reachable(rule, from, t) && t == s.(kids := s.kids.With(k, t.kids.At(k)))
    ensures t.kids.At(k).log == s.kids.At(k).log && t.kids.At(k).Reports(s.kids.At(k).Spec().names)
    ensures t.kids.At(k).pods == {Pod(Input(s.kids.At(k).Spec().names, s.cfg), s.cfg)}
  {
    t := RunsPod(rule, from, s, k);
    t := Reported(rule, from, t, k);
  }

  /** The three children roll out the published credentials under their old specs. */
  lemma AllReport(rule: Rule, from: Cluster, s: Cluster, names: Names) returns (t: Cluster)
    requires Reachable(rule, from, s)
    requires forall k: Kind :: s.kids.At(k) == NOBODY.Push(KidSpec(TEMPLATE, names))
    ensures Reachable(rule, from, t) && t == s.(kids := t.kids)
    ensures forall k: Kind :: t.kids.At(k).log == [KidSpec(TEMPLATE, names)] && t.kids.At(k).Reports(names)
    ensures forall k: Kind :: t.kids.At(k).pods == {Pod(Input(names, s.cfg), s.cfg)}
  {
    t := RunsAndReports(rule, from, s, API);
    t := RunsAndReports(rule, from, t, Worker);
    t := RunsAndReports(rule, from, t, Listener);
  }

  lemma OverReady(rule: Rule, from: Cluster, s: Cluster) returns (t: Cluster)
    requires Reachable(rule, from, s) && s.parent.Running? && s.parent.pc == Child(API) && s.parent.spec.tpl == TEMPLATE
    requires forall k: Kind :: s.kids.At(k).log != [] && s.kids.At(k).Spec() == KidSpec(TEMPLATE, s.parent.cur)
    requires forall k: Kind :: s.kids.At(k).Reports(s.parent.cur)
    ensures Reachable(rule, from, t) && t.parent.Running?
    ensures t == s.(parent := s.parent.(pc := FinM, ok := Trio(true, true, true), st := t.parent.st))
    ensures t.parent.st.tracked == s.parent.st.tracked
  {
    t := OverChildren(rule, from, s);
    forall k: Kind ensures Pushed(s, k) == s.kids.At(k) {
    }
    assert s.kids.At(API).Reports(s.parent.cur) && s.kids.At(Worker).Reports(s.parent.cur) &&
      s.kids.At(Listener).Reports(s.parent.cur);
    assert t.kids == s.kids;
  }

  lemma ReleasesNotifications(rule: Rule, from: Cluster, s: Cluster) returns (t: Cluster)
    requires Reachable(rule, from, s) && s.parent.Running? && s.parent.pc.FinM? && s.parent.Guard()
    requires !s.parent.spec.notify && s.parent.st.tracked.n != NoName
    ensures Reachable(rule, from, t) && t.kids == s.kids && s.parent.st.tracked.n !in t.held
  {
    t := Call(rule, from, s, Done);
    t := Call(rule, from, t, Done);
  }

  /** Notifications are switched on and off again before any child spec names their secret `x`.  The
      children roll out the credentials of `x` under specs that name no notifications secret; that is
      what the pass after the switch-off asks for, so it releases `x` at once, under the running pods. */
  lemma EarlyOffStrands(a: MessagingName, x: NotificationsName, k: Kind)
    requires a != NoName && x != NoName
    ensures CanStrand(EarlyOff, Start(Quietly(false)), k, x)
  {
    var rule, from := EarlyOff, Start(Quietly(false));
    var s := CreatesAll(rule, a);
    s := TurnsOn(rule, from, s, a);
    s := TracksAndFails(rule, from, s, x);
    s := AllReport(rule, from, s, Names(a, NoName));
    var pod := Pod(Input(Names(a, NoName), Names(a, x)), Names(a, x));
    assert pod in s.kids.At(k).pods;
    s := SwitchesOff(rule, from, s, a, x);
    assert pod in s.kids.At(k).pods && pod.loaded.On(x.bus) == x;
    assert Stranded(s, k, x);
  }

  lemma SwitchesOff(rule: Rule, from: Cluster, s: Cluster, a: MessagingName, x: NotificationsName) returns (t: Cluster)
    requires Reachable(rule, from, s) && rule.EarlyOff? && s.parent.Idle? && a != NoName && x != NoName
    requires s.spec == Quietly(true) && TEMPLATE in s.migrated && s.url == Names(a, x) && s.st.tracked == Names(a, x)
    requires forall k: Kind :: s.kids.At(k).log == [KidSpec(TEMPLATE, Names(a, NoName))]
    requires forall k: Kind :: s.kids.At(k).Reports(Names(a, NoName))
    ensures Reachable(rule, from, t) && t.kids == s.kids && x !in t.held
  {
    t := Go(rule, from, s, SetNotify(false));
    t := Prepares(rule, from, t);
    t := OverReady(rule, from, t);
    t := ReleasesNotifications(rule, from, t);
  }

  // ---------------------------------------------------------------- an old template

  /** The worker gets a Deployment for the specs without notifications, and then crashes. */
  lemma OldTemplate(rule: Rule, from: Cluster, s: Cluster, a: MessagingName) returns (t: Cluster)
    requires Reachable(rule, from, s) && ThreeNew(s, a)
    ensures Reachable(rule, from, t) && t == s.(kids := s.kids.With(Worker, t.kids.worker))
    ensures var kid := t.kids.worker;
      && kid.log == s.kids.worker.log && kid.pods == {} && kid.recorded.None? && kid.pass.Resting?
      && kid.tmpl == Some(Input(Names(a, NoName), Names(a, NoName)))
  {
    t := Deploys(rule, from, s, Worker);
    t := Go(rule, from, t, KidCrashes(Worker));
  }

  function PushAll(kids: Trio<Kid>, spec: KidSpec): Trio<Kid> {
    Trio(kids.api.Push(spec), kids.worker.Push(spec), kids.listener.Push(spec))
  }

  /** The pass writes all three child specs and then fails. */
  lemma NamesAll(rule: Rule, from: Cluster, s: Cluster) returns (t: Cluster)
    requires Reachable(rule, from, s) && s.parent.Running? && s.parent.pc == Child(API)
    ensures Reachable(rule, from, t) && t.st.tracked == s.parent.st.tracked
    ensures t == s.(kids := PushAll(s.kids, KidSpec(s.parent.spec.tpl, s.parent.cur)), st := t.st, parent := Idle)
  {
    t := OverChildren(rule, from, s);
    t := GiveUp(rule, from, t);
  }

  /** The secret `x` arrives; a pass tracks it, publishes it and names it in all three child specs. */
  lemma TracksAndNames(rule: Rule, from: Cluster, s: Cluster, x: NotificationsName) returns (t: Cluster)
    requires Reachable(rule, from, s) && s.parent.Idle? && s.notifyURL && s.spec == Quietly(true) &&
      TEMPLATE in s.migrated
    requires s.url.m != NoName && s.url.n == NoName && s.st.tracked == s.url && x != NoName
    ensures Reachable(rule, from, t) && t.parent.Idle? && t.spec == s.spec && t.migrated == s.migrated
    ensures t.kids == PushAll(s.kids, KidSpec(TEMPLATE, t.url))
    ensures t.url == Names(s.url.m, x) && t.st.tracked == t.url && t.cfg == t.url
  {
    t := TracksAndPublishes(rule, from, s, x);
    t := ToChildren(rule, from, t);
    t := NamesAll(rule, from, t);
  }

  /** The worker renders the new credentials but does not get to its Deployment; a pod of the old template
      starts and reads them. */
  lemma OldPod(rule: Rule, from: Cluster, s: Cluster) returns (t: Cluster)
    requires Reachable(rule, from, s) && s.kids.worker.pass.Resting? && s.kids.worker.log != [] &&
      s.kids.worker.tmpl.Some?
    ensures Reachable(rule, from, t)
    ensures var kid := s.kids.worker;
      t == s.(kids := s.kids.(worker := kid.(cfg := s.cfg, pods := kid.pods + {Pod(kid.tmpl.value, s.cfg)})))
  {
    t := Renders(rule, from, s, Worker);
    t := Go(rule, from, t, KidCrashes(Worker));
    t := PodStarts(rule, from, t, Worker);
  }

  /** All three children exist with this spec. */
  predicate AllHave(kids: Trio<Kid>, spec: KidSpec) {
    && kids.api.log != [] && kids.api.Spec() == spec
    && kids.worker.log != [] && kids.worker.Spec() == spec
    && kids.listener.log != [] && kids.listener.Spec() == spec
  }

  /** Notifications are switched off; a pass takes the secret out of the config Secret and the specs. */
  lemma Unnames(rule: Rule, from: Cluster, s: Cluster) returns (t: Cluster)
    requires Reachable(rule, from, s) && rule.NamedOff? && s.parent.Idle? && s.url.m != NoName
    requires s.spec == Quietly(true) && TEMPLATE in s.migrated && s.st.tracked == s.url
    requires AllHave(s.kids, KidSpec(TEMPLATE, s.url))
    ensures Reachable(rule, from, t) && t.parent.Idle? && t.spec == Quietly(false) && TEMPLATE in t.migrated
    ensures t.url == s.url && t.st.tracked == s.st.tracked && t.cfg == Names(s.url.m, NoName)
    ensures t.kids == PushAll(s.kids, KidSpec(TEMPLATE, t.cfg))
  {
    t := Go(rule, from, s, SetNotify(false));
    t := Prepares(rule, from, t);
    t := NamesAll(rule, from, t);
  }

  /** The worker's old template is again the one it wants, so its Deployment counts as rolled out. */
  lemma WorkerReports(rule: Rule, from: Cluster, s: Cluster) returns (t: Cluster)
    requires Reachable(rule, from, s) && s.kids.worker.pass.Resting? && s.kids.worker.log != []
    requires forall p <- s.kids.worker.pods :: p.input == Input(s.kids.worker.Spec().names, s.cfg)
    ensures Reachable(rule, from, t) && t == s.(kids := s.kids.With(Worker, t.kids.worker))
    ensures t.kids.worker.log == s.kids.worker.log && t.kids.worker.Reports(s.kids.worker.Spec().names)
    ensures t.kids.worker.pods == s.kids.worker.pods
  {
    t := Deploys(rule, from, s, Worker);
    t := Reported(rule, from, t, Worker);
  }

  lemma AllReportAgain(rule: Rule, from: Cluster, s: Cluster, names: Names) returns (t: Cluster)
    requires Reachable(rule, from, s) && s.cfg == names && AllHave(s.kids, KidSpec(TEMPLATE, names))
    requires s.kids.api.pass.Resting? && s.kids.api.recorded.None? && s.kids.api.pods == {}
    requires s.kids.listener.pass.Resting? && s.kids.listener.recorded.None? && s.kids.listener.pods == {}
    requires s.kids.worker.pass.Resting? && forall p <- s.kids.worker.pods :: p.input == Input(names, names)
    ensures Reachable(rule, from, t) && t == s.(kids := t.kids) && AllHave(t.kids, KidSpec(TEMPLATE, names))
    ensures forall k: Kind :: t.kids.At(k).Reports(names)
    ensures t.kids.worker.pods == s.kids.worker.pods
  {
    t := RunsAndReports(rule, from, s, API);
    t := WorkerReports(rule, from, t);
    t := RunsAndReports(rule, from, t, Listener);
    assert t.kids.api.Reports(names) && t.kids.worker.Reports(names) && t.kids.listener.Reports(names);
  }

  lemma LastPass(rule: Rule, from: Cluster, s: Cluster) returns (t: Cluster)
    requires Reachable(rule, from, s) && s.parent.Idle? && s.url.m != NoName && s.st.tracked == s.url &&
      s.url.n != NoName
    requires s.spec == Quietly(false) && TEMPLATE in s.migrated
    requires AllHave(s.kids, KidSpec(TEMPLATE, Names(s.url.m, NoName)))
    requires forall k: Kind :: s.kids.At(k).Reports(Names(s.url.m, NoName))
    ensures Reachable(rule, from, t) && t.kids == s.kids && s.url.n !in t.held
  {
    t := Prepares(rule, from, s);
    assert forall k: Kind :: t.kids.At(k).log != [] && t.kids.At(k).Spec() == KidSpec(TEMPLATE, t.parent.cur);
    t := OverReady(rule, from, t);
    t := ReleasesNotifications(rule, from, t);
  }

  /** The child has seen two specs, and its status is still that of a new one. */
  predicate TwoSpecs(kid: Kid, a: MessagingName, x: NotificationsName) {
    kid.pass.Resting? && kid.recorded.None? &&
      kid.log == [KidSpec(TEMPLATE, Names(a, NoName)), KidSpec(TEMPLATE, Names(a, x))]
  }

  /** The state before the switch-off: all specs name `x`, and a worker pod of the old template uses it. */
  lemma NamedAndOld(a: MessagingName, x: NotificationsName) returns (s: Cluster)
    requires a != NoName && x != NoName
    ensures Reachable(NamedOff, Start(Quietly(false)), s) && s.parent.Idle? && s.spec == Quietly(true)
    ensures TEMPLATE in s.migrated && s.url == Names(a, x) && s.st.tracked == s.url
    ensures TwoSpecs(s.kids.api, a, x) && TwoSpecs(s.kids.worker, a, x) && TwoSpecs(s.kids.listener, a, x)
    ensures s.kids.api.pods == {} && s.kids.listener.pods == {}
    ensures s.kids.worker.pods == {Pod(Input(Names(a, NoName), Names(a, NoName)), Names(a, x))}
  {
    var from := Start(Quietly(false));
    s := CreatesAll(NamedOff, a);
    assert s.kids.At(API) == s.kids.api && s.kids.At(Worker) == s.kids.worker && s.kids.At(Listener) == s.kids.listener;
    s := OldTemplate(NamedOff, from, s, a);
    s := TurnsOn(NamedOff, from, s, a);
    s := TracksAndNames(NamedOff, from, s, x);
    s := OldPod(NamedOff, from, s);
  }

  /** It does not help either to wait until all three child specs name the notifications secret `x`: as long
      as the children have not rolled it out, a pod of an old template may have read its credentials.  After
      the switch-off that template is the wanted one again, and nothing tells the pod from an up-to-date one. */
  lemma NamedOffStrands(a: MessagingName, x: NotificationsName)
    requires a != NoName && x != NoName
    ensures CanStrand(NamedOff, Start(Quietly(false)), Worker, x)
  {
    var from := Start(Quietly(false));
    var s := NamedAndOld(a, x);
    var pod := Pod(Input(Names(a, NoName), Names(a, NoName)), Names(a, x));
    s := Unnames(NamedOff, from, s);
    s := AllReportAgain(NamedOff, from, s, Names(a, NoName));
    s := LastPass(NamedOff, from, s);
    assert pod in s.kids.At(Worker).pods && pod.loaded.On(x.bus) == x;
    assert Stranded(s, Worker, x);
  }

  // ---------------------------------------------------------------- an orphan

  /** The switch-off that leaves a TransportURL behind for good can happen under orderly changes. */
  lemma OrphanIsReachable(a: MessagingName)
    requires a != NoName
    ensures exists s :: Reachable(Strict, Start(Quietly(false)), s) && Readiness.Orphaned(s)
  {
    var from := Start(Quietly(false));
    var s := CreatesAll(Strict, a);
    s := TurnsOn(Strict, from, s, a);
    s := Go(Strict, from, s, SetNotify(false));
  }
}
