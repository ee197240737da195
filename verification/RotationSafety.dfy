/** Rotation safety: under changes that do not overlap, every transport secret that some running pod
    uses holds the consumer finalizer, in every state of every run. */
module RotationSafety {
  import opened Cluster
  import opened Coherence
  import opened RotationInvariant

  /** All three children have rolled out their specs, and these name the notifications secret `x`. */
  predicate NotificationsRolledOut(s: Cluster, x: Name) {
    forall k: Kind :: s.kids.At(k).Reports(s.kids.At(k).Spec().names) && s.kids.At(k).Spec().names.n == x
  }

  /** No child asks for an empty notifications name, and no template that was made for the empty name and
      rendered without `x` is in use.  A child that does not exist yet does not matter. */
  predicate NotificationsClear(s: Cluster, x: Name) {
    forall k: Kind :: Clear(s.kids.At(k), Notifications, NoName, x)
  }

  /** A pass of the parent that runs with notifications on has yet to read the notifications secret. */
  predicate WillRead(s: Cluster) {
    s.parent.Running? && !s.parent.pc.Patch? && s.parent.spec.notify && Order(s.parent.pc) <= Order(UrlN)
  }

  /** Changes do not overlap.  A TransportURL is given another secret only while it has none or while the
      tracked name is the current one; with notifications off their TransportURL may be given any secret,
      but only while no pass that still runs with notifications on will read it.  Notifications are switched
      off only while their current name is tracked and, unless it is empty, the children are clear.
      Switching notifications on is never restricted. */
  predicate Orderly(s: Cluster, e: Event) {
    match e
    case SetURL(b, _) =>
      if b.Messaging? || s.spec.notify then s.url.On(b) == NoName || s.st.tracked.On(b) == s.url.On(b)
      else !WillRead(s)
    case SetNotify(on) =>
      on || !s.spec.notify
      || (s.st.tracked.n == s.url.n && (s.url.n == NoName || NotificationsClear(s, s.url.n)))
    case _ => true
  }

  /** Every transport secret used by a running pod holds the finalizer. */
  predicate Safe(s: Cluster) {
    forall k: Kind, p <- s.kids.At(k).pods :: Fits(p.loaded, s.held)
  }

  // ---------------------------------------------------------------- the invariant

  predicate On(spec: ParentSpec, b: Bus) { b.Messaging? || spec.notify }

  /** The running pass has read the TransportURL of `b`, or will not read it. */
  predicate PastRead(p: Pass, b: Bus)
    requires p.Running?
  {
    !p.pc.Patch? && (if b.Messaging? then Order(p.pc) >= 1 else p.spec.notify ==> Order(p.pc) >= 3)
  }

  predicate PastHold(p: Pass, b: Bus)
    requires p.Running?
  {
    !p.pc.Patch? && Order(p.pc) >= if b.Messaging? then 2 else 4
  }

  predicate Published(p: Pass)
    requires p.Running?
  {
    !p.pc.Patch? && Order(p.pc) > Order(Config)
  }

  predicate NamesWithin(s: Cluster) {
    forall k: Kind :: Within(s.kids.At(k), s.st.tracked, s.cfg)
  }

  predicate NamesHeld(s: Cluster) {
    Fits(s.cfg, s.held) && forall k: Kind :: KidHeld(s.kids.At(k), s.held)
  }

  /** A published name that is not yet tracked is still the current one. */
  predicate Frozen(s: Cluster, b: Bus) {
    s.cfg.On(b) != s.st.tracked.On(b) && s.cfg.On(b) != NoName ==>
      && On(s.spec, b)
      && s.url.On(b) == s.cfg.On(b)
      && (s.parent.Running? && !s.parent.pc.Patch? ==> On(s.parent.spec, b))
      && (s.parent.Running? && PastRead(s.parent, b) ==> s.parent.cur.On(b) == s.cfg.On(b))
  }

  /** A name read by the running pass that is not yet tracked is still the current one. */
  predicate ReadIsCurrent(s: Cluster, b: Bus) {
    s.parent.Running? && PastRead(s.parent, b)
    && s.parent.cur.On(b) != NoName && s.parent.cur.On(b) != s.st.tracked.On(b) ==>
      On(s.spec, b) && s.url.On(b) == s.parent.cur.On(b)
  }

  predicate OffIsTracked(s: Cluster) {
    !s.spec.notify && WillRead(s) ==> s.url.n == s.st.tracked.n
  }

  /** A switch-off is pending for children that may have left the empty notifications name behind. */
  predicate SwitchingOff(s: Cluster) {
    && s.st.tracked.n != NoName
    && (|| (!s.spec.notify
            && (s.cfg.n != NoName
                || (s.parent.Running? && s.parent.spec.notify && Order(s.parent.pc) <= Order(Config))))
        || (s.parent.Running? && !s.parent.spec.notify && Order(s.parent.pc) <= Order(Config) && s.cfg.n != NoName))
  }

  predicate LeftEmpty(s: Cluster) {
    SwitchingOff(s) ==> NotificationsClear(s, s.st.tracked.n)
  }

  predicate Chained(s: Cluster, b: Bus) {
    s.st.tracked.On(b) != NoName && s.cfg.On(b) != s.st.tracked.On(b) ==>
      forall k: Kind :: Chain(s.kids.At(k), b, s.cfg.On(b), s.st.tracked.On(b))
  }

  /** Child `k` has rolled out `x`, and on every bus without a tracked name that is to be released. */
  predicate RolledOut(s: Cluster, k: Kind, x: Names) {
    && Settled(s.kids.At(k), x)
    && forall b: Bus :: s.st.tracked.On(b) != NoName && s.st.tracked.On(b) != x.On(b) ==>
         Fresh(s.kids.At(k), b, x.On(b), s.st.tracked.On(b))
  }

  /** How the unsaved tracked name of the running pass differs from the persisted one. */
  predicate TrackedMove(s: Cluster, b: Bus)
    requires s.parent.Running?
  {
    var p := s.parent;
    var was, will := s.st.tracked.On(b), p.st.tracked.On(b);
    || will == was
    || (&& was == NoName
        && will != NoName
        && On(s.spec, b) && s.url.On(b) == will && On(p.spec, b)
        && (!p.pc.Patch? ==> p.cur.On(b) == will))
    || (&& was != NoName
        && will == s.cfg.On(b)
        && (!p.pc.Patch? ==> Order(p.pc) > (if b.Messaging? then Order(FinM) else Order(FinN)))
        && (forall k: Kind :: Free(s.kids.At(k), b, was))
        && (will != NoName ==> On(s.spec, b) && s.url.On(b) == will)
        && (will == NoName ==> b.Notifications? && !s.notifyURL))
  }

  predicate PassInv(s: Cluster) {
    s.parent.Running? ==>
      var p := s.parent;
      && (forall b: Bus :: TrackedMove(s, b))
      && (!p.pc.Patch? ==> forall b: Bus ::
            && (PastRead(p, b) ==> (p.cur.On(b) != NoName <==> On(p.spec, b)))
            && (!PastRead(p, b) ==> p.st.tracked.On(b) == s.st.tracked.On(b))
            && (PastHold(p, b) ==> p.cur.On(b) == NoName || p.cur.On(b) in s.held))
      && (p.pc.UrlN? || p.pc.HoldN? ==> p.spec.notify)
      && (p.pc.DropURL? ==>
            && !p.spec.notify && p.Guard()
            && p.st.tracked.n == s.st.tracked.n != NoName
            && forall k: Kind :: Free(s.kids.At(k), Notifications, s.st.tracked.n))
      && (Published(p) ==> s.cfg == p.cur)
      && (!p.pc.Patch? && Order(p.pc) <= Order(Prep) ==> p.ok == Trio(false, false, false))
      && (!p.pc.Patch? ==> forall k: Kind :: p.ok.At(k) ==> Published(p) && RolledOut(s, k, p.cur))
  }

  predicate Inv(s: Cluster) {
    && AllCoherent(s)
    && (!s.notifyURL ==> s.url.n == NoName)
    && NamesWithin(s)
    && NamesHeld(s)
    && (forall b: Bus :: Frozen(s, b) && ReadIsCurrent(s, b) && Chained(s, b))
    && OffIsTracked(s)
    && LeftEmpty(s)
    && PassInv(s)
  }

  lemma StartInv(spec: ParentSpec)
    ensures Inv(Start(spec))
  {
    assert KidNames(NOBODY) == {NOTHING};
  }

  // ---------------------------------------------------------------- children and pods

  lemma KidFree(s: Cluster, k: Kind, e: Event, b: Bus, x: Name)
    requires Enabled(s, e) && IsKidEvent(e) && e.k == k
    requires Free(s.kids.At(k), b, x) && x != NoName && s.cfg.On(b) != x
    ensures Free(KidEvent(s, k, e), b, x)
  {
    KidEventNames(s, k, e);
  }

  lemma KidEventNamesInv(s: Cluster, e: Event)
    requires Inv(s) && Enabled(s, e) && IsKidEvent(e)
    ensures NamesWithin(Apply(s, e)) && NamesHeld(Apply(s, e))
  {
    KidEventNames(s, e.k, e);
    assert Within(Apply(s, e).kids.At(e.k), s.st.tracked, s.cfg);
    assert KidHeld(Apply(s, e).kids.At(e.k), s.held);
  }

  lemma KidEventChainInv(s: Cluster, e: Event, b: Bus)
    requires Inv(s) && Enabled(s, e) && IsKidEvent(e)
    ensures var t := Apply(s, e); Frozen(t, b) && ReadIsCurrent(t, b) && Chained(t, b)
  {
    assert Frozen(s, b) && ReadIsCurrent(s, b) && Chained(s, b);
    if s.st.tracked.On(b) != NoName && s.cfg.On(b) != s.st.tracked.On(b) {
      KidEventChain(s, e.k, e, b, s.st.tracked.On(b));
    }
  }

  lemma KidEventLeftEmpty(s: Cluster, e: Event)
    requires Inv(s) && Enabled(s, e) && IsKidEvent(e)
    ensures LeftEmpty(Apply(s, e))
  {
    if SwitchingOff(s) {
      assert Clear(s.kids.At(e.k), Notifications, NoName, s.st.tracked.n);
      KidEventClear(s, e.k, e, Notifications, NoName, s.st.tracked.n);
    }
  }

  lemma KidEventAllFree(s: Cluster, e: Event, b: Bus, x: Name)
    requires Enabled(s, e) && IsKidEvent(e) && x != NoName && s.cfg.On(b) != x
    requires forall k: Kind :: Free(s.kids.At(k), b, x)
    ensures forall k: Kind :: Free(Apply(s, e).kids.At(k), b, x)
  {
    KidFree(s, e.k, e, b, x);
    assert forall k: Kind :: k != e.k ==> Apply(s, e).kids.At(k) == s.kids.At(k);
  }

  lemma KidEventTrackedMove(s: Cluster, e: Event, b: Bus)
    requires Inv(s) && Enabled(s, e) && IsKidEvent(e) && s.parent.Running?
    ensures TrackedMove(Apply(s, e), b)
  {
    assert TrackedMove(s, b) && Frozen(s, b);
    var was := s.st.tracked.On(b);
    assert Apply(s, e) == s.(kids := Apply(s, e).kids);
    if was != NoName && s.cfg.On(b) != was && forall k: Kind :: Free(s.kids.At(k), b, was) {
      KidEventAllFree(s, e, b, was);
    }
  }

  lemma KidEventRolledOut(s: Cluster, e: Event, x: Names)
    requires Inv(s) && Enabled(s, e) && IsKidEvent(e) && s.cfg == x && RolledOut(s, e.k, x)
    ensures RolledOut(Apply(s, e), e.k, x)
  {
    KidEventSettled(s, e.k, e, x);
    forall b: Bus | s.st.tracked.On(b) != NoName && s.st.tracked.On(b) != x.On(b)
      ensures Fresh(Apply(s, e).kids.At(e.k), b, x.On(b), s.st.tracked.On(b))
    {
      assert Chained(s, b);
      KidEventFresh(s, e.k, e, b, s.st.tracked.On(b));
    }
  }

  lemma KidEventPassInv(s: Cluster, e: Event)
    requires Inv(s) && Enabled(s, e) && IsKidEvent(e)
    ensures PassInv(Apply(s, e))
  {
    if s.parent.Running? {
      var p, k := s.parent, e.k;
      var t := Apply(s, e);
      if p.ok.At(k) && !p.pc.Patch? {
        KidEventRolledOut(s, e, p.cur);
      }
      forall b: Bus ensures TrackedMove(t, b) {
        KidEventTrackedMove(s, e, b);
      }
      if p.pc.DropURL? {
        assert Published(p) && PastRead(p, Notifications);
        KidFree(s, k, e, Notifications, s.st.tracked.n);
      }
    }
  }

  lemma KidEventInv(s: Cluster, e: Event)
    requires Inv(s) && Enabled(s, e) && IsKidEvent(e)
    ensures Inv(Apply(s, e))
  {
    ApplyCoherent(s, e);
    KidEventNamesInv(s, e);
    forall b: Bus ensures var t := Apply(s, e); Frozen(t, b) && ReadIsCurrent(t, b) && Chained(t, b) {
      KidEventChainInv(s, e, b);
    }
    KidEventLeftEmpty(s, e);
    KidEventPassInv(s, e);
  }

  // ---------------------------------------------------------------- the environment

  /** Once all children have rolled out the notifications secret, as their statuses report, they are clear. */
  lemma RolledOutIsClear(s: Cluster, x: Name)
    requires AllCoherent(s) && NotificationsRolledOut(s, x) && x != NoName
    ensures NotificationsClear(s, x)
  {
    forall k: Kind ensures Clear(s.kids.At(k), Notifications, NoName, x) {
      ReportsSettled(s.kids.At(k), s.kids.At(k).Spec().names);
    }
  }

  lemma SetURLInv(s: Cluster, e: Event)
    requires Inv(s) && Enabled(s, e) && e.SetURL? && Orderly(s, e)
    ensures Inv(Apply(s, e))
  {
    var t := Apply(s, e);
    forall b: Bus ensures Frozen(t, b) && ReadIsCurrent(t, b) && Chained(t, b) {
      assert Frozen(s, b) && ReadIsCurrent(s, b) && Chained(s, b);
    }
    if s.parent.Running? {
      forall b: Bus ensures TrackedMove(t, b) {
        assert TrackedMove(s, b);
        assert t.url.On(b) == if b == e.b then e.names.On(b) else s.url.On(b);
      }
    }
  }

  lemma SetNotifyInv(s: Cluster, e: Event)
    requires Inv(s) && Enabled(s, e) && e.SetNotify? && Orderly(s, e)
    ensures Inv(Apply(s, e))
  {
    var t := Apply(s, e);
    forall b: Bus ensures Frozen(t, b) && ReadIsCurrent(t, b) && Chained(t, b) {
      assert Frozen(s, b) && ReadIsCurrent(s, b) && Chained(s, b);
    }
    if s.parent.Running? {
      forall b: Bus ensures TrackedMove(t, b) {
        assert TrackedMove(s, b);
      }
    }
  }

  lemma OtherEnvironmentInv(s: Cluster, e: Event)
    requires Inv(s) && Enabled(s, e) && (e.SetCredential? || e.Edit? || e.Migrates? || e.Prepares?)
    ensures Inv(Apply(s, e))
  {
    var t := Apply(s, e);
    forall b: Bus ensures Frozen(t, b) && ReadIsCurrent(t, b) && Chained(t, b) {
      assert Frozen(s, b) && ReadIsCurrent(s, b) && Chained(s, b);
    }
    if s.parent.Running? {
      forall b: Bus ensures TrackedMove(t, b) {
        assert TrackedMove(s, b);
      }
    }
  }

  // ---------------------------------------------------------------- the parent

  lemma ParentStartsInv(s: Cluster)
    requires Inv(s) && s.parent.Idle?
    ensures Inv(Apply(s, ParentStarts))
  {
    var t := Apply(s, ParentStarts);
    forall b: Bus ensures Frozen(t, b) && ReadIsCurrent(t, b) && Chained(t, b) {
      assert Frozen(s, b) && ReadIsCurrent(s, b) && Chained(s, b);
    }
  }

  lemma BailInv(s: Cluster)
    requires Inv(s)
    ensures Inv(s.(parent := Bail(s.parent))) && Inv(s.(parent := Idle))
  {
    var t := s.(parent := Bail(s.parent));
    forall b: Bus ensures Frozen(t, b) && ReadIsCurrent(t, b) && Chained(t, b) {
      assert Frozen(s, b) && ReadIsCurrent(s, b) && Chained(s, b);
    }
    if t.parent.Running? {
      forall b: Bus ensures TrackedMove(t, b) {
        assert TrackedMove(s, b);
      }
    }
    var i := s.(parent := Idle);
    forall b: Bus ensures Frozen(i, b) && ReadIsCurrent(i, b) && Chained(i, b) {
      assert Frozen(s, b) && ReadIsCurrent(s, b) && Chained(s, b);
    }
  }

  /** Under the guard no child uses a tracked name that is not the current one. */
  lemma GuardFrees(s: Cluster, b: Bus)
    requires Inv(s) && s.parent.Running? && Published(s.parent) && s.parent.Guard()
    requires s.st.tracked.On(b) != NoName && s.parent.cur.On(b) != s.st.tracked.On(b)
    ensures forall k: Kind :: Free(s.kids.At(k), b, s.st.tracked.On(b))
  {
    assert Chained(s, b);
    forall k: Kind ensures Free(s.kids.At(k), b, s.st.tracked.On(b)) {
      assert s.parent.ok.At(k);
      assert RolledOut(s, k, s.parent.cur);
      SettledIsFree(s.kids.At(k), b, s.parent.cur, s.st.tracked.On(b));
    }
  }

  /** Taking the finalizer from a set of names that no child uses keeps the invariant. */
  lemma ReleaseInv(s: Cluster, held: set<Name>)
    requires Inv(s) && s.parent.Running? && !s.parent.pc.Patch? && Published(s.parent)
    requires held <= s.held
    requires forall b: Bus, k: Kind, x <- KidNames(s.kids.At(k)) :: x.On(b) in s.held - held ==> x.On(b) == NoName
    requires forall b: Bus :: s.parent.cur.On(b) in s.held - held ==> s.parent.cur.On(b) == NoName
    ensures Inv(s.(held := held))
  {
    var t := s.(held := held);
    assert NamesHeld(t) by {
      forall k: Kind ensures KidHeld(t.kids.At(k), held) {
        assert KidHeld(s.kids.At(k), s.held);
      }
    }
    forall b: Bus ensures Frozen(t, b) && ReadIsCurrent(t, b) && Chained(t, b) && TrackedMove(t, b) {
      assert Frozen(s, b) && ReadIsCurrent(s, b) && Chained(s, b) && TrackedMove(s, b);
    }
  }

  lemma HoldEffectInv(s: Cluster, o: Outcome)
    requires Inv(s) && s.parent.Running? && (s.parent.pc.HoldM? || s.parent.pc.HoldN? || s.parent.pc.UrlN? ||
      s.parent.pc.HoldAC?)
    ensures Inv(Effect(s, o))
  {
    var t := Effect(s, o);
    forall k: Kind ensures KidHeld(t.kids.At(k), t.held) {
      assert KidHeld(s.kids.At(k), s.held);
    }
    forall b: Bus ensures Frozen(t, b) && ReadIsCurrent(t, b) && Chained(t, b) && TrackedMove(t, b) {
      assert Frozen(s, b) && ReadIsCurrent(s, b) && Chained(s, b) && TrackedMove(s, b);
    }
  }

  /** A name that is neither tracked nor published is nowhere in a child. */
  lemma UnusedIsClear(kid: Kid, b: Bus, a: Names, was: Names, c: Name, o: Name)
    requires Within(kid, a, was) && c != NoName && c != a.On(b) && c != was.On(b)
    ensures Clear(kid, b, c, o)
  {
    assert kid.tmpl.Some? ==> kid.tmpl.value.names in KidNames(kid);
    forall p | p in kid.pods ensures p.input.names.On(b) != c {
      PodNamesMember(kid.pods, p);
      assert p.input.names in KidNames(kid);
    }
    assert kid.pass.Working? ==> kid.pass.spec.names in KidNames(kid);
    assert kid.Spec().names in KidNames(kid);
  }

  /** Publishing the names that the pass has read. */
  lemma ConfigChained(s: Cluster, o: Outcome, b: Bus)
    requires Inv(s) && s.parent.Running? && s.parent.pc.Config?
    ensures Chained(Effect(s, o), b)
  {
    var t := Effect(s, o);
    var c, was := s.parent.cur.On(b), s.st.tracked.On(b);
    assert Chained(s, b) && Frozen(s, b) && PastRead(s.parent, b);
    if was != NoName && c != was && c != s.cfg.On(b) {
      forall k: Kind ensures Chain(t.kids.At(k), b, c, was) {
        var kid := s.kids.At(k);
        if c == NoName {
          assert b.Notifications? && SwitchingOff(s);
          assert Clear(kid, b, c, was);
        } else {
          assert Within(kid, s.st.tracked, s.cfg);
          UnusedIsClear(kid, b, s.st.tracked, s.cfg, c, was);
        }
        ClearChains(kid, b, c, was);
      }
    }
  }

  lemma ConfigEffectInv(s: Cluster, o: Outcome)
    requires Inv(s) && s.parent.Running? && s.parent.pc.Config?
    ensures Inv(Effect(s, o))
  {
    var t := Effect(s, o);
    forall b: Bus ensures Frozen(t, b) && ReadIsCurrent(t, b) && Chained(t, b) && TrackedMove(t, b) {
      assert Frozen(s, b) && ReadIsCurrent(s, b) && TrackedMove(s, b);
      ConfigChained(s, o, b);
    }
    assert NamesWithin(t) by {
      forall k: Kind ensures Within(t.kids.At(k), t.st.tracked, t.cfg) {
        assert Within(s.kids.At(k), s.st.tracked, s.cfg);
        forall x, b: Bus | x in KidNames(s.kids.At(k))
          ensures x.On(b) == NoName || x.On(b) == t.st.tracked.On(b) || x.On(b) == t.cfg.On(b)
        {
          assert Frozen(s, b) && PastRead(s.parent, b);
        }
      }
    }
    assert Fits(t.cfg, t.held) by {
      forall b: Bus ensures t.cfg.On(b) == NoName || t.cfg.On(b) in t.held {
        assert PastHold(s.parent, b);
      }
    }
    assert PastRead(s.parent, Notifications);
    assert SwitchingOff(t) ==> SwitchingOff(s);
  }

  lemma PushChain(kid: Kid, spec: KidSpec, b: Bus, o: Name)
    requires Coherent(kid) && Chain(kid, b, spec.names.On(b), o)
    ensures Chain(kid.Push(spec), b, spec.names.On(b), o)
  {
    assert Marked(kid.Push(spec), b, spec.names.On(b), o) == Marked(kid, b, spec.names.On(b), o);
  }

  lemma ChildEffectNames(s: Cluster, o: Outcome)
    requires Inv(s) && s.parent.Running? && s.parent.pc.Child?
    ensures var t := Effect(s, o); AllCoherent(t) && NamesWithin(t) && NamesHeld(t)
  {
    var t, p, k := Effect(s, o), s.parent, s.parent.pc.kind;
    var spec := KidSpec(p.spec.tpl, p.cur);
    PushCoherent(s.kids.At(k), spec);
    PushNames(s.kids.At(k), spec);
    assert s.cfg == p.cur;
    assert Within(t.kids.At(k), t.st.tracked, t.cfg);
    assert KidHeld(t.kids.At(k), t.held);
  }

  lemma PushClear(kid: Kid, spec: KidSpec, o: Name)
    requires Coherent(kid) && Clear(kid, Notifications, NoName, o) && spec.names.n != NoName
    ensures Clear(kid.Push(spec), Notifications, NoName, o)
  {
    assert Marked(kid.Push(spec), Notifications, NoName, o) == Marked(kid, Notifications, NoName, o);
  }

  lemma PushRolledOut(s: Cluster, k: Kind, spec: KidSpec)
    requires RolledOut(s, k, spec.names)
    ensures RolledOut(s.(kids := s.kids.With(k, s.kids.At(k).Push(spec))), k, spec.names)
  {
    var kid := s.kids.At(k);
    assert kid.Push(spec).tmpl == kid.tmpl && kid.Push(spec).pods == kid.pods;
    forall b: Bus | s.st.tracked.On(b) != NoName && s.st.tracked.On(b) != spec.names.On(b)
      ensures Fresh(kid.Push(spec), b, spec.names.On(b), s.st.tracked.On(b))
    {
      assert Fresh(kid, b, spec.names.On(b), s.st.tracked.On(b));
    }
  }

  lemma ChildEffectChained(s: Cluster, o: Outcome, b: Bus)
    requires Inv(s) && s.parent.Running? && s.parent.pc.Child?
    ensures var t := Effect(s, o); Frozen(t, b) && ReadIsCurrent(t, b) && Chained(t, b) && TrackedMove(t, b)
  {
    assert Frozen(s, b) && ReadIsCurrent(s, b) && Chained(s, b) && TrackedMove(s, b);
    assert s.cfg == s.parent.cur;
    if s.st.tracked.On(b) != NoName && s.cfg.On(b) != s.st.tracked.On(b) {
      PushChain(s.kids.At(s.parent.pc.kind), KidSpec(s.parent.spec.tpl, s.parent.cur), b, s.st.tracked.On(b));
    }
  }

  lemma ChildEffectClear(s: Cluster, o: Outcome)
    requires Inv(s) && s.parent.Running? && s.parent.pc.Child?
    ensures LeftEmpty(Effect(s, o))
  {
    var p, k := s.parent, s.parent.pc.kind;
    if SwitchingOff(Effect(s, o)) {
      assert Published(p) && PastRead(p, Notifications);
      assert SwitchingOff(s) && s.cfg == p.cur;
      assert p.spec.notify;
      assert Clear(s.kids.At(k), Notifications, NoName, s.st.tracked.n);
      PushClear(s.kids.At(k), KidSpec(p.spec.tpl, p.cur), s.st.tracked.n);
    }
  }

  lemma ChildEffectRolledOut(s: Cluster, o: Outcome, j: Kind)
    requires Inv(s) && s.parent.Running? && s.parent.pc.Child? && s.parent.ok.At(j)
    ensures RolledOut(Effect(s, o), j, s.parent.cur)
  {
    assert RolledOut(s, j, s.parent.cur);
    if j == s.parent.pc.kind {
      PushRolledOut(s, j, KidSpec(s.parent.spec.tpl, s.parent.cur));
    }
  }

  lemma ChildEffectInv(s: Cluster, o: Outcome)
    requires Inv(s) && s.parent.Running? && s.parent.pc.Child?
    ensures Inv(Effect(s, o))
  {
    var t := Effect(s, o);
    ChildEffectNames(s, o);
    ChildEffectClear(s, o);
    forall b: Bus ensures Frozen(t, b) && ReadIsCurrent(t, b) && Chained(t, b) && TrackedMove(t, b) {
      ChildEffectChained(s, o, b);
    }
    forall j: Kind | s.parent.ok.At(j) ensures RolledOut(t, j, s.parent.cur) {
      ChildEffectRolledOut(s, o, j);
    }
  }

  lemma FinEffectInv(s: Cluster, o: Outcome)
    requires Inv(s) && s.parent.Running? && (s.parent.pc.FinM? || s.parent.pc.FinN?)
    ensures Inv(Effect(s, o))
  {
    var p := s.parent;
    var b := if p.pc.FinM? then Messaging else Notifications;
    var held := Effect(s, o).held;
    assert TrackedMove(s, b) && PastRead(p, b);
    if s.held - held != {} && p.st.tracked.On(b) != NoName {
      assert p.st.tracked.On(b) == s.st.tracked.On(b);
      GuardFrees(s, b);
    }
    ReleaseInv(s, held);
  }

  lemma PruneEffectInv(s: Cluster, o: Outcome)
    requires Inv(s) && s.parent.Running? && s.parent.pc.PruneT?
    ensures Inv(Effect(s, o))
  {
    var p := s.parent;
    forall b: Bus, k: Kind, x | x in KidNames(s.kids.At(k)) && x.On(b) in s.held - Effect(s, o).held
      ensures x.On(b) == NoName
    {
      assert TrackedMove(s, b) && PastRead(p, b);
      assert Within(s.kids.At(k), s.st.tracked, s.cfg);
      assert s.cfg == p.cur;
    }
    ReleaseInv(s, Effect(s, o).held);
  }

  lemma DropEffectInv(s: Cluster, o: Outcome)
    requires Inv(s) && s.parent.Running? && (s.parent.pc.DropURL? || s.parent.pc.FinAC? || s.parent.pc.PruneAC?)
    ensures Inv(Effect(s, o))
  {
    var t := Effect(s, o);
    forall b: Bus ensures Frozen(t, b) && ReadIsCurrent(t, b) && Chained(t, b) && TrackedMove(t, b) {
      assert Frozen(s, b) && ReadIsCurrent(s, b) && Chained(s, b) && TrackedMove(s, b) && PastRead(s.parent, b);
    }
  }

  /** Persisting the status of the pass. */
  lemma PatchChained(s: Cluster, b: Bus)
    requires Inv(s) && s.parent.Running? && s.parent.pc.Patch?
    ensures Chained(s.(st := s.parent.st), b)
  {
    assert TrackedMove(s, b) && Frozen(s, b);
    var was, will, c := s.st.tracked.On(b), s.parent.st.tracked.On(b), s.cfg.On(b);
    assert Chained(s, b);
    if will != was && will != NoName && c != will {
      assert was == NoName && c == NoName;
      forall k: Kind ensures Chain(s.kids.At(k), b, c, will) {
        var kid := s.kids.At(k);
        assert Within(kid, s.st.tracked, s.cfg);
        assert kid.Spec().names in KidNames(kid) && kid.cfg in KidNames(kid);
        assert kid.tmpl.Some? ==> kid.tmpl.value.names in KidNames(kid) && kid.tmpl.value.conf in KidNames(kid);
        assert kid.pass.Working? ==> kid.pass.spec.names in KidNames(kid) && kid.pass.conf in KidNames(kid);
        forall p | p in kid.pods
          ensures p.loaded.On(b) == NoName && p.input.names.On(b) == NoName && p.input.conf.On(b) == NoName
        {
          PodNamesMember(kid.pods, p);
          assert p.loaded in KidNames(kid) && p.input.names in KidNames(kid) && p.input.conf in KidNames(kid);
        }
      }
    }
  }

  lemma PatchWithin(s: Cluster)
    requires Inv(s) && s.parent.Running? && s.parent.pc.Patch?
    ensures NamesWithin(s.(st := s.parent.st))
  {
    var t := s.(st := s.parent.st);
    forall k: Kind ensures Within(t.kids.At(k), t.st.tracked, t.cfg) {
      var kid := s.kids.At(k);
      assert Within(kid, s.st.tracked, s.cfg);
      forall x, b: Bus | x in KidNames(kid)
        ensures x.On(b) == NoName || x.On(b) == t.st.tracked.On(b) || x.On(b) == t.cfg.On(b)
      {
        assert TrackedMove(s, b);
      }
    }
  }

  lemma PatchEffectInv(s: Cluster, o: Outcome)
    requires Inv(s) && s.parent.Running? && s.parent.pc.Patch?
    ensures Inv(Effect(s, o))
  {
    var t := Effect(s, o);
    PatchWithin(s);
    forall b: Bus ensures Frozen(t, b) && ReadIsCurrent(t, b) && Chained(t, b) && TrackedMove(t, b) {
      assert Frozen(s, b) && ReadIsCurrent(s, b) && TrackedMove(s, b);
      PatchChained(s, b);
    }
    assert TrackedMove(s, Notifications) && Frozen(s, Notifications);
    assert SwitchingOff(t) ==> SwitchingOff(s);
  }

  lemma EffectInv(s: Cluster, o: Outcome)
    requires Inv(s) && s.parent.Running?
    ensures Inv(Effect(s, o))
  {
    match s.parent.pc
    case HoldM => HoldEffectInv(s, o);
    case UrlN => HoldEffectInv(s, o);
    case HoldN => HoldEffectInv(s, o);
    case HoldAC => HoldEffectInv(s, o);
    case Config => ConfigEffectInv(s, o);
    case Child(_) => ChildEffectInv(s, o);
    case FinM => FinEffectInv(s, o);
    case FinN => FinEffectInv(s, o);
    case DropURL => DropEffectInv(s, o);
    case FinAC => DropEffectInv(s, o);
    case PruneT => PruneEffectInv(s, o);
    case PruneAC => DropEffectInv(s, o);
    case Patch => PatchEffectInv(s, o);
    case _ =>
  }

  /** The pass moves on, with the same names and the same tracked names. */
  lemma MoveInv(t: Cluster, q: Pass)
    requires Inv(t) && t.parent.Running? && !t.parent.pc.Patch? && q.Running?
    requires q.spec == t.parent.spec && q.cur == t.parent.cur && q.st.tracked == t.parent.st.tracked
    requires Order(q.pc) > Order(t.parent.pc)
    requires forall b: Bus :: PastRead(t.parent, b) || (!PastRead(q, b) && !PastHold(q, b))
    requires forall b: Bus :: PastHold(q, b) && !PastHold(t.parent, b) ==>
      q.cur.On(b) == NoName || q.cur.On(b) in t.held
    requires q.pc.UrlN? || q.pc.HoldN? ==> q.spec.notify
    requires !q.pc.DropURL?
    requires Published(q) ==> t.cfg == q.cur
    requires !q.pc.Patch? && Order(q.pc) <= Order(Prep) ==> q.ok == Trio(false, false, false)
    requires !q.pc.Patch? ==> forall k: Kind :: q.ok.At(k) ==> Published(q) && RolledOut(t, k, q.cur)
    ensures Inv(t.(parent := q))
  {
    var u := t.(parent := q);
    forall b: Bus ensures Frozen(u, b) && ReadIsCurrent(u, b) && Chained(u, b) && TrackedMove(u, b) {
      assert Frozen(t, b) && ReadIsCurrent(t, b) && Chained(t, b) && TrackedMove(t, b);
    }
    assert SwitchingOff(u) ==> SwitchingOff(t);
  }

  /** The pass has read the current name of `b` from its TransportURL. */
  predicate HasRead(t: Cluster, q: Pass, b: Bus) {
    && t.parent.Running? && q.Running? && t.url.On(b) != NoName && On(t.parent.spec, b)
    && t.parent.pc == (if b.Messaging? then UrlM else UrlN)
    && q == t.parent.(pc := if b.Messaging? then HoldM else HoldN,
                      cur := t.parent.cur.Take(b, t.url),
                      st := t.parent.st.(tracked := FirstTracked(t.parent.st.tracked, b, t.url)))
  }

  lemma HasReadPass(t: Cluster, q: Pass, here: Bus, b: Bus)
    requires Inv(t) && HasRead(t, q, here)
    ensures PastRead(q, b) ==> (q.cur.On(b) != NoName <==> On(q.spec, b))
    ensures !PastRead(q, b) ==> q.st.tracked.On(b) == t.st.tracked.On(b)
    ensures PastHold(q, b) ==> q.cur.On(b) == NoName || q.cur.On(b) in t.held
  {
    var p := t.parent;
    assert (PastRead(p, b) ==> (p.cur.On(b) != NoName <==> On(p.spec, b)))
      && (!PastRead(p, b) ==> p.st.tracked.On(b) == t.st.tracked.On(b))
      && (PastHold(p, b) ==> p.cur.On(b) == NoName || p.cur.On(b) in t.held);
  }

  lemma HasReadChain(t: Cluster, q: Pass, here: Bus, b: Bus)
    requires Inv(t) && HasRead(t, q, here)
    ensures var u := t.(parent := q); Frozen(u, b) && ReadIsCurrent(u, b) && Chained(u, b) && TrackedMove(u, b)
  {
    assert Frozen(t, b) && ReadIsCurrent(t, b) && Chained(t, b) && TrackedMove(t, b);
  }

  lemma HasReadInv(t: Cluster, q: Pass, here: Bus)
    requires Inv(t) && HasRead(t, q, here)
    ensures Inv(t.(parent := q))
  {
    var u := t.(parent := q);
    forall b: Bus
      ensures Frozen(u, b) && ReadIsCurrent(u, b) && Chained(u, b) && TrackedMove(u, b)
      ensures PastRead(q, b) ==> (q.cur.On(b) != NoName <==> On(q.spec, b))
      ensures !PastRead(q, b) ==> q.st.tracked.On(b) == u.st.tracked.On(b)
      ensures PastHold(q, b) ==> q.cur.On(b) == NoName || q.cur.On(b) in u.held
    {
      HasReadChain(t, q, here, b);
      HasReadPass(t, q, here, b);
    }
    assert SwitchingOff(u) ==> SwitchingOff(t);
  }

  lemma ReadNextInv(s: Cluster, o: Outcome)
    requires Inv(s) && s.parent.Running? && (s.parent.pc.UrlM? || s.parent.pc.UrlN?)
    requires Inv(Effect(s, o))
    ensures Inv(Effect(s, o).(parent := Next(s, o)))
  {
    var t := Effect(s, o);
    var here := if s.parent.pc.UrlM? then Messaging else Notifications;
    if s.url.On(here) == NoName {
      BailInv(t);
    } else {
      HasReadInv(t, Next(s, o), here);
    }
  }

  lemma ReportsRolledOut(t: Cluster, k: Kind, x: Names)
    requires Inv(t) && t.cfg == x && t.kids.At(k).Reports(x)
    ensures RolledOut(t, k, x)
  {
    ReportsSettled(t.kids.At(k), x);
    forall b: Bus | t.st.tracked.On(b) != NoName && t.st.tracked.On(b) != x.On(b)
      ensures Fresh(t.kids.At(k), b, x.On(b), t.st.tracked.On(b))
    {
      assert Chained(t, b) && Chain(t.kids.At(k), b, x.On(b), t.st.tracked.On(b));
    }
  }

  lemma ChildNextInv(s: Cluster, o: Outcome)
    requires Inv(s) && s.parent.Running? && s.parent.pc.Child?
    requires Inv(Effect(s, o))
    ensures Inv(Effect(s, o).(parent := Next(s, o)))
  {
    var t, q, k := Effect(s, o), Next(s, o), s.parent.pc.kind;
    if q.ok.At(k) {
      ReportsRolledOut(t, k, q.cur);
    }
    MoveInv(t, q);
  }

  /** The tracked name of bus `b` becomes the current one, or stays. */
  lemma TrackInv(t: Cluster, q: Pass, b: Bus)
    requires Inv(t) && t.parent.Running? && Published(t.parent) && q.Running? && !q.pc.Patch? && !q.pc.DropURL?
    requires q.spec == t.parent.spec && q.cur == t.parent.cur && q.ok == t.parent.ok
    requires Order(q.pc) > Order(t.parent.pc) >= (if b.Messaging? then Order(FinM) else Order(FinN))
    requires q.st.tracked == t.parent.st.tracked.Take(b, q.st.tracked)
    requires TrackedMove(t.(parent := q), b)
    ensures Inv(t.(parent := q))
  {
    var u := t.(parent := q);
    forall c: Bus ensures Frozen(u, c) && ReadIsCurrent(u, c) && Chained(u, c) && TrackedMove(u, c) &&
      PastRead(t.parent, c) {
      assert Frozen(t, c) && ReadIsCurrent(t, c) && Chained(t, c) && TrackedMove(t, c);
    }
  }

  lemma FinNextInv(s: Cluster, o: Outcome)
    requires Inv(s) && s.parent.Running? && (s.parent.pc.FinM? || s.parent.pc.FinN?)
    requires !Next(s, o).pc.DropURL?
    requires Inv(Effect(s, o))
    ensures Inv(Effect(s, o).(parent := Next(s, o)))
  {
    var t, p, q := Effect(s, o), s.parent, Next(s, o);
    var b := if p.pc.FinM? then Messaging else Notifications;
    assert TrackedMove(s, b) && PastRead(p, b) && ReadIsCurrent(s, b);
    if p.Guard() && s.st.tracked.On(b) != NoName && p.cur.On(b) != s.st.tracked.On(b) {
      GuardFrees(s, b);
    }
    TrackInv(t, q, b);
  }

  lemma FinDropInv(s: Cluster, o: Outcome)
    requires Inv(s) && s.parent.Running? && s.parent.pc.FinN? && Next(s, o).pc.DropURL?
    requires Inv(Effect(s, o))
    ensures Inv(Effect(s, o).(parent := Next(s, o)))
  {
    var t := Effect(s, o);
    var u := t.(parent := Next(s, o));
    assert TrackedMove(s, Notifications) && PastRead(s.parent, Notifications);
    GuardFrees(s, Notifications);
    forall b: Bus ensures Frozen(u, b) && ReadIsCurrent(u, b) && Chained(u, b) && TrackedMove(u, b) {
      assert Frozen(t, b) && ReadIsCurrent(t, b) && Chained(t, b) && TrackedMove(t, b) && PastRead(s.parent, b);
    }
  }

  lemma DropNextInv(s: Cluster, o: Outcome)
    requires Inv(s) && s.parent.Running? && s.parent.pc.DropURL?
    requires Inv(Effect(s, o))
    ensures Inv(Effect(s, o).(parent := Next(s, o)))
  {
    assert PastRead(s.parent, Notifications);
    TrackInv(Effect(s, o), Next(s, o), Notifications);
  }

  lemma PlainNextInv(s: Cluster, o: Outcome)
    requires Inv(s) && s.parent.Running? && Inv(Effect(s, o))
    requires match s.parent.pc
             case HoldM => true case HoldN => true case Inputs => true case Config => true case HoldAC => true
             case Accounts => true case FinAC => true case PruneT => true case PruneAC => true case _ => false
    ensures Inv(Effect(s, o).(parent := Next(s, o)))
  {
    assert forall b: Bus :: PastRead(s.parent, b) || (!PastRead(Next(s, o), b) && !PastHold(Next(s, o), b));
    MoveInv(Effect(s, o), Next(s, o));
  }

  lemma JobNextInv(s: Cluster, o: Outcome)
    requires Inv(s) && s.parent.Running? && Inv(Effect(s, o)) && (s.parent.pc.DbSync? || s.parent.pc.Prep?)
    ensures Inv(Effect(s, o).(parent := Next(s, o)))
  {
    if Next(s, o).pc.Patch? {
      BailInv(Effect(s, o));
    } else {
      MoveInv(Effect(s, o), Next(s, o));
    }
  }

  lemma NextInv(s: Cluster, o: Outcome)
    requires Inv(s) && s.parent.Running?
    requires Inv(Effect(s, o))
    ensures Inv(Effect(s, o).(parent := Next(s, o)))
  {
    match s.parent.pc
    case UrlM => ReadNextInv(s, o);
    case UrlN => ReadNextInv(s, o);
    case Child(_) => ChildNextInv(s, o);
    case FinM => FinNextInv(s, o);
    case FinN => if Next(s, o).pc.DropURL? { FinDropInv(s, o); } else { FinNextInv(s, o); }
    case DropURL => DropNextInv(s, o);
    case Patch => BailInv(Effect(s, o));
    case DbSync => JobNextInv(s, o);
    case Prep => JobNextInv(s, o);
    case _ => PlainNextInv(s, o);
  }

  // ---------------------------------------------------------------- whole runs

  lemma ApplyInv(s: Cluster, e: Event)
    requires Inv(s) && Enabled(s, e) && Orderly(s, e)
    ensures Inv(Apply(s, e))
  {
    match e
    case ParentStarts => ParentStartsInv(s);
    case ParentCalls(o) =>
      EffectInv(s, o);
      NextInv(s, o);
      BailInv(s);
      assert Effect(s, o).parent == s.parent;
      BailInv(Effect(s, o));
    case ParentCrashes => BailInv(s);
    case SetURL(_, _) => SetURLInv(s, e);
    case SetNotify(_) => SetNotifyInv(s, e);
    case SetCredential(_) => OtherEnvironmentInv(s, e);
    case Edit(_) => OtherEnvironmentInv(s, e);
    case Migrates(_) => OtherEnvironmentInv(s, e);
    case Prepares(_) => OtherEnvironmentInv(s, e);
    case _ => KidEventInv(s, e);
  }

  /** Every change of the run was orderly at its moment. */
  predicate OrderlyRun(s: Cluster, es: seq<Event>)
    requires ValidRun(s, es)
    decreases |es|
  {
    es == [] || (OrderlyRun(s, es[..|es| - 1]) && Orderly(Run(s, es[..|es| - 1]), es[|es| - 1]))
  }

  lemma {:induction false} RunInv(spec: ParentSpec, es: seq<Event>)
    requires ValidRun(Start(spec), es) && OrderlyRun(Start(spec), es)
    ensures Inv(Run(Start(spec), es))
  {
    if es == [] {
      StartInv(spec);
    } else {
      RunInv(spec, es[..|es| - 1]);
      ApplyInv(Run(Start(spec), es[..|es| - 1]), es[|es| - 1]);
    }
  }

  /** Rotation safety.  In every state of every run with orderly changes, under any interleaving of the
      four controllers, any crash, any failed or half-done call and any lost status patch: each transport
      secret used by a running pod holds the consumer finalizer. */
  lemma RotationIsSafe(spec: ParentSpec, es: seq<Event>)
    requires ValidRun(Start(spec), es) && OrderlyRun(Start(spec), es)
    ensures forall k: Kind, p <- Run(Start(spec), es).kids.At(k).pods, b: Bus ::
      p.loaded.On(b) == NoName || p.loaded.On(b) in Run(Start(spec), es).held
  {
    RunInv(spec, es);
    var s := Run(Start(spec), es);
    forall k: Kind, p | p in s.kids.At(k).pods ensures Fits(p.loaded, s.held) {
      PodNamesMember(s.kids.At(k).pods, p);
      assert p.loaded in KidNames(s.kids.At(k));
      assert KidHeld(s.kids.At(k), s.held);
    }
  }
}
