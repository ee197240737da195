/** What holds in every run, with no restriction on how the environment changes names or switches
    notifications: when finalizers are released, who still holds one after a pass, and what the parent's
    Ready condition and the order of its phases mean. */
module Release {
  import opened Cluster

  /** The running pass has not returned yet. */
  predicate Active(s: Cluster) { s.parent.Running? && !s.parent.pc.Patch? }

  predicate SomeSuccess(o: Outcome) { o.Done? || o.Partial? }

  // ---------------------------------------------------------------- the pass in flight

  predicate ReadFacts(s: Cluster) {
    Active(s) ==>
      var p := s.parent;
      && (Order(p.pc) >= Order(HoldM) ==> p.cur.m != NoName)
      && (!p.spec.notify ==> p.cur.n == NoName)
      && (p.pc.UrlN? || p.pc.HoldN? ==> p.spec.notify)
      && (p.spec.notify && Order(p.pc) >= Order(HoldN) ==> p.cur.n != NoName)
  }

  predicate HoldFacts(s: Cluster) {
    Active(s) ==>
      var p := s.parent;
      && (Order(p.pc) > Order(HoldM) ==> p.cur.m in s.held)
      && (p.spec.notify && Order(p.pc) > Order(HoldN) ==> p.cur.n in s.held)
      && (Order(p.pc) > Order(HoldAC) ==> p.spec.ac == "" || p.spec.ac in s.acHeld)
      && (Order(p.pc) > Order(PruneT) ==> s.held <= Keep(p))
  }

  predicate FlagFacts(s: Cluster) {
    Active(s) ==>
      var p := s.parent;
      && (forall k: Kind :: p.ok.At(k) ==> Order(p.pc) > Order(Child(k)))
      && (forall b: Bus :: p.st.tracked.On(b) == s.st.tracked.On(b) || s.st.tracked.On(b) == NoName || p.Guard())
      && (p.st.ac == s.st.ac || s.st.ac == "" || p.Guard())
      && (p.pc.DropURL? ==> p.Guard() && !p.spec.notify)
      && (p.st.ready ==> p.Guard())
  }

  predicate PassFacts(s: Cluster) {
    ReadFacts(s) && HoldFacts(s) && FlagFacts(s)
  }

  lemma CallReadFacts(s: Cluster, o: Outcome)
    requires ReadFacts(s) && s.parent.Running?
    ensures ReadFacts(ParentStep(s, o))
  {
  }

  predicate Releasing(pc: PC) { pc.FinM? || pc.FinN? || pc.FinAC? || pc.PruneT? || pc.PruneAC? }

  lemma CallHoldFacts(s: Cluster, o: Outcome)
    requires ReadFacts(s) && HoldFacts(s) && s.parent.Running? && !Releasing(s.parent.pc)
    ensures HoldFacts(ParentStep(s, o))
  {
    if Active(ParentStep(s, o)) {
      assert SomeSuccess(o) && Active(s);
      assert Effect(s, o).held >= s.held && Effect(s, o).acHeld >= s.acHeld;
      assert Order(Next(s, o).pc) <= Order(PruneT);
    }
  }

  lemma CallReleaseFacts(s: Cluster, o: Outcome)
    requires ReadFacts(s) && HoldFacts(s) && s.parent.Running? && Releasing(s.parent.pc)
    ensures HoldFacts(ParentStep(s, o))
  {
    var p, t := s.parent, ParentStep(s, o);
    if Active(t) {
      assert SomeSuccess(o) && t.parent.cur == p.cur && t.parent.spec == p.spec;
      assert p.cur.m in t.held;
      assert p.spec.notify ==> p.cur.n in t.held;
    }
  }

  lemma CallFlagFacts(s: Cluster, o: Outcome)
    requires FlagFacts(s) && s.parent.Running? && !s.parent.pc.Child?
    ensures FlagFacts(ParentStep(s, o))
  {
    var p, t := s.parent, ParentStep(s, o);
    if Active(t) {
      assert SomeSuccess(o) && Active(s);
      assert t.parent.ok == p.ok && t.parent.st.ready == p.st.ready && t.st == s.st;
      assert Order(t.parent.pc) > Order(p.pc);
      forall b: Bus
        ensures t.parent.st.tracked.On(b) == s.st.tracked.On(b) || s.st.tracked.On(b) == NoName || p.Guard()
      {
        assert t.parent.st.tracked.On(b) == p.st.tracked.On(b) || p.st.tracked.On(b) == NoName || p.Guard();
      }
    }
  }

  lemma CallChildFlagFacts(s: Cluster, o: Outcome)
    requires FlagFacts(s) && s.parent.Running? && s.parent.pc.Child?
    ensures FlagFacts(ParentStep(s, o))
  {
    var p, t := s.parent, ParentStep(s, o);
    if Active(t) {
      assert SomeSuccess(o) && Active(s);
      assert t.parent.st.tracked == p.st.tracked && t.st == s.st;
      assert !p.ok.At(Listener);
    }
  }

  lemma ParentCallFacts(s: Cluster, o: Outcome)
    requires PassFacts(s) && s.parent.Running?
    ensures PassFacts(ParentStep(s, o))
  {
    CallReadFacts(s, o);
    if Releasing(s.parent.pc) { CallReleaseFacts(s, o); } else { CallHoldFacts(s, o); }
    if s.parent.pc.Child? { CallChildFlagFacts(s, o); } else { CallFlagFacts(s, o); }
  }

  lemma ApplyFacts(s: Cluster, e: Event)
    requires PassFacts(s) && Enabled(s, e)
    ensures PassFacts(Apply(s, e))
  {
    if e.ParentCalls? {
      ParentCallFacts(s, e.o);
    }
  }

  lemma {:induction false} RunFacts(spec: ParentSpec, es: seq<Event>)
    requires ValidRun(Start(spec), es)
    ensures PassFacts(Run(Start(spec), es))
  {
    if es != [] {
      RunFacts(spec, es[..|es| - 1]);
      ApplyFacts(Run(Start(spec), es[..|es| - 1]), es[|es| - 1]);
    }
  }

  // ---------------------------------------------------------------- what the guard remembers

  /** Event `i` is the call in which the parent, in the pass that is still running at the end of `es`,
      wrote child `k` and found it reporting the names `p`. */
  ghost predicate ReadReady(s: Cluster, es: seq<Event>, i: nat, k: Kind, p: Names)
    requires ValidRun(s, es)
  {
    && i < |es|
    && ValidRun(s, es[..i]) && ValidRun(s, es[..i + 1])
    && es[i].ParentCalls? && SomeSuccess(es[i].o)
    && (var before := Run(s, es[..i]).parent; before.Running? && before.pc == Child(k) && before.cur == p)
    && Run(s, es[..i + 1]).kids.At(k).Reports(p)
    && (forall j | i < j < |es| :: !es[j].ParentStarts? && !es[j].ParentCrashes?)
  }

  ghost predicate WasRead(s: Cluster, es: seq<Event>, k: Kind, p: Names)
    requires ValidRun(s, es)
  {
    exists i: nat :: ReadReady(s, es, i, k, p)
  }

  ghost predicate AllRead(s: Cluster, es: seq<Event>, p: Names)
    requires ValidRun(s, es)
  {
    forall k: Kind :: WasRead(s, es, k, p)
  }

  lemma ReadReadyExtends(s: Cluster, es: seq<Event>, i: nat, k: Kind, p: Names)
    requires es != [] && ValidRun(s, es) && ReadReady(s, es[..|es| - 1], i, k, p)
    requires !es[|es| - 1].ParentStarts? && !es[|es| - 1].ParentCrashes?
    ensures ReadReady(s, es, i, k, p)
  {
    var init := es[..|es| - 1];
    assert init[..i] == es[..i] && init[..i + 1] == es[..i + 1];
  }

  /** A flag is raised by the call that reads its child, and is otherwise inherited. */
  lemma FlagStep(s: Cluster, e: Event, k: Kind)
    requires PassFacts(s) && Enabled(s, e)
    requires Active(Apply(s, e)) && Apply(s, e).parent.ok.At(k)
    ensures !e.ParentStarts? && !e.ParentCrashes? && Active(s)
    ensures s.parent.cur == Apply(s, e).parent.cur
    ensures || s.parent.ok.At(k)
            || (e.ParentCalls? && SomeSuccess(e.o) && s.parent.pc == Child(k)
                && Apply(s, e).kids.At(k).Reports(s.parent.cur))
  {
    if e.ParentCalls? {
      assert SomeSuccess(e.o);
      if s.parent.pc.Child? {
      } else {
        assert Next(s, e.o).ok == s.parent.ok;
        assert Order(s.parent.pc) > Order(Child(k));
      }
    }
  }

  /** Each flag of the guard stands for a read of that child earlier in the same pass. */
  lemma {:induction false} FlagsRemember(spec: ParentSpec, es: seq<Event>, k: Kind)
    requires ValidRun(Start(spec), es)
    requires Active(Run(Start(spec), es)) && Run(Start(spec), es).parent.ok.At(k)
    ensures WasRead(Start(spec), es, k, Run(Start(spec), es).parent.cur)
  {
    var s0 := Start(spec);
    var init, e := es[..|es| - 1], es[|es| - 1];
    var before, cur := Run(s0, init), Run(s0, es).parent.cur;
    RunFacts(spec, init);
    FlagStep(before, e, k);
    if before.parent.ok.At(k) {
      FlagsRemember(spec, init, k);
      var i: nat :| ReadReady(s0, init, i, k, cur);
      ReadReadyExtends(s0, es, i, k, cur);
    } else {
      assert es[..|es| - 1 + 1] == es;
      assert ReadReady(s0, es, |es| - 1, k, cur);
    }
  }

  lemma GuardRemembers(spec: ParentSpec, es: seq<Event>)
    requires ValidRun(Start(spec), es)
    requires Active(Run(Start(spec), es)) && Run(Start(spec), es).parent.Guard()
    ensures AllRead(Start(spec), es, Run(Start(spec), es).parent.cur)
  {
    forall k: Kind ensures WasRead(Start(spec), es, k, Run(Start(spec), es).parent.cur) {
      assert Run(Start(spec), es).parent.ok.At(k);
      FlagsRemember(spec, es, k);
    }
  }

  /** No early release, in any run: a tracked transport secret loses the finalizer only through a call of
      a pass that has itself found each of the three children with its generation observed, the pass's
      names applied, and Ready. */
  lemma NoEarlyRelease(spec: ParentSpec, es: seq<Event>, e: Event, b: Bus)
    requires ValidRun(Start(spec), es) && Enabled(Run(Start(spec), es), e)
    requires var s := Run(Start(spec), es);
      s.st.tracked.On(b) != NoName && s.st.tracked.On(b) in s.held && s.st.tracked.On(b) !in Apply(s, e).held
    ensures var s := Run(Start(spec), es);
      e.ParentCalls? && Active(s) && AllRead(Start(spec), es, s.parent.cur)
  {
    var s := Run(Start(spec), es);
    RunFacts(spec, es);
    assert e.ParentCalls? && Active(s);
    assert s.parent.Guard() by {
      var p := s.parent;
      assert Effect(s, e.o).held != s.held;
      assert p.pc.FinM? || p.pc.FinN? || p.pc.PruneT?;
      if p.pc.PruneT? {
        assert s.st.tracked.On(b) !in Keep(p);
        assert p.st.tracked.On(b) in Keep(p);
      }
    }
    GuardRemembers(spec, es);
  }

  /** The same for the application credential. */
  lemma NoEarlyCredentialRelease(spec: ParentSpec, es: seq<Event>, e: Event)
    requires ValidRun(Start(spec), es) && Enabled(Run(Start(spec), es), e)
    requires var s := Run(Start(spec), es); s.st.ac != "" && s.st.ac in s.acHeld && s.st.ac !in Apply(s, e).acHeld
    ensures var s := Run(Start(spec), es);
      e.ParentCalls? && Active(s) && AllRead(Start(spec), es, s.parent.cur)
  {
    var s := Run(Start(spec), es);
    RunFacts(spec, es);
    assert e.ParentCalls? && Active(s);
    assert s.parent.pc.FinAC? || s.parent.pc.PruneAC?;
    GuardRemembers(spec, es);
  }

  /** The notifications TransportURL is deleted only by a pass that runs with notifications off and has
      found all three children rolled out with (current transport secret, no notifications secret). */
  lemma TeardownAfterRollout(spec: ParentSpec, es: seq<Event>, e: Event)
    requires ValidRun(Start(spec), es) && Enabled(Run(Start(spec), es), e)
    requires Run(Start(spec), es).notifyURL && !Apply(Run(Start(spec), es), e).notifyURL
    ensures var s := Run(Start(spec), es);
      && e.ParentCalls? && Active(s) && s.parent.cur.n == NoName && s.parent.cur.m != NoName
      && AllRead(Start(spec), es, s.parent.cur)
  {
    var s := Run(Start(spec), es);
    RunFacts(spec, es);
    assert s.parent.pc.DropURL?;
    GuardRemembers(spec, es);
  }

  /** A pass marks the parent Ready only if it has found all three children ready at its names. */
  lemma ReadyRefinesGuard(spec: ParentSpec, es: seq<Event>)
    requires ValidRun(Start(spec), es)
    requires var s := Run(Start(spec), es); Active(s) && s.parent.st.ready
    ensures var s := Run(Start(spec), es);
      s.parent.Guard() && AllRead(Start(spec), es, s.parent.cur)
  {
    RunFacts(spec, es);
    GuardRemembers(spec, es);
  }

  /** So does every pass that has marked the parent Ready, up to the patch of its status. */
  lemma {:induction false} ReadyRemembers(spec: ParentSpec, es: seq<Event>)
    requires ValidRun(Start(spec), es)
    requires Run(Start(spec), es).parent.Running? && Run(Start(spec), es).parent.st.ready
    ensures AllRead(Start(spec), es, Run(Start(spec), es).parent.cur)
  {
    var s0 := Start(spec);
    if Active(Run(s0, es)) {
      ReadyRefinesGuard(spec, es);
    } else {
      var init, e := es[..|es| - 1], es[|es| - 1];
      var cur := Run(s0, es).parent.cur;
      PatchInherits(Run(s0, init), e);
      ReadyRemembers(spec, init);
      forall k: Kind ensures WasRead(s0, es, k, cur) {
        assert WasRead(s0, init, k, cur);
        var i: nat :| ReadReady(s0, init, i, k, cur);
        ReadReadyExtends(s0, es, i, k, cur);
      }
    }
  }

  lemma PatchInherits(s: Cluster, e: Event)
    requires Enabled(s, e)
    requires var p := Apply(s, e).parent; p.Running? && p.pc.Patch? && p.st.ready
    ensures s.parent.Running? && s.parent.st.ready && s.parent.cur == Apply(s, e).parent.cur
    ensures !e.ParentStarts? && !e.ParentCrashes?
  {
  }

  // ---------------------------------------------------------------- holders after a pass

  predicate OfOthers(es: seq<Event>) {
    forall e <- es :: !e.ParentStarts? && !e.ParentCalls? && !e.ParentCrashes?
  }

  /** Nobody but the parent changes a finalizer, its status or its pass. */
  lemma {:induction false} OthersKeepHolders(s: Cluster, es: seq<Event>)
    requires ValidRun(s, es) && OfOthers(es)
    ensures var t := Run(s, es);
      t.held == s.held && t.acHeld == s.acHeld && t.st == s.st && t.parent == s.parent
  {
    if es != [] {
      OthersKeepHolders(s, es[..|es| - 1]);
    }
  }

  /** The transport finalizer is held by the tracked and the current secrets only, and by both current ones;
      the credential finalizer likewise.  `p` is the pass that has ended. */
  predicate Bounded(t: Cluster, p: Pass)
    requires p.Running?
  {
    && t.held <= {t.st.tracked.m, p.cur.m, t.st.tracked.n, p.cur.n}
    && p.cur.m in t.held
    && (p.spec.notify ==> p.cur.n in t.held)
    && t.acHeld <= {t.st.ac, p.spec.ac}
    && (p.spec.ac != "" ==> p.spec.ac in t.acHeld)
  }

  /** No leak: whatever happened before a pass and while it ran, and whatever the others do between its last
      prune and the patch of its status and after it, the holders are bounded once the pass is complete. */
  lemma HoldersAreBounded(spec: ParentSpec, es: seq<Event>, between: seq<Event>, after: seq<Event>)
    requires ValidRun(Start(spec), es)
    requires var s := Run(Start(spec), es); s.parent.Running? && s.parent.pc.PruneAC?
    requires OfOthers(between) && OfOthers(after)
    requires var s := ParentStep(Run(Start(spec), es), Done);
      ValidRun(s, between) && Run(s, between).parent.Running? && ValidRun(ParentStep(Run(s, between), Done), after)
    ensures var s := Run(Start(spec), es);
      var t := Run(ParentStep(Run(ParentStep(s, Done), between), Done), after);
      t.parent.Idle? && Bounded(t, s.parent)
  {
    var s := Run(Start(spec), es);
    RunFacts(spec, es);
    PrunedIsBounded(s);
    OthersKeepHolders(ParentStep(s, Done), between);
    OthersKeepHolders(ParentStep(Run(ParentStep(s, Done), between), Done), after);
  }

  lemma PrunedIsBounded(s: Cluster)
    requires PassFacts(s) && s.parent.Running? && s.parent.pc.PruneAC?
    ensures var t := ParentStep(s, Done);
      t.parent == s.parent.(pc := Patch) && Bounded(t.(st := s.parent.st), s.parent)
  {
  }
}
