/** What the parent's persisted Ready condition says about its children, and in which order the phases
    of the reconcile function can be observed. */
module Readiness {
  import opened Cluster
  import opened Release

  // ---------------------------------------------------------------- Ready

  /** The child carries the template of `spec` and a notifications secret exactly if `spec` wants one. */
  predicate FreshKid(kid: Kid, spec: ParentSpec) {
    kid.log != [] && kid.Spec().tpl == spec.tpl && (kid.Spec().names.n != NoName <==> spec.notify)
  }

  predicate Fresh(s: Cluster, spec: ParentSpec) {
    forall k: Kind :: FreshKid(s.kids.At(k), spec)
  }

  predicate ReadyFacts(s: Cluster) {
    && s.st.obs <= s.gen
    && (s.st.ready && s.st.obs == s.gen ==> Fresh(s, s.spec))
    && (s.parent.Running? ==>
          var p := s.parent;
          && s.st.obs <= p.gen <= s.gen
          && (p.gen == s.gen ==> p.spec == s.spec)
          && (p.st.obs == s.st.obs || p.st.obs == p.gen)
          && (!p.pc.Patch? ==> forall k: Kind :: p.ok.At(k) ==> FreshKid(s.kids.At(k), p.spec))
          && (p.st.ready ==> p.st.obs == p.gen && Fresh(s, p.spec)))
  }

  lemma KidKeepsSpec(s: Cluster, e: Event)
    requires Enabled(s, e)
    requires e.KidStarts? || e.KidCalls? || e.KidCrashes? || e.PodUp? || e.PodDown? || e.RollsOut?
    ensures forall j: Kind :: Apply(s, e).kids.At(j).log == s.kids.At(j).log
  {
    var kid := s.kids.At(e.k);
    if e.KidCalls? {
      assert KidStep(e.k, kid, s.cfg, e.ko).log == kid.log;
    }
  }

  lemma CallReadyFacts(s: Cluster, o: Outcome)
    requires ReadyFacts(s) && ReadFacts(s) && FlagFacts(s) && s.parent.Running? && !s.parent.pc.Child?
    ensures ReadyFacts(ParentStep(s, o))
  {
    var p, t := s.parent, ParentStep(s, o);
    assert t.kids == s.kids && t.gen == s.gen && t.spec == s.spec;
    if p.pc.Patch? {
      assert t.parent.Idle?;
      assert t.st == s.st || t.st == p.st;
      assert t.st.ready && t.st.obs == t.gen ==> Fresh(t, t.spec);
    } else {
      assert t.st == s.st && t.parent.Running? && t.parent.gen == p.gen && t.parent.spec == p.spec;
      assert t.parent.st.ready == p.st.ready && t.parent.st.obs == p.st.obs && t.parent.ok == p.ok;
    }
  }

  lemma ChildReadyFacts(s: Cluster, o: Outcome)
    requires ReadyFacts(s) && ReadFacts(s) && FlagFacts(s) && s.parent.Running? && s.parent.pc.Child?
    ensures ReadyFacts(ParentStep(s, o))
  {
    var p, k, t := s.parent, s.parent.pc.kind, ParentStep(s, o);
    assert FreshKid(s.kids.At(k).Push(KidSpec(p.spec.tpl, p.cur)), p.spec);
    assert t.st == s.st && t.parent.Running? && t.parent.gen == p.gen && t.parent.spec == p.spec;
    forall j: Kind ensures t.kids.At(j) == s.kids.At(j) || FreshKid(t.kids.At(j), p.spec) {
    }
    if SomeSuccess(o) && k.Listener? && t.parent.st.ready {
      assert forall j: Kind :: t.parent.ok.At(j);
      assert forall j: Kind :: FreshKid(t.kids.At(j), p.spec);
    }
  }

  lemma ApplyReadyFacts(s: Cluster, e: Event)
    requires ReadyFacts(s) && ReadFacts(s) && FlagFacts(s) && Enabled(s, e)
    ensures ReadyFacts(Apply(s, e))
  {
    if e.ParentCalls? {
      if s.parent.pc.Child? { ChildReadyFacts(s, e.o); } else { CallReadyFacts(s, e.o); }
    } else if e.KidStarts? || e.KidCalls? || e.KidCrashes? || e.PodUp? || e.PodDown? || e.RollsOut? {
      KidReadyFacts(s, e);
    }
  }

  lemma KidReadyFacts(s: Cluster, e: Event)
    requires ReadyFacts(s) && Enabled(s, e)
    requires e.KidStarts? || e.KidCalls? || e.KidCrashes? || e.PodUp? || e.PodDown? || e.RollsOut?
    ensures ReadyFacts(Apply(s, e))
  {
    KidKeepsSpec(s, e);
    var t := Apply(s, e);
    assert t == s.(kids := t.kids);
    assert forall j: Kind, spec: ParentSpec :: FreshKid(s.kids.At(j), spec) ==> FreshKid(t.kids.At(j), spec);
  }

  lemma {:induction false} RunReadyFacts(spec: ParentSpec, es: seq<Event>)
    requires ValidRun(Start(spec), es)
    ensures ReadyFacts(Run(Start(spec), es))
  {
    if es != [] {
      RunReadyFacts(spec, es[..|es| - 1]);
      RunFacts(spec, es[..|es| - 1]);
      ApplyReadyFacts(Run(Start(spec), es[..|es| - 1]), es[|es| - 1]);
    }
  }

  /** In every reachable state: a parent that is persisted Ready at its own generation has three children
      whose specs carry the template of that generation and name a notifications secret exactly if it
      asks for notifications. */
  lemma ReadyMeansFreshChildren(spec: ParentSpec, es: seq<Event>)
    requires ValidRun(Start(spec), es)
    requires var s := Run(Start(spec), es); s.st.ready && s.st.obs == s.gen
    ensures var s := Run(Start(spec), es);
      forall k: Kind :: FreshKid(s.kids.At(k), s.spec)
  {
    RunReadyFacts(spec, es);
  }

  /** The call writes child `k`. */
  predicate Writes(s: Cluster, e: Event, k: Kind) {
    e.ParentCalls? && !e.o.Failed? && s.parent.Running? && s.parent.pc == Child(k)
  }

  /** The pass that wrote child `k` last. */
  function LastWriter(s: Cluster, es: seq<Event>, k: Kind): Option<Pass>
    requires ValidRun(s, es)
  {
    if es == [] then None
    else
      var init := es[..|es| - 1];
      if Writes(Run(s, init), es[|es| - 1], k) then Some(Run(s, init).parent) else LastWriter(s, init, k)
  }

  /** The CR had this spec at this generation at some moment of the run. */
  ghost predicate HadSpec(s: Cluster, es: seq<Event>, gen: nat, spec: ParentSpec) {
    exists h: nat :: SpecAt(s, es, h, gen, spec)
  }

  ghost predicate SpecAt(s: Cluster, es: seq<Event>, h: nat, gen: nat, spec: ParentSpec) {
    h <= |es| && ValidRun(s, es[..h]) && Run(s, es[..h]).gen == gen && Run(s, es[..h]).spec == spec
  }

  lemma HadSpecExtends(s: Cluster, es: seq<Event>, gen: nat, spec: ParentSpec)
    requires es != [] && HadSpec(s, es[..|es| - 1], gen, spec)
    ensures HadSpec(s, es, gen, spec)
  {
    var h: nat :| SpecAt(s, es[..|es| - 1], h, gen, spec);
    assert es[..|es| - 1][..h] == es[..h];
    assert SpecAt(s, es, h, gen, spec);
  }

  /** A pass works on a spec that the CR had at the generation of the pass. */
  lemma {:induction false} PassHadSpec(spec: ParentSpec, es: seq<Event>)
    requires ValidRun(Start(spec), es) && Run(Start(spec), es).parent.Running?
    ensures var p := Run(Start(spec), es).parent; HadSpec(Start(spec), es, p.gen, p.spec)
  {
    var init, e := es[..|es| - 1], es[|es| - 1];
    var s, p := Run(Start(spec), init), Run(Start(spec), es).parent;
    if e.ParentStarts? {
      assert SpecAt(Start(spec), es, |es| - 1, s.gen, s.spec);
    } else {
      assert s.parent.Running? && s.parent.gen == p.gen && s.parent.spec == p.spec;
      PassHadSpec(spec, init);
      HadSpecExtends(Start(spec), es, p.gen, p.spec);
    }
  }

  /** The child is as its last writer wrote it, and the writer worked on a spec that the CR had. */
  predicate AsWritten(kid: Kid, w: Pass) {
    && w.Running? && kid.log != [] && kid.Spec() == KidSpec(w.spec.tpl, w.cur)
    && w.cur.m != NoName && (w.cur.n != NoName <==> w.spec.notify)
  }

  lemma {:induction false} ChildIsAsWritten(spec: ParentSpec, es: seq<Event>, k: Kind)
    requires ValidRun(Start(spec), es)
    ensures var w := LastWriter(Start(spec), es, k);
      if w.None? then Run(Start(spec), es).kids.At(k).log == []
      else AsWritten(Run(Start(spec), es).kids.At(k), w.value)
           && HadSpec(Start(spec), es, w.value.gen, w.value.spec)
  {
    if es != [] {
      var init, e := es[..|es| - 1], es[|es| - 1];
      var s := Run(Start(spec), init);
      ChildIsAsWritten(spec, init, k);
      RunFacts(spec, init);
      WriteIsAsWritten(s, e, k);
      if Writes(s, e, k) {
        PassHadSpec(spec, init);
        HadSpecExtends(Start(spec), es, s.parent.gen, s.parent.spec);
      } else {
        var w := LastWriter(Start(spec), init, k);
        if w.Some? {
          HadSpecExtends(Start(spec), es, w.value.gen, w.value.spec);
        }
      }
    }
  }

  lemma WriteIsAsWritten(s: Cluster, e: Event, k: Kind)
    requires ReadFacts(s) && Enabled(s, e)
    ensures Writes(s, e, k) ==> AsWritten(Apply(s, e).kids.At(k), s.parent)
    ensures !Writes(s, e, k) ==> Apply(s, e).kids.At(k).log == s.kids.At(k).log
  {
    if Apply(s, e).kids.At(k).log != s.kids.At(k).log {
      OnlyChildCallsPush(s, e, k);
    }
    if Writes(s, e, k) {
      assert Apply(s, e).kids.At(k) == s.kids.At(k).Push(KidSpec(s.parent.spec.tpl, s.parent.cur));
    }
  }

  /** The last writers are no older than what the status, saved or not, says was observed. */
  predicate WritersFollow(s: Cluster, w: Trio<Option<Pass>>) {
    && (forall k: Kind :: w.At(k).Some? ==> w.At(k).value.Running?)
    && (s.st.ready ==> forall k: Kind :: w.At(k).Some? && w.At(k).value.gen >= s.st.obs)
    && (s.parent.Running? ==>
          var p := s.parent;
          && (p.st.ready ==> forall k: Kind :: w.At(k).Some? && w.At(k).value.gen >= p.st.obs)
          && (!p.pc.Patch? ==> forall k: Kind :: Order(p.pc) > Order(Child(k)) ==>
                w.At(k).Some? && w.At(k).value.gen == p.gen))
  }

  function LastWriters(s: Cluster, es: seq<Event>): Trio<Option<Pass>>
    requires ValidRun(s, es)
  {
    Trio(LastWriter(s, es, API), LastWriter(s, es, Worker), LastWriter(s, es, Listener))
  }

  function NewWriters(s: Cluster, e: Event, w: Trio<Option<Pass>>): Trio<Option<Pass>> {
    if e.ParentCalls? && !e.o.Failed? && s.parent.Running? && s.parent.pc.Child?
      then w.With(s.parent.pc.kind, Some(s.parent))
    else w
  }

  lemma WriterStep(s: Cluster, e: Event, w: Trio<Option<Pass>>)
    requires ReadyFacts(s) && Enabled(s, e) && WritersFollow(s, w) && e.ParentCalls?
    ensures WritersFollow(Apply(s, e), NewWriters(s, e, w))
  {
    if s.parent.pc.Child? { ChildWriterStep(s, e.o, w); } else { OtherWriterStep(s, e.o, w); }
  }

  lemma ChildWriterStep(s: Cluster, o: Outcome, w: Trio<Option<Pass>>)
    requires ReadyFacts(s) && s.parent.Running? && s.parent.pc.Child? && WritersFollow(s, w)
    ensures WritersFollow(ParentStep(s, o), NewWriters(s, ParentCalls(o), w))
  {
    var t, k := ParentStep(s, o), s.parent.pc.kind;
    assert t.st == s.st && t.parent.Running? && t.parent.gen == s.parent.gen;
    forall j: Kind | t.parent.Running? && !t.parent.pc.Patch? && Order(t.parent.pc) > Order(Child(j))
      ensures j == k || Order(s.parent.pc) > Order(Child(j))
    {
    }
  }

  lemma OtherWriterStep(s: Cluster, o: Outcome, w: Trio<Option<Pass>>)
    requires ReadyFacts(s) && s.parent.Running? && !s.parent.pc.Child? && WritersFollow(s, w)
    ensures WritersFollow(ParentStep(s, o), w)
  {
    var t, p := ParentStep(s, o), s.parent;
    assert p.pc.Patch? || t.st == s.st;
    if t.parent.Running? {
      assert t.parent.gen == p.gen && t.parent.st.ready == p.st.ready && t.parent.st.obs == p.st.obs;
    }
    forall j: Kind | t.parent.Running? && !t.parent.pc.Patch? && Order(t.parent.pc) > Order(Child(j))
      ensures Order(p.pc) > Order(Child(j))
    {
    }
  }

  lemma {:induction false} RunWritersFollow(spec: ParentSpec, es: seq<Event>)
    requires ValidRun(Start(spec), es)
    ensures WritersFollow(Run(Start(spec), es), LastWriters(Start(spec), es))
  {
    if es != [] {
      var init, e := es[..|es| - 1], es[|es| - 1];
      RunWritersFollow(spec, init);
      RunReadyFacts(spec, init);
      assert LastWriters(Start(spec), es) == NewWriters(Run(Start(spec), init), e, LastWriters(Start(spec), init));
      if e.ParentCalls? {
        WriterStep(Run(Start(spec), init), e, LastWriters(Start(spec), init));
      }
    }
  }

  /** Event `j` is the patch that persisted the status of the moment, and the pass whose status it is had
      read every child as observed, applied with the names of the pass, and Ready. */
  ghost predicate Persisted(s: Cluster, es: seq<Event>, j: nat)
    requires ValidRun(s, es)
  {
    && j < |es| && ValidRun(s, es[..j]) && es[j].ParentCalls? && !es[j].o.Failed?
    && (var p := Run(s, es[..j]).parent;
        p.Running? && p.pc.Patch? && p.st == Run(s, es).st && AllRead(s, es[..j], p.cur))
  }

  ghost predicate WasPersisted(s: Cluster, es: seq<Event>)
    requires ValidRun(s, es)
  {
    exists j: nat :: Persisted(s, es, j)
  }

  lemma {:induction false} ReadyWasPersisted(spec: ParentSpec, es: seq<Event>)
    requires ValidRun(Start(spec), es) && Run(Start(spec), es).st.ready
    ensures WasPersisted(Start(spec), es)
  {
    var init, e := es[..|es| - 1], es[|es| - 1];
    var s := Run(Start(spec), init);
    if e.ParentCalls? && !e.o.Failed? && s.parent.pc.Patch? {
      ReadyRemembers(spec, init);
      assert Persisted(Start(spec), es, |es| - 1);
    } else {
      assert Run(Start(spec), es).st == s.st;
      ReadyWasPersisted(spec, init);
      var j: nat :| Persisted(Start(spec), init, j);
      assert init[..j] == es[..j];
      assert Persisted(Start(spec), es, j);
    }
  }

  /** Child `k` is as its last writer wrote it, a pass over a spec that the CR had at generation `g` or later. */
  ghost predicate Derived(s: Cluster, es: seq<Event>, k: Kind, g: nat)
    requires ValidRun(s, es)
  {
    var w := LastWriter(s, es, k);
    && w.Some? && AsWritten(Run(s, es).kids.At(k), w.value) && w.value.gen >= g
    && HadSpec(s, es, w.value.gen, w.value.spec)
  }

  lemma ReadyChildDerived(spec: ParentSpec, es: seq<Event>, k: Kind)
    requires ValidRun(Start(spec), es) && Run(Start(spec), es).st.ready
    ensures Derived(Start(spec), es, k, Run(Start(spec), es).st.obs)
  {
    RunWritersFollow(spec, es);
    ChildIsAsWritten(spec, es, k);
    assert LastWriters(Start(spec), es).At(k) == LastWriter(Start(spec), es, k);
  }

  /** What a persisted Ready with observed generation `g` means, in every state of every run, also when the
      CR has moved on since: every child carries the spec that its last writer wrote, that writer was a pass
      over a spec which the CR had at generation `g` or later, and the pass which persisted Ready had read
      all three children as ready at its names. */
  lemma ReadyMeansDerived(spec: ParentSpec, es: seq<Event>)
    requires ValidRun(Start(spec), es) && Run(Start(spec), es).st.ready
    ensures forall k: Kind :: Derived(Start(spec), es, k, Run(Start(spec), es).st.obs)
    ensures WasPersisted(Start(spec), es)
  {
    ReadyWasPersisted(spec, es);
    forall k: Kind ensures Derived(Start(spec), es, k, Run(Start(spec), es).st.obs) {
      ReadyChildDerived(spec, es, k);
    }
  }

  // ---------------------------------------------------------------- phases

  predicate JobsDone(s: Cluster, tpl: Template) {
    tpl in s.migrated && (tpl.pkcs11 ==> tpl in s.prepared)
  }

  predicate StatusJobs(s: Cluster, st: ParentStatus) {
    (st.db.Some? ==> st.db.value in s.migrated) && (st.prep.Some? ==> st.prep.value in s.prepared)
  }

  predicate PhaseFacts(s: Cluster) {
    && StatusJobs(s, s.st)
    && (s.parent.Running? ==> StatusJobs(s, s.parent.st))
    && (Active(s) && Order(s.parent.pc) >= Order(Prep) ==> s.parent.spec.tpl in s.migrated)
    && (Active(s) && Order(s.parent.pc) >= Order(Child(API)) ==> JobsDone(s, s.parent.spec.tpl))
  }

  lemma JobPhaseFacts(s: Cluster, o: Outcome)
    requires PhaseFacts(s) && s.parent.Running? && (s.parent.pc.DbSync? || s.parent.pc.Prep?)
    ensures PhaseFacts(ParentStep(s, o))
  {
  }

  lemma CallPhaseFacts(s: Cluster, o: Outcome)
    requires PhaseFacts(s) && s.parent.Running? && !s.parent.pc.DbSync? && !s.parent.pc.Prep?
    ensures PhaseFacts(ParentStep(s, o))
  {
    var p, t := s.parent, ParentStep(s, o);
    assert t.migrated == s.migrated && t.prepared == s.prepared;
    assert t.st == s.st || t.st == p.st;
    if t.parent.Running? {
      assert t.parent.spec == p.spec && t.parent.st.db == p.st.db && t.parent.st.prep == p.st.prep;
    }
    if Active(t) {
      assert Active(s) && SomeSuccess(o);
      assert Order(p.pc) < Order(DbSync) ==> Order(t.parent.pc) <= Order(DbSync);
    }
  }

  lemma {:induction false} RunPhaseFacts(spec: ParentSpec, es: seq<Event>)
    requires ValidRun(Start(spec), es)
    ensures PhaseFacts(Run(Start(spec), es))
  {
    if es != [] {
      RunPhaseFacts(spec, es[..|es| - 1]);
      var s := Run(Start(spec), es[..|es| - 1]);
      if es[|es| - 1].ParentCalls? {
        var o := es[|es| - 1].o;
        if s.parent.pc.DbSync? || s.parent.pc.Prep? { JobPhaseFacts(s, o); } else { CallPhaseFacts(s, o); }
      }
    }
  }

  lemma OnlyChildCallsPush(s: Cluster, e: Event, k: Kind)
    requires Enabled(s, e) && Apply(s, e).kids.At(k).log != s.kids.At(k).log
    ensures e.ParentCalls? && s.parent.pc == Child(k) && !e.o.Failed?
    ensures Apply(s, e).kids.At(k) == s.kids.At(k).Push(KidSpec(s.parent.spec.tpl, s.parent.cur))
  {
    if e.KidStarts? || e.KidCalls? || e.KidCrashes? || e.PodUp? || e.PodDown? || e.RollsOut? {
      KidKeepsSpec(s, e);
    }
  }

  /** Phase order, across restarts and lost status patches: a child is created or updated only with a
      template whose db-sync job has succeeded and, if it asks for pkcs11, whose preparation job has. */
  lemma ChildrenFollowJobs(spec: ParentSpec, es: seq<Event>, e: Event, k: Kind)
    requires ValidRun(Start(spec), es) && Enabled(Run(Start(spec), es), e)
    requires var s := Run(Start(spec), es); Apply(s, e).kids.At(k).log != s.kids.At(k).log
    ensures var s, t := Run(Start(spec), es), Apply(Run(Start(spec), es), e);
      && t.kids.At(k).log == s.kids.At(k).log + [t.kids.At(k).Spec()]
      && JobsDone(s, t.kids.At(k).Spec().tpl)
  {
    RunPhaseFacts(spec, es);
    OnlyChildCallsPush(Run(Start(spec), es), e, k);
  }

  // ---------------------------------------------------------------- an orphaned TransportURL

  /** Notifications are off, the notifications TransportURL exists, and no secret of it was ever tracked. */
  predicate Orphaned(s: Cluster) {
    && !s.spec.notify && s.notifyURL && s.st.tracked.n == NoName
    && (s.parent.Running? ==> !s.parent.spec.notify && s.parent.st.tracked.n == NoName && !s.parent.pc.DropURL?)
  }

  predicate TurnsOn(e: Event) { e.SetNotify? && e.on }

  lemma ApplyOrphaned(s: Cluster, e: Event)
    requires Orphaned(s) && ReadFacts(s) && Enabled(s, e) && !TurnsOn(e)
    ensures Orphaned(Apply(s, e))
  {
  }

  /** Notifications that are switched off before their secret was tracked leave the TransportURL behind:
      no later reconcile, however many there are, deletes it while notifications stay off. */
  lemma {:induction false} OrphanIsNeverDeleted(spec: ParentSpec, es: seq<Event>, more: seq<Event>)
    requires ValidRun(Start(spec), es) && Orphaned(Run(Start(spec), es))
    requires ValidRun(Start(spec), es + more)
    requires forall e <- more :: !TurnsOn(e)
    ensures Orphaned(Run(Start(spec), es + more))
  {
    if more == [] {
      assert es + more == es;
    } else {
      var init := more[..|more| - 1];
      assert (es + more)[..|es + more| - 1] == es + init;
      OrphanIsNeverDeleted(spec, es, init);
      RunFacts(spec, es + init);
      ApplyOrphaned(Run(Start(spec), es + init), more[|more| - 1]);
    }
  }
}
