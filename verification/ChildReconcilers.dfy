/** The reconcile functions of the API, Worker and KeystoneListener controllers, one method for the three:
    they differ in what they do when the input hash has changed.  Each execution is a run of the state
    machine. */
module ChildReconcilers {
  import opened Cluster
  import opened Conditions
  import opened Reconcilers

  predicate ByChild(e: Event, k: Kind) { (e.KidStarts? || e.KidCalls? || e.KidCrashes?) && e.k == k }

  function WithPass(s: Cluster, k: Kind, p: KidPass): Cluster {
    s.(kids := s.kids.With(k, s.kids.At(k).(pass := p)))
  }

  predicate InChild(e: Event) {
    e.KidStarts? || e.KidCalls? || e.KidCrashes? || e.PodUp? || e.PodDown? || e.RollsOut?
  }

  lemma ChildIgnoresChild(s: Cluster, k: Kind, p: KidPass, e: Event)
    requires InChild(e) && !ByChild(e, k)
    ensures Enabled(WithPass(s, k, p), e) == Enabled(s, e)
    ensures Enabled(s, e) ==> Apply(WithPass(s, k, p), e) == WithPass(Apply(s, e), k, p)
    ensures Enabled(s, e) ==> Apply(s, e).kids.At(k).pass == s.kids.At(k).pass
  {
    if e.k == k {
      assert WithPass(s, k, p).kids.At(k) == s.kids.At(k).(pass := p);
      assert Enabled(s, e) ==> KidEvent(WithPass(s, k, p), k, e) == KidEvent(s, k, e).(pass := p);
    } else {
      OtherChildIgnoresChild(s, k, p, e);
    }
  }

  lemma OtherChildIgnoresChild(s: Cluster, k: Kind, p: KidPass, e: Event)
    requires InChild(e) && e.k != k
    ensures Enabled(WithPass(s, k, p), e) == Enabled(s, e)
    ensures Enabled(s, e) ==> Apply(WithPass(s, k, p), e) == WithPass(Apply(s, e), k, p)
    ensures Enabled(s, e) ==> Apply(s, e).kids.At(k) == s.kids.At(k)
  {
    assert WithPass(s, k, p).kids.At(e.k) == s.kids.At(e.k);
    assert Enabled(s, e) ==> KidEvent(WithPass(s, k, p), e.k, e) == KidEvent(s, e.k, e);
  }

  lemma PushIgnoresPass(kid: Kid, spec: KidSpec, p: KidPass, names: Names)
    ensures kid.(pass := p).Push(spec) == kid.Push(spec).(pass := p)
    ensures kid.(pass := p).Push(spec).Reports(names) == kid.Push(spec).Reports(names)
    ensures kid.Push(spec).pass == kid.pass
  {
  }

  lemma PushEffectIgnoresChild(s: Cluster, k: Kind, p: KidPass, o: Outcome)
    requires s.parent.Running? && s.parent.pc.Child?
    ensures Effect(WithPass(s, k, p), o) == WithPass(Effect(s, o), k, p)
    ensures Effect(s, o).kids.At(k).pass == s.kids.At(k).pass
  {
    var j, spec := s.parent.pc.kind, KidSpec(s.parent.spec.tpl, s.parent.cur);
    PushIgnoresPass(s.kids.At(j), spec, p, s.parent.cur);
  }

  lemma PushNextIgnoresChild(s: Cluster, k: Kind, p: KidPass, o: Outcome)
    requires s.parent.Running? && s.parent.pc.Child?
    ensures Next(WithPass(s, k, p), o) == Next(s, o)
  {
    var j, spec := s.parent.pc.kind, KidSpec(s.parent.spec.tpl, s.parent.cur);
    PushIgnoresPass(s.kids.At(j), spec, p, s.parent.cur);
  }

  lemma EffectIgnoresChild(s: Cluster, k: Kind, p: KidPass, o: Outcome)
    requires s.parent.Running? && !s.parent.pc.Child?
    ensures Effect(WithPass(s, k, p), o) == WithPass(Effect(s, o), k, p)
    ensures Effect(s, o).kids == s.kids
  {
  }

  lemma NextIgnoresChild(s: Cluster, k: Kind, p: KidPass, o: Outcome)
    requires s.parent.Running? && !s.parent.pc.Child?
    ensures Next(WithPass(s, k, p), o) == Next(s, o)
  {
  }

  lemma ParentIgnoresChild(s: Cluster, k: Kind, p: KidPass, o: Outcome)
    requires s.parent.Running?
    ensures ParentStep(WithPass(s, k, p), o) == WithPass(ParentStep(s, o), k, p)
    ensures ParentStep(s, o).kids.At(k).pass == s.kids.At(k).pass
  {
    if s.parent.pc.Child? {
      PushEffectIgnoresChild(s, k, p, o);
      PushNextIgnoresChild(s, k, p, o);
    } else {
      EffectIgnoresChild(s, k, p, o);
      NextIgnoresChild(s, k, p, o);
    }
  }

  /** What others do does not depend on the local variables of this child's pass. */
  lemma OthersIgnoreChild(s: Cluster, k: Kind, p: KidPass, e: Event)
    requires !ByChild(e, k)
    ensures Enabled(WithPass(s, k, p), e) == Enabled(s, e)
    ensures Enabled(s, e) ==> Apply(WithPass(s, k, p), e) == WithPass(Apply(s, e), k, p)
    ensures Enabled(s, e) ==> Apply(s, e).kids.At(k).pass == s.kids.At(k).pass
  {
    if InChild(e) {
      ChildIgnoresChild(s, k, p, e);
    } else if e.ParentCalls? && s.parent.Running? {
      ParentIgnoresChild(s, k, p, e.o);
    }
  }

  const KID_CALLS := 6

  function KidOrder(pc: KidPC): nat {
    match pc
    case Read => 0 case Write => 1 case Hash => 2 case Deploy => 3 case Check => 4 case Store => 5
  }

  /** The call ends as the turn says.  Whether the check of the Deployment leaves a condition missing is not for
      the function to choose: `fine` says whether anything but the rollout does. */
  predicate KidFollows(pc: KidPC, o: Outcome, turn: Turn, fine: bool) {
    if !turn.Good() then o == turn.o
    else if pc.Check? then o == if fine then Done else Partial
    else o.Done? || o.Partial?
  }

  /** Nothing but the rollout keeps the child from Ready. */
  ghost predicate KidFine(k: Kind, turns: seq<Turn>, saved: Conditions)
    requires |turns| == KID_CALLS
  {
    NothingMissingInChild(k, saved, turns[KidOrder(Check)].marks)
  }

  /** The run holds one pass of the child, from its start, with the calls ending as the turns say. */
  ghost predicate OneKidPass(k: Kind, first: Cluster, log: seq<Event>, turns: seq<Turn>, fine: bool)
    requires ValidRun(first, log) && |turns| == KID_CALLS
  {
    log != [] && (
      var init, e := log[..|log| - 1], log[|log| - 1];
      if init == [] then e == KidStarts(k)
      else
        && OneKidPass(k, first, init, turns, fine)
        && (ByChild(e, k) ==>
              var q := Run(first, init).kids.At(k).pass;
              e.KidCalls? && q.Working? && KidFollows(q.pc, e.ko, turns[KidOrder(q.pc)], fine)))
  }

  lemma OneKidPassExtends(k: Kind, first: Cluster, log: seq<Event>, turns: seq<Turn>, fine: bool,
                          e: Event)
    requires ValidRun(first, log) && |turns| == KID_CALLS && OneKidPass(k, first, log, turns, fine)
    requires Enabled(Run(first, log), e)
    requires ByChild(e, k) ==>
      var q := Run(first, log).kids.At(k).pass;
      e.KidCalls? && q.Working? && KidFollows(q.pc, e.ko, turns[KidOrder(q.pc)], fine)
    ensures ValidRun(first, log + [e]) && OneKidPass(k, first, log + [e], turns, fine)
  {
    Extended(first, log, e);
    assert (log + [e])[..|log + [e]| - 1] == log;
  }

  lemma KidPassBegins(k: Kind, first: Cluster, turns: seq<Turn>, fine: bool)
    requires first.kids.At(k).pass.Resting? && first.kids.At(k).log != [] && |turns| == KID_CALLS
    ensures ValidRun(first, [KidStarts(k)]) && OneKidPass(k, first, [KidStarts(k)], turns, fine)
    ensures Run(first, [KidStarts(k)]) == WithPass(first, k, KidBegin(first.kids.At(k)).pass)
  {
    assert [KidStarts(k)][..0] == [];
    assert ValidRun(first, []) && Run(first, []) == first;
    Extended(first, [], KidStarts(k));
    assert [] + [KidStarts(k)] == [KidStarts(k)];
  }

  /** A call that only looks leaves everything but the pass alone. */
  lemma CheckLeavesServer(s: Cluster, k: Kind, o: Outcome)
    requires s.kids.At(k).pass.Working? && s.kids.At(k).pass.pc.Check?
    ensures var t := s.(kids := s.kids.With(k, KidStep(k, s.kids.At(k), s.cfg, o)));
      WithPass(t, k, Resting) == WithPass(s, k, Resting)
  {
    var kid := s.kids.At(k);
    assert KidStep(k, kid, s.cfg, o) == kid.(pass := KidStep(k, kid, s.cfg, o).pass);
  }

  lemma CheckedPass(s: Cluster, k: Kind, o: Outcome, rolledOut: bool)
    requires var q := s.kids.At(k).pass; q.Working? && q.pc.Check? && !q.ready
    requires rolledOut == s.kids.At(k).RolledOut(KidInput(s.kids.At(k)))
    ensures var q := s.kids.At(k).pass;
      var t := KidStep(k, s.kids.At(k), s.cfg, o).pass;
      t == if (o.Done? || o.Partial?) && rolledOut
           then q.(pc := Store, applied := Some(q.spec.names), ready := o.Done?)
           else q.(pc := Store)
  {
  }

  class ChildReconciler {
    const kind: Kind
    var server: Cluster        // everything outside this controller
    var saved: map<Condition, Status>       // the conditions of the CR as the server holds them
    var generation: nat        // the instance: generation and spec as they were read
    var spec: KidSpec
    var inputHash: Option<Input>     // the instance: status, which PatchInstance saves
    var appliedHash: Option<Names>
    var ready: bool
    var conditions: map<Condition, Status>  // the instance: conditions, saved likewise
    ghost var first: Cluster   // the run since this reconcile began
    ghost var log: seq<Event>
    ghost var pass: KidPass
    ghost var schedule: seq<Turn>
    ghost var told: Deeds      // what has been done to the conditions before the check
    ghost var fine: bool       // whether nothing but the rollout keeps the child from Ready

    ghost function View(): Cluster
      reads this
    {
      WithPass(server, kind, pass)
    }

    ghost predicate Valid()
      reads this
    {
      && server.kids.At(kind).pass.Resting? && |schedule| == KID_CALLS
      && ValidRun(first, log) && Run(first, log) == View() && OneKidPass(kind, first, log, schedule, fine)
    }

    ghost predicate Due(turn: Turn)
      reads this
    {
      pass.Working? && |schedule| == KID_CALLS && turn == schedule[KidOrder(pass.pc)]
    }

    ghost predicate By(turns: seq<Turn>)
      reads this
    {
      Valid() && schedule == turns
    }

    constructor (k: Kind, s: Cluster, saved: map<Condition, Status>)
      ensures kind == k && server == s && this.saved == saved
    {
      kind, server, generation, spec := k, s, 0, KidSpec(Template(0, false), NOTHING);
      inputHash, appliedHash, ready := None, None, false;
      this.saved, conditions := saved, saved;
    }

    /** The other controllers, the Deployments and the environment move on. */
    method Interleave(others: seq<Event>)
      requires Valid()
      modifies this`server, this`log
      ensures Valid()
    {
      for i := 0 to |others|
        invariant Valid()
      {
        var e := others[i];
        if !ByChild(e, kind) && Enabled(server, e) {
          OthersIgnoreChild(server, kind, pass, e);
          Extended(first, log, e);
          OneKidPassExtends(kind, first, log, schedule, fine, e);
          server, log := Apply(server, e), log + [e];
        }
      }
    }

    /** The bookkeeping of a call that changed the child from the one in `s` to the one in `server`. */
    ghost method Commit(s: Cluster, o: Outcome)
      requires |schedule| == KID_CALLS && ValidRun(first, log) && Run(first, log) == s
      requires OneKidPass(kind, first, log, schedule, fine)
      requires s.kids.At(kind).pass.Working? && s.kids.At(kind).pass == pass
      requires KidFollows(pass.pc, o, schedule[KidOrder(pass.pc)], fine)
      requires server ==
        WithPass(s.(kids := s.kids.With(kind, KidStep(kind, s.kids.At(kind), s.cfg, o))), kind, Resting)
      modifies this`log, this`pass
      ensures Valid() && pass == KidStep(kind, s.kids.At(kind), s.cfg, o).pass
    {
      Extended(first, log, KidCalls(kind, o));
      OneKidPassExtends(kind, first, log, schedule, fine, KidCalls(kind, o));
      log, pass := log + [KidCalls(kind, o)], KidStep(kind, s.kids.At(kind), s.cfg, o).pass;
    }

    // -------------------------------------------------------------- API calls

    /** The locals describe the pass. */
    ghost predicate At(pc: KidPC, conf: Names)
      reads this
    {
      pass == Working(pc, generation, spec, conf, inputHash, appliedHash, ready)
    }

    /** The Ready condition is in the list, and True exactly if the status says so. */
    ghost predicate Decided()
      reads this
    {
      Ready in conditions && (Holds(conditions, Ready) <==> ready)
    }

    /** Ready is still Unknown. */
    ghost predicate Open()
      reads this
    {
      !ready && Ready in conditions && conditions[Ready] == IsUnknown && Tells(conditions, told)
    }

    /** What the turn of the check makes of the list. */
    ghost predicate Foreseen(check: Turn)
      reads this
    {
      forall marks | marks == check.marks :: fine == NothingMissingInChild(kind, saved, marks)
    }

    /** Sets a condition that is not derived from others. */
    method Note(c: Condition, holds: bool)
      requires Open() && c != Ready && !c.OfChild?
      modifies this`conditions, this`told
      ensures Decided() && (holds ==> Open() && told == Did(old(told), map[], c))
      ensures !holds ==> Failing(conditions, c)
    {
      if holds {
        SetTells(conditions, told, map[], c);
        told := Did(told, map[], c);
      }
      assert Marked(conditions, map[]) == conditions;
      conditions := Set(conditions, c, holds);
    }

    /** The function has returned and its status is what the deferred patch will save. */
    ghost predicate Returned()
      reads this
    {
      pass.Working? && At(Store, pass.conf)
    }

    /** Reads the parent's config Secret. */
    method ReadParentConfig(turn: Turn) returns (conf: Option<Names>)
      requires Valid() && Due(turn) && At(Read, NOTHING)
      modifies this`server, this`log, this`pass
      ensures Valid() && conf.Some? == turn.Good()
      ensures if conf.Some? then At(Write, conf.value) else Returned()
    {
      Interleave(turn.others);
      ghost var s := View();
      conf := if turn.Good() then Some(server.cfg) else None;
      Commit(s, turn.o);
    }

    /** Writes the child's own config Secret. */
    method WriteConfig(conf: Names, turn: Turn) returns (ok: bool)
      requires Valid() && Due(turn) && At(Write, conf)
      modifies this`server, this`log, this`pass
      ensures Valid() && ok == turn.Good()
      ensures turn.Reaches() ==> server.kids.At(kind).cfg == conf
      ensures if ok then At(Hash, conf) else Returned()
    {
      Interleave(turn.others);
      ghost var s := View();
      if turn.Reaches() {
        server := server.(kids := server.kids.With(kind, server.kids.At(kind).(cfg := conf)));
      }
      ok := turn.Good();
      Commit(s, turn.o);
    }

    /** Compares the input hash with the one in the status. */
    method CreateHashOfInputHashes(conf: Names, turn: Turn) returns (changed: Option<bool>)
      requires Valid() && Due(turn) && At(Hash, conf)
      modifies this`server, this`log, this`pass, this`inputHash
      ensures Valid() && changed.Some? == turn.Good()
      ensures changed.Some? ==> changed.value == (old(inputHash) != Some(Input(spec.names, conf)))
      ensures inputHash == if changed.Some? then Some(Input(spec.names, conf)) else old(inputHash)
      ensures if changed == Some(false) || (changed.Some? && !kind.API?) then At(Deploy, conf) else Returned()
    {
      Interleave(turn.others);
      ghost var s := View();
      var hash := Input(spec.names, conf);
      changed := if turn.Good() then Some(inputHash != Some(hash)) else None;
      if changed == Some(true) {
        inputHash := Some(hash);
      }
      Commit(s, turn.o);
    }

    /** CreateOrPatch of the Deployment with this input hash in its template. */
    method PatchDeployment(hash: Input, conf: Names, turn: Turn) returns (ok: bool)
      requires Valid() && Due(turn) && At(Deploy, conf) && hash == Input(spec.names, conf)
      modifies this`server, this`log, this`pass
      ensures Valid() && ok == turn.Good()
      ensures turn.Reaches() ==> server.kids.At(kind).tmpl == Some(hash)
      ensures if ok then At(Check, conf) else Returned()
    {
      Interleave(turn.others);
      ghost var s := View();
      if turn.Reaches() {
        server := server.(kids := server.kids.With(kind, server.kids.At(kind).(tmpl := Some(hash))));
      }
      ok := turn.Good();
      Commit(s, turn.o);
    }

    /** IsReadyForInput, and what the status says afterwards: the applied hash becomes that of the names in
        the spec exactly if every pod runs this template, and else stays; the child can only be Ready if so. */
    method CheckRollout(hash: Input, conf: Names, turn: Turn)
      requires Valid() && Due(turn) && At(Check, conf) && hash == Input(spec.names, conf) && Open()
      requires Foreseen(turn) && told == BeforeCheck(kind, saved)
      modifies this`server, this`log, this`pass, this`appliedHash, this`ready, this`conditions
      ensures Valid() && Returned() && Decided()
      ensures var rolledOut := turn.Good() && server.kids.At(kind).RolledOut(hash);
        && appliedHash == (if rolledOut then Some(spec.names) else old(appliedHash))
        && (ready <==> rolledOut && fine)
    {
      Interleave(turn.others);
      var rolledOut := server.kids.At(kind).RolledOut(hash);
      Conclude(rolledOut, turn);
    }

    /** What the function makes of the check. */
    method Conclude(rolledOut: bool, turn: Turn)
      requires Valid() && Due(turn) && pass.Working? && At(Check, pass.conf) && Open()
      requires Foreseen(turn) && told == BeforeCheck(kind, saved)
      requires rolledOut == server.kids.At(kind).RolledOut(Input(spec.names, pass.conf))
      modifies this`log, this`pass, this`appliedHash, this`ready, this`conditions
      ensures Valid() && Returned() && Decided()
      ensures appliedHash == (if turn.Good() && rolledOut then Some(spec.names) else old(appliedHash))
      ensures ready <==> turn.Good() && rolledOut && fine
    {
      if turn.Good() {
        Judge(rolledOut, turn);
      }
      CommitCheck(if !turn.Good() then turn.o else if fine then Done else Partial, rolledOut);
    }

    /** The bookkeeping of a rollout check. */
    ghost method CommitCheck(o: Outcome, rolledOut: bool)
      requires Valid() && pass.Working? && pass.pc.Check? && !pass.ready
      requires rolledOut == server.kids.At(kind).RolledOut(Input(pass.spec.names, pass.conf))
      requires KidFollows(Check, o, schedule[KidOrder(Check)], fine)
      modifies this`log, this`pass
      ensures Valid()
      ensures pass == if (o.Done? || o.Partial?) && rolledOut
                      then old(pass).(pc := Store, applied := Some(old(pass).spec.names), ready := o.Done?)
                      else old(pass).(pc := Store)
    {
      CheckLeavesServer(View(), kind, o);
      CheckedPass(View(), kind, o, rolledOut);
      Commit(View(), o);
    }

    /** The conditions and the status at the end of the function: Ready exactly if every other condition is
        True, among them that of the Deployment. */
    method Judge(rolledOut: bool, turn: Turn)
      requires Open() && told == BeforeCheck(kind, saved) && Foreseen(turn)
      modifies this`appliedHash, this`ready, this`conditions
      ensures Decided()
      ensures appliedHash == (if rolledOut then Some(spec.names) else old(appliedHash))
      ensures AllSubTrue(conditions) == ready && (ready <==> rolledOut && fine)
    {
      MissingInChild(conditions, kind, saved, turn.marks, rolledOut);
      conditions := Set(Marked(conditions, turn.marks), Deployment, rolledOut);
      if rolledOut {
        appliedHash := Some(spec.names);
      }
      if AllSubTrue(conditions) {
        conditions, ready := conditions[Ready := IsTrue], true;
      }
    }

    /** The deferred patch. */
    method PatchInstance(turn: Turn)
      requires Valid() && Due(turn) && Returned() && Decided()
      modifies this`server, this`log, this`pass, this`saved
      ensures Valid() && pass == Resting
      ensures saved == if turn.Reaches() then conditions else old(saved)
    {
      Interleave(turn.others);
      ghost var s := View();
      if turn.Reaches() {
        server := server.(kids := server.kids.With(kind, server.kids.At(kind).(
          obs := generation, recorded := inputHash, applied := appliedHash, ready := ready)));
        saved := conditions;
      }
      Commit(s, turn.o);
    }

    /** The deferred function makes an Unknown Ready the mirror of the list. */
    method Defer()
      requires Decided()
      modifies this`conditions
      ensures Decided() && conditions == Deferred(old(conditions))
    {
      DeferredIsNotReady(conditions);
      if conditions[Ready] == IsUnknown {
        conditions := conditions[Ready := Mirror(conditions).value];
      }
    }

    // -------------------------------------------------------------- the reconcile function

    /** One reconcile of the child: `log` is a run of the state machine from the cluster as it was to the
        cluster as it is now, and it holds exactly one pass of this controller, in which each call ends as
        its turn says. */
    method Reconcile(turns: seq<Turn>)
      requires server.kids.At(kind).pass.Resting? && server.kids.At(kind).log != [] && |turns| == KID_CALLS
      modifies this
      ensures server.kids.At(kind).pass.Resting? && first == old(server)
      ensures ValidRun(first, log) && Run(first, log) == server
      ensures OneKidPass(kind, first, log, turns, KidFine(kind, turns, old(saved)))
      ensures Decided() && saved == if turns[KidOrder(Store)].Reaches() then conditions else old(saved)
    {
      Get(turns);
      ReconcileNormal(turns);
      DeferredPatch(turns);
      assert View() == server;
    }

    /** What is deferred to every return of the function. */
    method DeferredPatch(turns: seq<Turn>)
      requires By(turns) && Returned() && Decided()
      modifies this`server, this`log, this`pass, this`saved, this`conditions
      ensures By(turns) && pass == Resting && Decided() && conditions == Deferred(old(conditions))
      ensures saved == if turns[KidOrder(Store)].Reaches() then conditions else old(saved)
    {
      Defer();
      PatchInstance(turns[KidOrder(Store)]);
    }

    /** Reads the CR.  The KeystoneListener forgets the saved conditions; Init makes Ready Unknown. */
    method Get(turns: seq<Turn>)
      requires server.kids.At(kind).pass.Resting? && server.kids.At(kind).log != [] && |turns| == KID_CALLS
      modifies this
      ensures By(turns) && server == old(server) && first == server && At(Read, NOTHING) && Open()
      ensures saved == old(saved) && Foreseen(turns[KidOrder(Check)]) && fine == KidFine(kind, turns, saved)
      ensures told == Begun(Remembered(kind, saved), ChildList(kind))
    {
      var kid := server.kids.At(kind);
      generation, spec := kid.Gen(), kid.Spec();
      inputHash, appliedHash, ready := kid.recorded, kid.applied, false;
      InitConditions();
      Begin(turns);
    }

    method InitConditions()
      requires !ready
      modifies this`conditions, this`told
      ensures Open() && told == Begun(Remembered(kind, saved), ChildList(kind))
    {
      conditions := Init(Remembered(kind, saved), ChildList(kind));
      InitTells(Remembered(kind, saved), ChildList(kind));
      told := Begun(Remembered(kind, saved), ChildList(kind));
    }

    /** The bookkeeping of the start of a pass. */
    ghost method Begin(turns: seq<Turn>)
      requires server.kids.At(kind).pass.Resting? && server.kids.At(kind).log != [] && |turns| == KID_CALLS
      modifies this`first, this`log, this`pass, this`schedule, this`fine
      ensures By(turns) && Foreseen(turns[KidOrder(Check)]) && fine == KidFine(kind, turns, saved) && first == server
      ensures pass == KidBegin(server.kids.At(kind)).pass
    {
      fine := KidFine(kind, turns, saved);
      KidPassBegins(kind, server, turns, fine);
      first, log, pass, schedule := server, [KidStarts(kind)], KidBegin(server.kids.At(kind)).pass, turns;
    }

    method ReconcileNormal(turns: seq<Turn>)
      requires By(turns) && At(Read, NOTHING) && Open() && Foreseen(turns[KidOrder(Check)])
      requires told == Begun(Remembered(kind, saved), ChildList(kind))
      modifies this`server, this`log, this`pass, this`inputHash, this`appliedHash, this`ready
      modifies this`conditions, this`told
      ensures By(turns) && Returned() && Decided()
      ensures appliedHash != old(appliedHash) ==> appliedHash == Some(spec.names)
    {
      var conf, ok := GenerateServiceConfigs(turns);
      if !ok { return; }
      var changed := CompareHash(conf, turns);
      if changed.None? || (changed.value && kind.API?) { return; }
      RollOut(conf, turns);
    }

    /** The configuration counts as ready whether or not the hash has changed; the API controller has said so
        before it compares. */
    method CompareHash(conf: Names, turns: seq<Turn>) returns (changed: Option<bool>)
      requires By(turns) && At(Hash, conf) && Open()
      modifies this`server, this`log, this`pass, this`inputHash, this`conditions, this`told
      ensures By(turns)
      ensures changed.None? ==> Returned() && Decided() && Failing(conditions, ServiceConfig)
      ensures changed.Some? ==> inputHash == Some(Input(spec.names, conf)) && Open()
      ensures changed.Some? ==> if changed.value && kind.API? then Returned() else At(Deploy, conf)
      ensures changed.Some? ==> told == if kind.API? then old(told) else Did(old(told), map[], ServiceConfig)
    {
      changed := CreateHashOfInputHashes(conf, turns[KidOrder(Hash)]);
      if changed.None? || !kind.API? {
        Note(ServiceConfig, changed.Some?);
      }
    }

    /** The Deployment gets the recorded hash and is then checked. */
    method RollOut(conf: Names, turns: seq<Turn>)
      requires By(turns) && At(Deploy, conf) && Open() && inputHash == Some(Input(spec.names, conf))
      requires Foreseen(turns[KidOrder(Check)]) && told == BeforeCheck(kind, saved)
      modifies this`server, this`log, this`pass, this`appliedHash, this`ready, this`conditions
      ensures By(turns) && Returned() && Decided()
      ensures appliedHash != old(appliedHash) ==> appliedHash == Some(spec.names)
    {
      var hash := inputHash.value;
      var ok := PatchDeployment(hash, conf, turns[KidOrder(Deploy)]);
      if !ok {
        Blame();
        return;
      }
      CheckRollout(hash, conf, turns[KidOrder(Check)]);
    }

    method Blame()
      requires Decided()
      modifies this`conditions
      ensures Decided() && Failing(conditions, Deployment)
    {
      conditions := Set(conditions, Deployment, false);
    }

    method ReadInputs(turns: seq<Turn>) returns (conf: Option<Names>)
      requires By(turns) && At(Read, NOTHING) && Open()
      modifies this`server, this`log, this`pass, this`conditions, this`told
      ensures By(turns)
      ensures if conf.Some? then At(Write, conf.value) && Open() else Returned() && Decided()
      ensures conf.None? ==> Failing(conditions, ServiceConfig)
      ensures conf.Some? ==> told == Did(old(told), map[], InputReady)
    {
      conf := ReadParentConfig(turns[KidOrder(Read)]);
      Note(if conf.Some? then InputReady else ServiceConfig, conf.Some?);
    }

    /** Reads the parent's config Secret and writes the child's own. */
    method GenerateServiceConfigs(turns: seq<Turn>) returns (conf: Names, ok: bool)
      requires By(turns) && At(Read, NOTHING) && Open()
      modifies this`server, this`log, this`pass, this`conditions, this`told
      ensures By(turns)
      ensures if ok then At(Hash, conf) && Open() else Returned() && Decided()
      ensures !ok ==> Failing(conditions, ServiceConfig)
      ensures var ready := Did(old(told), map[], InputReady);
        ok ==> told == if kind.API? then Did(ready, map[], ServiceConfig) else ready
    {
      conf, ok := NOTHING, false;
      var read := ReadInputs(turns);
      if read.None? { return; }
      conf := read.value;
      ok := WriteConfig(conf, turns[KidOrder(Write)]);
      if !ok || kind.API? {
        Note(ServiceConfig, ok);
      }
    }
  }
}
