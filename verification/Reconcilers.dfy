/** The reconcile functions in the form that the controllers give them: an instance whose status and
    conditions are assigned one by one, local variables, and API calls that may fail.  Each execution of a
    method is proved to be exactly one pass of the state machine, so that what holds of every run holds of
    the methods.

    A `Turn` says what the rest of the cluster does before an API call, how that call ends, what library
    calls around it do to conditions that this model does not follow, and which other conditions a child has
    that the call reads. */
module Reconcilers {
  import opened Cluster
  import opened Conditions

  datatype Turn = Turn(others: seq<Event>, o: Outcome, marks: map<Condition, Status>, child: map<Condition, Status>) {
    /** The call reports no error. */
    predicate Good() { o.Done? || o.Partial? }
    /** The call reaches the server. */
    predicate Reaches() { !o.Failed? }
  }

  const CALLS := 20

  lemma Extended(s: Cluster, es: seq<Event>, e: Event)
    requires ValidRun(s, es) && Enabled(Run(s, es), e)
    ensures ValidRun(s, es + [e]) && Run(s, es + [e]) == Apply(Run(s, es), e)
  {
    assert (es + [e])[..|es + [e]| - 1] == es;
  }

  predicate OfParent(e: Event) { e.ParentStarts? || e.ParentCalls? || e.ParentCrashes? }

  /** What others do does not depend on the local variables of the parent's pass, and touches nothing that
      only the parent writes. */
  lemma OthersIgnoreParent(s: Cluster, p: Pass, e: Event)
    requires !OfParent(e)
    ensures Enabled(s.(parent := p), e) == Enabled(s, e)
    ensures Enabled(s, e) ==> Apply(s.(parent := p), e) == Apply(s, e).(parent := p)
    ensures Enabled(s, e) ==> SameHolders(s, Apply(s, e))
  {
  }

  /** Finalizers, status, config Secret and the existence of the notifications TransportURL are the same. */
  predicate SameHolders(s: Cluster, t: Cluster) {
    t.held == s.held && t.acHeld == s.acHeld && t.st == s.st && t.cfg == s.cfg && t.notifyURL == s.notifyURL
  }

  // ---------------------------------------------------------------- one pass

  /** A branch of the reconcile function that makes no call. */
  predicate NoCall(p: Pass)
    requires p.Running?
  {
    || (p.pc.HoldAC? && p.spec.ac == "")
    || (p.pc.Prep? && !p.spec.tpl.pkcs11)
    || (p.pc.FinN? && !p.spec.notify && !(p.st.tracked.n != NoName && p.Guard()))
  }

  /** Whether the other conditions of the children, as the pass reads them, are all True. */
  function ListsOf(turns: seq<Turn>): Trio<bool>
    requires |turns| == CALLS
  {
    Trio(ListTrue(turns[Order(Child(API))].child), ListTrue(turns[Order(Child(Worker))].child),
         ListTrue(turns[Order(Child(Listener))].child))
  }

  lemma ListsAt(turns: seq<Turn>, k: Kind)
    requires |turns| == CALLS
    ensures ListsOf(turns).At(k) == ListTrue(turns[Order(Child(k))].child)
  {
    match k
    case API =>
    case Worker =>
    case Listener =>
  }

  /** What library calls have marked when the pass comes to the children. */
  function Marks(turns: seq<Turn>): Conditions
    requires |turns| == CALLS
  {
    turns[Order(Inputs)].marks + turns[Order(DbSync)].marks
  }

  /** Nothing but the rollout of the children keeps the CR from Ready. */
  ghost predicate AllFine(turns: seq<Turn>, saved: Conditions)
    requires |turns| == CALLS
  {
    ListsOf(turns) == Trio(true, true, true) && NothingMissing(saved, Marks(turns))
  }

  /** The call ends as the turn says.  Whether the write of the last child leaves a condition missing is not
      for the function to choose. */
  predicate Follows(p: Pass, o: Outcome, turn: Turn, fine: bool)
    requires p.Running?
  {
    if NoCall(p) then o.Done?
    else if !turn.Good() then o == turn.o
    else if p.pc == Child(Listener) then o == if fine then Done else Partial
    else o.Done? || o.Partial?
  }

  /** The run holds one pass of the parent, from its start, with the calls ending as the turns say; `fine`
      says whether anything but the rollout of the children keeps the CR from Ready. */
  ghost predicate OnePass(first: Cluster, log: seq<Event>, turns: seq<Turn>, fine: bool)
    requires ValidRun(first, log) && |turns| == CALLS
  {
    log != [] && (
      var init, e := log[..|log| - 1], log[|log| - 1];
      if init == [] then e.ParentStarts?
      else
        && OnePass(first, init, turns, fine)
        && match e
           case ParentStarts => false
           case ParentCrashes => false
           case ParentCalls(o) =>
             var p := Run(first, init).parent;
             p.Running? && Follows(p, o, turns[Order(p.pc)], fine)
           case _ => true)
  }

  lemma OnePassExtends(first: Cluster, log: seq<Event>, turns: seq<Turn>, fine: bool, e: Event)
    requires ValidRun(first, log) && |turns| == CALLS && OnePass(first, log, turns, fine) && Enabled(Run(first, log), e)
    requires !e.ParentStarts? && !e.ParentCrashes?
    requires e.ParentCalls? ==> Follows(Run(first, log).parent, e.o, turns[Order(Run(first, log).parent.pc)], fine)
    ensures ValidRun(first, log + [e]) && OnePass(first, log + [e], turns, fine)
  {
    Extended(first, log, e);
    assert (log + [e])[..|log + [e]| - 1] == log;
  }

  lemma PassBegins(first: Cluster, turns: seq<Turn>, fine: bool)
    requires first.parent.Idle? && |turns| == CALLS
    ensures ValidRun(first, [ParentStarts]) && OnePass(first, [ParentStarts], turns, fine)
    ensures Run(first, [ParentStarts]) == first.(parent := ParentBegin(first))
  {
    assert [ParentStarts][..0] == [];
    assert ValidRun(first, []) && Run(first, []) == first;
    Extended(first, [], ParentStarts);
    assert [] + [ParentStarts] == [ParentStarts];
  }

  /** The pass after the call that has written child `k` and read whether it has rolled out. */
  function AfterChild(p: Pass, k: Kind, rolledOut: bool, ready: bool): Pass
    requires p.Running?
  {
    var ok := p.ok.With(k, rolledOut);
    match k
    case API => p.(pc := Child(Worker), ok := ok)
    case Worker => p.(pc := Accounts, ok := ok)
    case Listener => p.(pc := FinM, ok := ok, st := p.st.(obs := p.gen, ready := ready))
  }

  const NONE := Trio(false, false, false)

  /** The controller of the Barbican CR with the CR it is working on. */
  class ParentReconciler {
    var server: Cluster          // everything outside the controller
    var saved: map<Condition, Status>       // the conditions of the CR as the server holds them
    var spec: ParentSpec         // the instance: spec and generation as they were read
    var generation: nat
    var status: ParentStatus     // the instance: status, which PatchInstance saves
    var conditions: map<Condition, Status>  // the instance: conditions, saved likewise
    ghost var first: Cluster     // the run since this reconcile began
    ghost var log: seq<Event>
    ghost var pass: Pass
    ghost var schedule: seq<Turn>
    ghost var told: Deeds        // what has been done to the conditions before the children
    ghost var lists: Trio<bool>  // whether the other conditions of the children are True
    ghost var rest: bool         // whether nothing is missing in the list of the CR itself
    ghost var fine: bool         // all of this

    ghost function View(): Cluster
      reads this
    {
      server.(parent := pass)
    }

    ghost predicate Valid()
      reads this
    {
      && server.parent == Idle && |schedule| == CALLS
      && ValidRun(first, log) && Run(first, log) == View() && OnePass(first, log, schedule, fine)
    }

    /** The run so far has led to `s`. */
    ghost predicate Before(s: Cluster)
      reads this
    {
      |schedule| == CALLS && ValidRun(first, log) && Run(first, log) == s && OnePass(first, log, schedule, fine)
    }

    /** The call that is due, and how it will end. */
    ghost predicate Due(turn: Turn)
      reads this
    {
      pass.Running? && |schedule| == CALLS && turn == schedule[Order(pass.pc)] && !NoCall(pass)
    }

    /** The conditions of the children: True if the child has rolled out and has nothing else in its list. */
    ghost function Full(ok: Trio<bool>): Trio<bool>
      reads this
    {
      Trio(ok.api && lists.api, ok.worker && lists.worker, ok.listener && lists.listener)
    }

    /** What the pass will read from child `k`. */
    ghost predicate Lists(k: Kind, turn: Turn)
      reads this
    {
      lists.At(k) == ListTrue(turn.child)
    }

    /** What the turns make of the lists. */
    ghost predicate Foreseen(turns: seq<Turn>)
      reads this
      requires |turns| == CALLS
    {
      && (forall k: Kind :: Lists(k, turns[Order(Child(k))]))
      && (forall marks | marks == Marks(turns) :: rest == NothingMissing(saved, marks))
      && fine == (lists == Trio(true, true, true) && rest)
    }

    constructor (s: Cluster, saved: map<Condition, Status>)
      requires s.parent.Idle?
      ensures server == s && this.saved == saved
    {
      server, spec, generation, status := s, s.spec, s.gen, s.st;
      this.saved, conditions := saved, saved;
    }

    /** The other controllers, the Deployments and the environment move on. */
    method Interleave(others: seq<Event>)
      requires Valid()
      modifies this`server, this`log
      ensures Valid() && SameHolders(old(server), server)
    {
      for i := 0 to |others|
        invariant Valid() && SameHolders(old(server), server)
      {
        var e := others[i];
        if !OfParent(e) && Enabled(server, e) {
          OthersIgnoreParent(server, pass, e);
          Extended(first, log, e);
          OnePassExtends(first, log, schedule, fine, e);
          server, log := Apply(server, e), log + [e];
        }
      }
    }

    /** The bookkeeping of a call that took the cluster from `s` to the present one. */
    ghost method Commit(s: Cluster, o: Outcome)
      requires Before(s)
      requires s.parent.Running? && s.parent == pass && Follows(pass, o, schedule[Order(pass.pc)], fine)
      requires server == ParentStep(s, o).(parent := Idle)
      modifies this`log, this`pass
      ensures Valid() && pass == ParentStep(s, o).parent
    {
      Extended(first, log, ParentCalls(o));
      OnePassExtends(first, log, schedule, fine, ParentCalls(o));
      log, pass := log + [ParentCalls(o)], ParentStep(s, o).parent;
    }

    // -------------------------------------------------------------- API calls

    /** CreateOrUpdate of a TransportURL: its status, or None for an error. */
    method TransportURLCreateOrUpdate(b: Bus, turn: Turn) returns (secret: Option<Name>)
      requires Valid() && Due(turn) && pass.pc == (if b.Messaging? then UrlM else UrlN)
      requires pass.spec.notify || b.Messaging?
      modifies this`server, this`log, this`pass
      ensures Valid()
      ensures secret.Some? == turn.Good()
      ensures secret.Some? ==> secret.value == NoName || secret.value.bus == b
      ensures pass ==
        if secret.None? || secret.value == NoName then Bail(old(pass))
        else if b.Messaging? then
          old(pass).(pc := HoldM, cur := old(pass).cur.(m := secret.value),
                     st := old(pass).st.(tracked := FirstTracked(old(pass).st.tracked, b, Names(secret.value, NoName))))
        else
          old(pass).(pc := HoldN, cur := old(pass).cur.(n := secret.value),
                     st := old(pass).st.(tracked := FirstTracked(old(pass).st.tracked, b, Names(NoName, secret.value))))
    {
      Interleave(turn.others);
      ghost var s := View();
      if turn.Reaches() && b.Notifications? {
        server := server.(notifyURL := true);
      }
      secret := if turn.Good() then Some(server.url.On(b)) else None;
      Commit(s, turn.o);
    }

    method ManageSecretConsumerFinalizer(secret: Name, turn: Turn) returns (ok: bool)
      requires Valid() && Due(turn)
      requires (pass.pc.HoldM? && secret == pass.cur.m) || (pass.pc.HoldN? && secret == pass.cur.n)
      modifies this`server, this`log, this`pass
      ensures Valid()
      ensures ok == turn.Good()
      ensures pass == if !ok then Bail(old(pass))
                      else old(pass).(pc := if old(pass).pc.HoldM? && old(pass).spec.notify then UrlN else Inputs)
    {
      Interleave(turn.others);
      ghost var s := View();
      if turn.Reaches() {
        server := server.(held := server.held + {secret});
      }
      ok := turn.Good();
      Commit(s, turn.o);
    }

    /** A call whose effect lies outside this model: input checks, the database accounts. */
    method Plain(turn: Turn) returns (ok: bool)
      requires Valid() && Due(turn) && (pass.pc.Inputs? || pass.pc.Accounts?)
      modifies this`server, this`log, this`pass
      ensures Valid()
      ensures ok == turn.Good()
      ensures pass == if !ok then Bail(old(pass))
                      else old(pass).(pc := if old(pass).pc.Inputs? then Config else Child(Listener))
    {
      Interleave(turn.others);
      ghost var s := View();
      ok := turn.Good();
      Commit(s, turn.o);
    }

    method GenerateServiceConfig(transport: MessagingName, notifications: NotificationsName, turn: Turn)
      returns (ok: bool)
      requires Valid() && Due(turn) && pass.pc.Config? && pass.cur == Names(transport, notifications)
      modifies this`server, this`log, this`pass
      ensures Valid()
      ensures ok == turn.Good()
      ensures pass == if !ok then Bail(old(pass)) else old(pass).(pc := HoldAC)
    {
      Interleave(turn.others);
      ghost var s := View();
      if turn.Reaches() {
        server := server.(cfg := Names(transport, notifications));
      }
      ok := turn.Good();
      Commit(s, turn.o);
    }

    method HoldCredential(secret: string, turn: Turn) returns (ok: bool)
      requires Valid() && Due(turn) && pass.pc.HoldAC? && pass.spec.ac == secret != ""
      modifies this`server, this`log, this`pass
      ensures Valid()
      ensures ok == turn.Good()
      ensures pass == if !ok then Bail(old(pass)) else old(pass).(pc := DbSync)
    {
      Interleave(turn.others);
      ghost var s := View();
      if turn.Reaches() {
        server := server.(acHeld := server.acHeld + {secret});
      }
      ok := turn.Good();
      Commit(s, turn.o);
    }

    /** DoJob for the db-sync job, or else for the pkcs11-prep job: None for an error, otherwise whether
        the job of this template is done. */
    method DoJob(sync: bool, hash: Option<Template>, job: Template, turn: Turn) returns (done: Option<bool>)
      requires Valid() && Due(turn) && job == pass.spec.tpl
      requires if sync then pass.pc.DbSync? && hash == pass.st.db
               else pass.pc.Prep? && hash == pass.st.prep && job.pkcs11
      modifies this`server, this`log, this`pass
      ensures Valid()
      ensures done.Some? == turn.Good()
      ensures pass ==
        if done != Some(true) then Bail(old(pass))
        else if sync then old(pass).(pc := Prep, st := old(pass).st.(db := Some(job)))
        else old(pass).(pc := Child(API), st := old(pass).st.(prep := Some(job)))
    {
      Interleave(turn.others);
      ghost var s := View();
      done := if !turn.Good() then None
              else Some(hash == Some(job) || if sync then job in server.migrated else job in server.prepared);
      Commit(s, turn.o);
    }

    /** A branch of the reconcile function that makes no call. */
    ghost method Skip()
      requires Valid() && pass.Running? && NoCall(pass)
      modifies this`log, this`pass
      ensures Valid()
      ensures pass == old(pass).(
        pc := if old(pass).pc.HoldAC? then DbSync else if old(pass).pc.Prep? then Child(API) else FinAC)
    {
      Commit(View(), Done);
    }

    /** The finalizer of a replaced secret is removed, under the guard. */
    method ReleaseOld(was: Name, current: Name, guard: bool, turn: Turn) returns (ghost s: Cluster)
      requires Valid()
      modifies this`server, this`log
      ensures s.parent == pass && s.held == old(server.held) && s.notifyURL == old(server.notifyURL)
      ensures server == s.(parent := Idle,
        held := if turn.Reaches() then s.held - Released(was, current, NoName, guard) else s.held)
      ensures Before(s)
    {
      Interleave(turn.others);
      s := View();
      if turn.Reaches() && was != NoName && was != current && guard {
        server := server.(held := server.held - {was});
      }
    }

    /** FinalizeSecretRotation for the messaging secret: the name to track from now on, or None.  Only a tracked
        name that is not the current one loses its finalizer, and only under the guard. */
    method FinalizeMessagingRotation(was: MessagingName, current: MessagingName, guard: bool, turn: Turn)
      returns (tracked: Option<MessagingName>)
      requires Valid() && Due(turn) && guard == pass.Guard() && pass.pc.FinM?
      requires was == pass.st.tracked.m && current == pass.cur.m
      modifies this`server, this`log, this`pass
      ensures Valid()
      ensures tracked == if turn.Good() then Some(Finalized(was, current, NoName, guard)) else None
      ensures server.held ==
        if turn.Reaches() then old(server.held) - Released(was, current, NoName, guard) else old(server.held)
      ensures server.notifyURL == old(server.notifyURL)
      ensures pass ==
        if tracked.None? then Bail(old(pass))
        else old(pass).(pc := FinN, st := old(pass).st.(tracked := old(pass).st.tracked.(m := tracked.value)))
    {
      ghost var s := ReleaseOld(was, current, guard, turn);
      tracked := if !turn.Good() then None
                 else if was == NoName || was == current || guard then Some(current) else Some(was);
      Commit(s, turn.o);
    }

    /** FinalizeSecretRotation for the notifications secret: the name to track from now on, or None.  Only a tracked
        name that is not the current one loses its finalizer, and only under the guard. */
    method FinalizeNotificationsRotation(was: NotificationsName, current: NotificationsName, guard: bool, turn: Turn)
      returns (tracked: Option<NotificationsName>)
      requires Valid() && Due(turn) && guard == pass.Guard() && pass.pc.FinN? && pass.spec.notify
      requires was == pass.st.tracked.n && current == pass.cur.n
      modifies this`server, this`log, this`pass
      ensures Valid()
      ensures tracked == if turn.Good() then Some(Finalized(was, current, NoName, guard)) else None
      ensures server.held ==
        if turn.Reaches() then old(server.held) - Released(was, current, NoName, guard) else old(server.held)
      ensures server.notifyURL == old(server.notifyURL)
      ensures pass ==
        if tracked.None? then Bail(old(pass))
        else old(pass).(pc := FinAC, st := old(pass).st.(tracked := old(pass).st.tracked.(n := tracked.value)))
    {
      ghost var s := ReleaseOld(was, current, guard, turn);
      tracked := if !turn.Good() then None
                 else if was == NoName || was == current || guard then Some(current) else Some(was);
      Commit(s, turn.o);
    }

    method ReleaseOldCredential(was: string, current: string, guard: bool, turn: Turn) returns (ghost s: Cluster)
      requires Valid()
      modifies this`server, this`log
      ensures s.parent == pass && SameHolders(old(server), s)
      ensures server == s.(parent := Idle,
        acHeld := if turn.Reaches() then s.acHeld - Released(was, current, "", guard) else s.acHeld)
      ensures Before(s)
    {
      Interleave(turn.others);
      s := View();
      if turn.Reaches() && was != "" && was != current && guard {
        server := server.(acHeld := server.acHeld - {was});
      }
    }

    method FinalizeCredentialRotation(was: string, current: string, guard: bool, turn: Turn)
      returns (tracked: Option<string>)
      requires Valid() && Due(turn) && guard == pass.Guard() && pass.pc.FinAC?
      requires was == pass.st.ac && current == pass.spec.ac
      modifies this`server, this`log, this`pass
      ensures Valid()
      ensures tracked == if turn.Good() then Some(Finalized(was, current, "", guard)) else None
      ensures server.held == old(server.held) && server.notifyURL == old(server.notifyURL)
      ensures server.acHeld ==
        if turn.Reaches() then old(server.acHeld) - Released(was, current, "", guard) else old(server.acHeld)
      ensures pass == if tracked.None? then Bail(old(pass))
                      else old(pass).(pc := PruneT, st := old(pass).st.(ac := tracked.value))
    {
      ghost var s := ReleaseOldCredential(was, current, guard, turn);
      tracked := if !turn.Good() then None
                 else if was == "" || was == current || guard then Some(current) else Some(was);
      Commit(s, turn.o);
    }

    method RemoveSecretConsumerFinalizer(secret: Name, turn: Turn) returns (ok: bool)
      requires Valid() && Due(turn) && pass.pc.FinN? && !pass.spec.notify && pass.Guard()
      requires secret == pass.st.tracked.n != NoName
      modifies this`server, this`log, this`pass
      ensures Valid()
      ensures ok == turn.Good()
      ensures server.held == if turn.Reaches() then old(server.held) - {secret} else old(server.held)
      ensures server.notifyURL == old(server.notifyURL)
      ensures pass == if !ok then Bail(old(pass)) else old(pass).(pc := DropURL)
    {
      Interleave(turn.others);
      ghost var s := View();
      if turn.Reaches() {
        server := server.(held := server.held - {secret});
      }
      ok := turn.Good();
      Commit(s, turn.o);
    }

    method TransportURLDeleted(turn: Turn) returns (ok: bool)
      requires Valid() && Due(turn) && pass.pc.DropURL?
      modifies this`server, this`log, this`pass
      ensures Valid()
      ensures server.held == old(server.held) && server.notifyURL == (old(server.notifyURL) && !turn.Reaches())
      ensures ok == turn.Good()
      ensures pass == if !ok then Bail(old(pass))
                      else old(pass).(pc := FinAC, st := old(pass).st.(tracked := old(pass).st.tracked.(n := NoName)))
    {
      Interleave(turn.others);
      ghost var s := View();
      if turn.Reaches() {
        server := server.(notifyURL := false, url := server.url.(n := NoName));
      }
      ok := turn.Good();
      Commit(s, turn.o);
    }

    /** PruneSecretConsumerFinalizers for the transport finalizer; an error may leave some of the work undone. */
    method PruneTransportFinalizers(keep: set<Name>, turn: Turn) returns (ok: bool)
      requires Valid() && Due(turn) && pass.pc.PruneT? && keep == Keep(pass)
      modifies this`server, this`log, this`pass
      ensures Valid()
      ensures ok == turn.Good()
      ensures server.acHeld == old(server.acHeld) && old(server.held) * keep <= server.held <= old(server.held)
      ensures ok ==> server.held == old(server.held) * keep
      ensures pass == if !ok then Bail(old(pass)) else old(pass).(pc := PruneAC)
    {
      Interleave(turn.others);
      ghost var s := View();
      if turn.Reaches() {
        var reached := if turn.o.Torn? then server.held * turn.o.names else server.held;
        server := server.(held := server.held - (reached - keep));
      }
      ok := turn.Good();
      Commit(s, turn.o);
    }

    method PruneCredentialFinalizers(keep: set<string>, turn: Turn) returns (ok: bool)
      requires Valid() && Due(turn) && pass.pc.PruneAC? && keep == {pass.st.ac, pass.spec.ac}
      modifies this`server, this`log, this`pass
      ensures Valid()
      ensures ok == turn.Good()
      ensures server.held == old(server.held) && old(server.acHeld) * keep <= server.acHeld <= old(server.acHeld)
      ensures ok ==> server.acHeld == old(server.acHeld) * keep
      ensures pass == old(pass).(pc := Patch)
    {
      Interleave(turn.others);
      ghost var s := View();
      if turn.Reaches() {
        var reached := if turn.o.Torn? then server.acHeld * turn.o.creds else server.acHeld;
        server := server.(acHeld := server.acHeld - (reached - keep));
      }
      ok := turn.Good();
      Commit(s, turn.o);
    }

    /** The deferred function makes an Unknown Ready the mirror of the list. */
    method Defer()
      requires Decided()
      modifies this`conditions
      ensures Decided() && conditions == Deferred(old(conditions))
    {
      DeferredIsNotReady(conditions);
      if conditions[Ready] == IsUnknown {
        conditions := conditions[Ready := Mirror(conditions).value];
      }
    }

    /** The deferred patch. */
    method PatchInstance(turn: Turn)
      requires Valid() && Due(turn) && pass.pc.Patch? && pass.st == status
      requires Decided()
      modifies this`server, this`log, this`pass, this`saved
      ensures Valid() && pass == Idle
      ensures server.st == (if turn.Reaches() then status else old(server.st))
      ensures saved == if turn.Reaches() then conditions else old(saved)
    {
      Interleave(turn.others);
      ghost var s := View();
      if turn.Reaches() {
        server, saved := server.(st := status), conditions;
      }
      Commit(s, turn.o);
    }

    // -------------------------------------------------------------- the reconcile function

    /** One reconcile of the CR, from reading it to the deferred patch of its status.  Whatever the
        cluster does meanwhile and however the calls end: `log` is a run of the state machine from the
        cluster as it was to the cluster as it is now, and it holds exactly one pass of this controller,
        in which each call ends as its turn says. */
    method Reconcile(turns: seq<Turn>)
      requires server.parent == Idle && |turns| == CALLS
      modifies this
      ensures server.parent == Idle && first == old(server)
      ensures ValidRun(first, log) && Run(first, log) == server
      ensures OnePass(first, log, turns, AllFine(turns, old(saved)))
      ensures Decided() && saved == if turns[Order(Patch)].Reaches() then conditions else old(saved)
    {
      Get(turns);
      ReconcileNormal(turns);
      DeferredPatch(turns);
    }

    /** What is deferred to every return of the function. */
    method DeferredPatch(turns: seq<Turn>)
      requires By(turns) && Returned()
      modifies this`server, this`log, this`pass, this`saved, this`conditions
      ensures By(turns) && pass == Idle && Decided() && conditions == Deferred(old(conditions))
      ensures saved == if turns[Order(Patch)].Reaches() then conditions else old(saved)
    {
      Defer();
      PatchInstance(turns[Order(Patch)]);
    }

    /** Reads the CR; Init makes Ready and the conditions of the children Unknown. */
    method Get(turns: seq<Turn>)
      requires server.parent == Idle && |turns| == CALLS
      modifies this
      ensures By(turns) && server == old(server) && first == server
      ensures pass == Running(UrlM, spec, generation, NOTHING, status, NONE) && Fresh()
      ensures saved == old(saved) && Foreseen(turns) && fine == AllFine(turns, saved)
      ensures told == Begun(saved, ParentList(spec.notify))
    {
      spec, generation, status := server.spec, server.gen, server.st.(ready := false);
      InitConditions();
      Begin(turns);
    }

    method InitConditions()
      modifies this`conditions, this`told
      ensures Undecided(conditions, NONE) && Tells(conditions, told) && told == Begun(saved, ParentList(spec.notify))
    {
      InitUndecided(saved, spec.notify);
      InitTells(saved, ParentList(spec.notify));
      conditions := Init(saved, ParentList(spec.notify));
      told := Begun(saved, ParentList(spec.notify));
    }

    ghost method Foresee(turns: seq<Turn>)
      requires |turns| == CALLS
      modifies this`lists, this`rest, this`fine
      ensures Foreseen(turns) && fine == AllFine(turns, saved)
    {
      lists, rest, fine := ListsOf(turns), NothingMissing(saved, Marks(turns)), AllFine(turns, saved);
      forall k: Kind ensures Lists(k, turns[Order(Child(k))]) {
        ListsAt(turns, k);
      }
    }

    /** The bookkeeping of the start of a pass. */
    ghost method Begin(turns: seq<Turn>)
      requires server.parent == Idle && |turns| == CALLS
      modifies this`first, this`log, this`pass, this`schedule, this`lists, this`rest, this`fine
      ensures By(turns) && first == server && Foreseen(turns) && fine == AllFine(turns, saved)
      ensures pass == Running(UrlM, server.spec, server.gen, NOTHING, server.st.(ready := false), NONE)
    {
      Foresee(turns);
      PassBegins(server, turns, fine);
      first, log, pass, schedule := server, [ParentStarts], ParentBegin(server), turns;
    }

    /** The locals describe the pass. */
    ghost predicate At(pc: PC, names: Names)
      reads this
    {
      && pass.Running? && pass.pc == pc && pass.spec == spec && pass.gen == generation
      && pass.cur == names && pass.st == status
    }

    /** Ready is still Unknown, and the condition of a child is True exactly if the pass has read it as full. */
    ghost predicate Unread()
      reads this
    {
      pass.Running? && !status.ready && Undecided(conditions, Full(pass.ok))
    }

    /** The Ready condition is in the list, and True exactly if the status says so. */
    ghost predicate Decided()
      reads this
    {
      Ready in conditions && (Holds(conditions, Ready) <==> status.ready)
    }

    /** The function has returned and its status is what the deferred patch will save. */
    ghost predicate Returned()
      reads this
    {
      pass.Running? && pass.pc.Patch? && pass.st == status && Decided()
    }

    /** The turns of the pass. */
    ghost predicate By(turns: seq<Turn>)
      reads this
    {
      Valid() && schedule == turns
    }

    /** Nothing has been read of the children yet. */
    ghost predicate Fresh()
      reads this
    {
      Unread() && pass.ok == NONE && Tells(conditions, told)
    }

    /** Sets a condition that is not derived from the children, after what library calls have set. */
    method Note(ghost full: Trio<bool>, marks: map<Condition, Status>, c: Condition, holds: bool)
      requires c != Ready && !c.OfChild? && Undecided(conditions, full) && Tells(conditions, told)
      modifies this`conditions, this`told
      ensures Undecided(conditions, full) && if holds then Holds(conditions, c) else Failing(conditions, c)
      ensures holds ==> Tells(conditions, told) && told == Did(old(told), marks, c)
    {
      SetUndecided(conditions, full, marks, c, holds);
      if holds {
        SetTells(conditions, told, marks, c);
        told := Did(told, marks, c);
      }
      conditions := Set(Marked(conditions, marks), c, holds);
    }

    /** Takes the condition of the notifications bus out of the list. */
    method Drop()
      requires Undecided(conditions, NONE) && Tells(conditions, told)
      modifies this`conditions, this`told
      ensures Undecided(conditions, NONE) && Tells(conditions, told)
      ensures told == Dropped(old(told), TransportURL(Notifications))
    {
      RemoveUndecided(conditions, NONE, TransportURL(Notifications));
      RemoveTells(conditions, told, TransportURL(Notifications));
      conditions := Remove(conditions, TransportURL(Notifications));
      told := Dropped(told, TransportURL(Notifications));
    }

    method ReconcileNormal(turns: seq<Turn>)
      requires By(turns) && Fresh()
      requires pass == Running(UrlM, spec, generation, NOTHING, status, NONE)
      requires told == Begun(saved, ParentList(spec.notify))
      requires Foreseen(turns)
      modifies this`server, this`log, this`pass, this`status, this`conditions, this`told
      ensures By(turns) && Returned()
    {
      var transport, notifications, ok := PrepareChildren(turns);
      if !ok { return; }
      CheckMissing(turns);
      var allServicesReady;
      ok, allServicesReady := ReconcileChildren(transport, notifications, turns);
      if !ok { return; }
      ok := FinalizeRotation(transport, notifications, allServicesReady, turns);
      if !ok { return; }
      Prune(transport, notifications, turns);
    }

    /** What keeps the CR from Ready beside the children was known from the start. */
    ghost method CheckMissing(turns: seq<Turn>)
      requires |turns| == CALLS && Foreseen(turns) && Tells(conditions, told)
      requires told == BeforeChildren(saved, spec.notify, turns[Order(Inputs)].marks, turns[Order(DbSync)].marks)
      ensures RestTrue(conditions) == rest
    {
      MissingInParent(conditions, saved, spec.notify, turns[Order(Inputs)].marks, turns[Order(DbSync)].marks);
      assert Marks(turns) == turns[Order(Inputs)].marks + turns[Order(DbSync)].marks;
    }

    /** The function up to the children. */
    method PrepareChildren(turns: seq<Turn>)
      returns (transport: MessagingName, notifications: NotificationsName, ok: bool)
      requires By(turns) && Fresh()
      requires pass == Running(UrlM, spec, generation, NOTHING, status, NONE)
      requires told == Begun(saved, ParentList(spec.notify))
      modifies this`server, this`log, this`pass, this`status, this`conditions, this`told
      ensures By(turns)
      ensures if ok then At(Child(API), Names(transport, notifications)) && Fresh() else Returned()
      ensures ok ==>
        told == BeforeChildren(saved, spec.notify, turns[Order(Inputs)].marks, turns[Order(DbSync)].marks)
    {
      transport, notifications, ok := ReadTransports(turns);
      if !ok { return; }
      ok := PrepareInputs(transport, notifications, turns);
      if !ok { return; }
      ok := ReconcileInit(turns, Names(transport, notifications));
    }

    /** The inputs are checked and rendered. */
    method PrepareInputs(transport: MessagingName, notifications: NotificationsName, turns: seq<Turn>)
      returns (ok: bool)
      requires By(turns) && At(Inputs, Names(transport, notifications)) && Fresh()
      modifies this`server, this`log, this`pass, this`conditions, this`told
      ensures By(turns)
      ensures if ok then At(DbSync, Names(transport, notifications)) && Fresh() else Returned()
      ensures ok ==> told == Prepared(old(told), turns[Order(Inputs)].marks)
    {
      ok := CheckInputs(Names(transport, notifications), turns);
      if !ok { return; }
      ok := PrepareConfig(transport, notifications, turns);
    }

    /** The names in the two TransportURLs; with notifications off there is only the one, and no condition of
        the other is left in the list. */
    method ReadTransports(turns: seq<Turn>)
      returns (transport: MessagingName, notifications: NotificationsName, go: bool)
      requires By(turns) && Fresh()
      requires pass == Running(UrlM, spec, generation, NOTHING, status, NONE)
      requires told == Begun(saved, ParentList(spec.notify))
      modifies this`server, this`log, this`pass, this`status, this`conditions, this`told
      ensures By(turns)
      ensures if go then At(Inputs, Names(transport, notifications)) && Fresh() else Returned()
      ensures go ==> told == Named(Did(old(told), map[], TransportURL(Messaging)), spec.notify)
    {
      notifications := NoName;
      transport, go := ReadMessaging(turns);
      if !go { return; }
      if spec.notify {
        notifications, go := ReadNotifications(transport, turns);
      } else {
        Drop();
      }
    }

    /** The name of the messaging secret, tracked if nothing was tracked before; `go` is false when the
        function returns here. */
    method FetchMessaging(turns: seq<Turn>) returns (transport: MessagingName, go: bool)
      requires By(turns) && Fresh() && pass == Running(UrlM, spec, generation, NOTHING, status, NONE)
      modifies this`server, this`log, this`pass, this`status, this`conditions, this`told
      ensures By(turns)
      ensures if go then At(HoldM, Names(transport, NoName)) && Fresh() else Returned()
      ensures !go ==> Failing(conditions, TransportURL(Messaging))
      ensures go ==> told == old(told)
      ensures go ==> transport != NoName
      ensures status.tracked.m == old(status.tracked.m) || old(status.tracked.m) == NoName
    {
      transport, go := NoName, false;
      var secret := TransportURLCreateOrUpdate(Messaging, turns[Order(UrlM)]);
      if secret.None? || secret.value == NoName {
        Note(Full(pass.ok), map[], TransportURL(Messaging), false);
        return;
      }
      transport, go := secret.value, true;
      if status.tracked.m == NoName {
        status := status.(tracked := status.tracked.(m := transport));
      }
    }

    /** The messaging TransportURL: its secret is held before the function goes on. */
    method ReadMessaging(turns: seq<Turn>) returns (transport: MessagingName, go: bool)
      requires By(turns) && Fresh() && pass == Running(UrlM, spec, generation, NOTHING, status, NONE)
      modifies this`server, this`log, this`pass, this`status, this`conditions, this`told
      ensures By(turns)
      ensures if go
              then At(if spec.notify then UrlN else Inputs, Names(transport, NoName)) && Fresh()
              else Returned()
      ensures go ==> told == Did(old(told), map[], TransportURL(Messaging))
      ensures go ==> transport != NoName
      ensures status.tracked.m == old(status.tracked.m) || old(status.tracked.m) == NoName
    {
      transport, go := FetchMessaging(turns);
      if !go { return; }
      go := ManageSecretConsumerFinalizer(transport, turns[Order(HoldM)]);
      if go {
        Note(Full(pass.ok), map[], TransportURL(Messaging), true);
      }
    }

    /** The name of the notifications secret, likewise. */
    method FetchNotifications(transport: MessagingName, turns: seq<Turn>)
      returns (notifications: NotificationsName, go: bool)
      requires By(turns) && At(UrlN, Names(transport, NoName)) && Fresh() && spec.notify
      modifies this`server, this`log, this`pass, this`status, this`conditions, this`told
      ensures By(turns)
      ensures if go then At(HoldN, Names(transport, notifications)) && Fresh() else Returned()
      ensures !go ==> Failing(conditions, TransportURL(Notifications))
      ensures go ==> told == old(told)
      ensures go ==> notifications != NoName
      ensures status.tracked.n == old(status.tracked.n) || old(status.tracked.n) == NoName
    {
      notifications, go := NoName, false;
      var secret := TransportURLCreateOrUpdate(Notifications, turns[Order(UrlN)]);
      if secret.None? || secret.value == NoName {
        Note(Full(pass.ok), map[], TransportURL(Notifications), false);
        return;
      }
      notifications, go := secret.value, true;
      if status.tracked.n == NoName {
        status := status.(tracked := status.tracked.(n := notifications));
      }
    }

    method ReadNotifications(transport: MessagingName, turns: seq<Turn>)
      returns (notifications: NotificationsName, go: bool)
      requires By(turns) && At(UrlN, Names(transport, NoName)) && Fresh() && spec.notify
      modifies this`server, this`log, this`pass, this`status, this`conditions, this`told
      ensures By(turns)
      ensures if go then At(Inputs, Names(transport, notifications)) && Fresh() else Returned()
      ensures go ==> told == Did(old(told), map[], TransportURL(Notifications))
      ensures go ==> notifications != NoName
      ensures status.tracked.n == old(status.tracked.n) || old(status.tracked.n) == NoName
    {
      notifications, go := FetchNotifications(transport, turns);
      if !go { return; }
      go := ManageSecretConsumerFinalizer(notifications, turns[Order(HoldN)]);
      if go {
        Note(Full(pass.ok), map[], TransportURL(Notifications), true);
      }
    }

    method CheckInputs(ghost names: Names, turns: seq<Turn>) returns (ok: bool)
      requires By(turns) && At(Inputs, names) && Fresh()
      modifies this`server, this`log, this`pass, this`conditions, this`told
      ensures By(turns)
      ensures if ok then At(Config, names) && Fresh() else Returned()
      ensures !ok ==> Failing(conditions, InputReady)
      ensures ok ==> told == Did(old(told), turns[Order(Inputs)].marks, InputReady)
    {
      ok := Plain(turns[Order(Inputs)]);
      Note(Full(pass.ok), turns[Order(Inputs)].marks, InputReady, ok);
    }

    /** The config Secret, and after it the finalizer on the application credential. */
    method PrepareConfig(transport: MessagingName, notifications: NotificationsName, turns: seq<Turn>)
      returns (ok: bool)
      requires By(turns) && At(Config, Names(transport, notifications)) && Fresh()
      modifies this`server, this`log, this`pass, this`conditions, this`told
      ensures By(turns)
      ensures if ok then At(DbSync, Names(transport, notifications)) && Fresh() else Returned()
      ensures !ok ==> Failing(conditions, ServiceConfig)
      ensures ok ==> told == Did(old(told), map[], ServiceConfig)
    {
      ok := RenderConfig(transport, notifications, turns);
      Note(Full(pass.ok), map[], ServiceConfig, ok);
    }

    method RenderConfig(transport: MessagingName, notifications: NotificationsName, turns: seq<Turn>)
      returns (ok: bool)
      requires By(turns) && At(Config, Names(transport, notifications))
      modifies this`server, this`log, this`pass
      ensures By(turns) && pass.Running? && pass.ok == old(pass.ok)
      ensures if ok then At(DbSync, Names(transport, notifications)) else pass.pc.Patch? && pass.st == status
    {
      ok := GenerateServiceConfig(transport, notifications, turns[Order(Config)]);
      if ok {
        ok := HoldCurrentCredential(Names(transport, notifications), turns);
      }
    }

    method HoldCurrentCredential(ghost names: Names, turns: seq<Turn>) returns (ok: bool)
      requires By(turns) && At(HoldAC, names)
      modifies this`server, this`log, this`pass
      ensures By(turns) && pass.Running? && pass.ok == old(pass.ok)
      ensures if ok then At(DbSync, names) else pass.pc.Patch? && pass.st == status
    {
      ok := true;
      if spec.ac != "" {
        ok := HoldCredential(spec.ac, turns[Order(HoldAC)]);
      } else {
        Skip();
      }
    }

    method SyncDatabase(turns: seq<Turn>, ghost names: Names) returns (ok: bool)
      requires By(turns) && At(DbSync, names) && Fresh()
      modifies this`server, this`log, this`pass, this`status, this`conditions, this`told
      ensures By(turns)
      ensures if ok then At(Prep, names) && Fresh() else Returned()
      ensures !ok ==> Failing(conditions, DBSync)
      ensures ok ==> told == Did(old(told), turns[Order(DbSync)].marks, DBSync)
      ensures ok ==> status.db == Some(spec.tpl)
    {
      ok := RunDBSyncJob(turns, names);
      Note(Full(pass.ok), turns[Order(DbSync)].marks, DBSync, ok);
    }

    method RunDBSyncJob(turns: seq<Turn>, ghost names: Names) returns (ok: bool)
      requires By(turns) && At(DbSync, names)
      modifies this`server, this`log, this`pass, this`status
      ensures By(turns) && pass.Running? && pass.ok == old(pass.ok)
      ensures if ok then At(Prep, names) else pass.pc.Patch? && pass.st == status
      ensures status == if ok then old(status).(db := Some(spec.tpl)) else old(status)
    {
      var done := DoJob(true, status.db, spec.tpl, turns[Order(DbSync)]);
      ok := done == Some(true);
      if ok {
        status := status.(db := Some(spec.tpl));
      }
    }

    method PreparePKCS11(turns: seq<Turn>, ghost names: Names) returns (ok: bool)
      requires By(turns) && At(Prep, names) && Fresh()
      modifies this`server, this`log, this`pass, this`status, this`conditions, this`told
      ensures By(turns)
      ensures if ok then At(Child(API), names) && Fresh() else Returned()
      ensures !ok ==> Failing(conditions, PKCS11Prep)
      ensures ok ==> told == Did(old(told), map[], PKCS11Prep)
      ensures status.db == old(status.db) && (ok && spec.tpl.pkcs11 ==> status.prep == Some(spec.tpl))
    {
      ok := RunPKCS11Job(turns, names);
      Note(Full(pass.ok), map[], PKCS11Prep, ok);
    }

    /** Runs the job if PKCS11 is wanted. */
    method RunPKCS11Job(turns: seq<Turn>, ghost names: Names) returns (ok: bool)
      requires By(turns) && At(Prep, names)
      modifies this`server, this`log, this`pass, this`status
      ensures By(turns) && pass.Running? && pass.ok == old(pass.ok)
      ensures if ok then At(Child(API), names) else pass.pc.Patch? && pass.st == status
      ensures status == if ok && spec.tpl.pkcs11 then old(status).(prep := Some(spec.tpl)) else old(status)
    {
      ok := true;
      if spec.tpl.pkcs11 {
        var done := DoJob(false, status.prep, spec.tpl, turns[Order(Prep)]);
        ok := done == Some(true);
        if ok {
          status := status.(prep := Some(spec.tpl));
        }
      } else {
        Skip();
      }
    }

    /** The two jobs: the function goes on only with the hashes of both recorded, as far as they are wanted. */
    method ReconcileInit(turns: seq<Turn>, ghost names: Names) returns (ok: bool)
      requires By(turns) && At(DbSync, names) && Fresh()
      modifies this`server, this`log, this`pass, this`status, this`conditions, this`told
      ensures By(turns)
      ensures if ok then At(Child(API), names) && Fresh() else Returned()
      ensures ok ==> told == Synced(old(told), turns[Order(DbSync)].marks)
      ensures ok ==> status.db == Some(spec.tpl) && (spec.tpl.pkcs11 ==> status.prep == Some(spec.tpl))
    {
      ok := SyncDatabase(turns, names);
      if !ok { return; }
      ok := PreparePKCS11(turns, names);
      if !ok { return; }
      Note(Full(pass.ok), map[], NetworkAttachments, true);
    }

    /** A child has been written, and the call still has to be committed. */
    ghost predicate Pending(s: Cluster, k: Kind, child: KidSpec)
      reads this
    {
      && Before(s)
      && pass.Running? && s.parent == pass && pass.pc == Child(k) && child == KidSpec(pass.spec.tpl, pass.cur)
      && schedule[Order(pass.pc)].Good()
      && server == s.(kids := s.kids.With(k, s.kids.At(k).Push(child)), parent := Idle)
    }

    /** CreateOrUpdate of a child, with what the function does to the condition of the child: None for an
        error, otherwise whether the child has rolled out these names. */
    method WriteChild(k: Kind, child: KidSpec, turn: Turn) returns (rolledOut: Option<bool>, ghost s: Cluster)
      requires Valid() && Due(turn) && pass.pc == Child(k) && child == KidSpec(pass.spec.tpl, pass.cur)
      requires Unread() && RestTrue(conditions) == rest && !pass.ok.At(k) && Lists(k, turn)
      modifies this`server, this`log, this`pass, this`conditions
      ensures rolledOut.Some? == turn.Good()
      ensures rolledOut.Some? ==>
        && Pending(s, k, child) && pass == old(pass)
        && rolledOut.value == s.kids.At(k).Push(child).Reports(child.names)
        && Undecided(conditions, Full(pass.ok.With(k, rolledOut.value))) && RestTrue(conditions) == rest
      ensures rolledOut.None? ==> Valid() && pass == Bail(old(pass)) && Decided() && Failing(conditions, OfChild(k))
    {
      var kid;
      kid, s := CreateOrUpdate(k, child, turn);
      if turn.Good() {
        var current := ReadKid(k, child.names, kid, turn.child);
        rolledOut := Some(current);
      } else {
        rolledOut := None;
        Blame(k);
        Commit(s, turn.o);
      }
    }

    /** The write itself: what the function has of the child afterwards. */
    method CreateOrUpdate(k: Kind, child: KidSpec, turn: Turn) returns (kid: Kid, ghost s: Cluster)
      requires Valid()
      modifies this`server, this`log
      ensures server == if turn.Reaches() then s.(kids := s.kids.With(k, kid), parent := Idle) else s.(parent := Idle)
      ensures s.parent == pass && kid == s.kids.At(k).Push(child)
      ensures Before(s)
    {
      Interleave(turn.others);
      s := View();
      kid := server.kids.At(k).Push(child);
      if turn.Reaches() {
        server := server.(kids := server.kids.With(k, kid));
      }
    }

    method Blame(k: Kind)
      requires Decided()
      modifies this`conditions
      ensures Decided() && Failing(conditions, OfChild(k))
    {
      conditions := conditions[OfChild(k) := IsFalse];
    }

    /** What the function reads from a child, and the condition that it derives from it. */
    method ReadKid(k: Kind, names: Names, kid: Kid, others: map<Condition, Status>) returns (rolledOut: bool)
      requires Unread() && RestTrue(conditions) == rest && !pass.ok.At(k)
      requires kid.log != [] && lists.At(k) == ListTrue(others)
      modifies this`conditions
      ensures rolledOut == kid.Reports(names)
      ensures Undecided(conditions, Full(pass.ok.With(k, rolledOut))) && RestTrue(conditions) == rest
    {
      var current := kid.Gen() == kid.obs && kid.applied == Some(names);
      var list := ListOf(kid, others);
      rolledOut := current && kid.ready;
      if current {
        ListMirror(kid, others);
      }
      ReadUndecided(conditions, Full(pass.ok), k, current, list);
      ReadLeavesRest(conditions, k, current, list);
      conditions := ReadChild(conditions, k, current, list);
    }

    /** The bookkeeping of a successful write of a child. */
    ghost method CommitChild(s: Cluster, k: Kind, child: KidSpec, o: Outcome)
      requires Pending(s, k, child) && (o.Done? || o.Partial?) && (k.Listener? ==> o == if fine then Done else Partial)
      modifies this`log, this`pass
      ensures var rolledOut := s.kids.At(k).Push(child).Reports(child.names);
        var ok := old(pass).ok.With(k, rolledOut);
        Valid() && pass == AfterChild(old(pass), k, rolledOut, ok.api && ok.worker && ok.listener && o.Done?)
    {
      Commit(s, o);
    }

    /** One of the first two children. */
    method EnsureChild(k: Kind, child: KidSpec, turn: Turn) returns (rolledOut: Option<bool>)
      requires Valid() && Due(turn) && pass.pc == Child(k) && child == KidSpec(pass.spec.tpl, pass.cur)
      requires Unread() && RestTrue(conditions) == rest && !pass.ok.At(k) && !k.Listener?
      requires Lists(k, turn)
      modifies this`server, this`log, this`pass, this`conditions
      ensures Valid() && rolledOut.Some? == turn.Good()
      ensures rolledOut.None? ==> pass == Bail(old(pass)) && Decided()
      ensures rolledOut.Some? ==>
        pass == AfterChild(old(pass), k, rolledOut.value, false) && Unread() && RestTrue(conditions) == rest
    {
      ghost var s;
      rolledOut, s := WriteChild(k, child, turn);
      if rolledOut.Some? {
        CommitChild(s, k, child, turn.o);
      }
    }

    /** The last child: after it the CR becomes Ready if every other condition is True.  That this implies
        that all three children have rolled out is what makes the pass one of the state machine. */
    method EnsureLastChild(child: KidSpec, turn: Turn) returns (rolledOut: Option<bool>)
      requires Valid() && Due(turn) && pass.pc == Child(Listener) && child == KidSpec(pass.spec.tpl, pass.cur)
      requires Unread() && RestTrue(conditions) == rest && !pass.ok.listener && Lists(Listener, turn)
      requires fine == (lists.api && lists.worker && lists.listener && rest)
      requires pass.st == status && pass.gen == generation
      modifies this`server, this`log, this`pass, this`status, this`conditions
      ensures Valid() && rolledOut.Some? == turn.Good() && Decided()
      ensures rolledOut.None? ==> pass == Bail(old(pass)) && status == old(status)
      ensures rolledOut.Some? ==>
        && pass == AfterChild(old(pass), Listener, rolledOut.value, status.ready) && pass.st == status
        && status == old(status).(obs := generation, ready := AllSubTrue(conditions))
        && (status.ready <==> pass.Guard() && fine)
    {
      ghost var s;
      rolledOut, s := WriteChild(Listener, child, turn);
      if rolledOut.Some? {
        Judge(pass.ok.With(Listener, rolledOut.value));
        CommitChild(s, Listener, child, if fine then Done else Partial);
      }
    }

    /** The end of the first half of the function: the generation is observed, and the CR is Ready exactly if
        every other condition is True.  That is so if and only if all three flags are set, the lists of the
        children hold nothing else, and nothing is missing in the CR's own list. */
    method Judge(ghost ok: Trio<bool>)
      requires fine == (lists.api && lists.worker && lists.listener && rest)
      requires !status.ready && Undecided(conditions, Full(ok)) && RestTrue(conditions) == rest
      modifies this`status, this`conditions
      ensures Decided() && status == old(status).(obs := generation, ready := AllSubTrue(conditions))
      ensures status.ready <==> ok.api && ok.worker && ok.listener && fine
    {
      status := status.(obs := generation);
      ParentReady(conditions, Full(ok));
      if AllSubTrue(conditions) {
        conditions, status := conditions[Ready := IsTrue], status.(ready := true);
      }
    }

    method EnsureFirst(k: Kind, child: KidSpec, turns: seq<Turn>) returns (rolledOut: Option<bool>)
      requires By(turns) && !k.Listener? && At(Child(k), child.names) && child.tpl == spec.tpl && Unread()
      requires RestTrue(conditions) == rest && !pass.ok.At(k) && Lists(k, turns[Order(Child(k))])
      modifies this`server, this`log, this`pass, this`conditions
      ensures By(turns)
      ensures if rolledOut.Some?
              then At(if k.API? then Child(Worker) else Accounts, child.names) && Unread()
              else Returned()
      ensures rolledOut.Some? ==> RestTrue(conditions) == rest
      ensures rolledOut.Some? ==> pass.ok == old(pass.ok).With(k, rolledOut.value)
    {
      rolledOut := EnsureChild(k, child, turns[Order(Child(k))]);
    }

    /** The API and the Worker child; `ready` is set if both have rolled out. */
    method EnsureTwo(child: KidSpec, turns: seq<Turn>) returns (ok: bool, ready: bool)
      requires By(turns) && At(Child(API), child.names) && child.tpl == spec.tpl && Fresh()
      requires RestTrue(conditions) == rest && Lists(API, turns[Order(Child(API))])
      requires Lists(Worker, turns[Order(Child(Worker))])
      modifies this`server, this`log, this`pass, this`conditions
      ensures By(turns)
      ensures if ok then At(Accounts, child.names) && Unread() && RestTrue(conditions) == rest else Returned()
      ensures ok ==> ready == (pass.ok.api && pass.ok.worker) && !pass.ok.listener
    {
      ok, ready := false, false;
      var api := EnsureFirst(API, child, turns);
      if api.None? { return; }
      var worker := EnsureFirst(Worker, child, turns);
      if worker.None? { return; }
      ok, ready := true, api.value && worker.value;
    }

    /** Writes and reads the three children in turn. */
    method ReconcileChildren(transport: MessagingName, notifications: NotificationsName, turns: seq<Turn>)
      returns (ok: bool, allServicesReady: bool)
      requires By(turns) && At(Child(API), Names(transport, notifications)) && Fresh()
      requires RestTrue(conditions) == rest && Foreseen(turns)
      modifies this`server, this`log, this`pass, this`status, this`conditions
      ensures By(turns) && Decided()
      ensures if ok then At(FinM, Names(transport, notifications)) && allServicesReady == pass.Guard() else Returned()
      ensures ok ==> status.ready == (allServicesReady && fine)
    {
      var child := KidSpec(spec.tpl, Names(transport, notifications));
      ok, allServicesReady := EnsureTwo(child, turns);
      if !ok { return; }
      ok, allServicesReady := EnsureThird(child, allServicesReady, turns);
    }

    method PurgeAccounts(ghost names: Names, turns: seq<Turn>) returns (ok: bool)
      requires By(turns) && At(Accounts, names) && Unread()
      modifies this`server, this`log, this`pass
      ensures By(turns) && pass.Running? && pass.ok == old(pass.ok)
      ensures if ok then At(Child(Listener), names) && Unread() else Returned()
    {
      ok := Plain(turns[Order(Accounts)]);
    }

    /** The KeystoneListener child, after the database accounts; `two` is set if the first two have rolled out. */
    method EnsureThird(child: KidSpec, two: bool, turns: seq<Turn>) returns (ok: bool, ready: bool)
      requires By(turns) && At(Accounts, child.names) && child.tpl == spec.tpl && Unread()
      requires RestTrue(conditions) == rest && Lists(Listener, turns[Order(Child(Listener))])
      requires fine == (lists == Trio(true, true, true) && rest)
      requires two == (pass.ok.api && pass.ok.worker) && !pass.ok.listener
      modifies this`server, this`log, this`pass, this`status, this`conditions
      ensures By(turns) && Decided()
      ensures if ok then At(FinM, child.names) && ready == pass.Guard() else Returned()
      ensures ok ==> status.ready == (ready && fine)
    {
      ready := false;
      ok := PurgeAccounts(child.names, turns);
      if !ok { return; }
      var listener := EnsureLastChild(child, turns[Order(Child(Listener))]);
      ok := listener.Some?;
      ready := two && listener == Some(true);
    }

    method FinalizeRotation(transport: MessagingName, notifications: NotificationsName, guardReady: bool,
                            turns: seq<Turn>)
      returns (ok: bool)
      requires By(turns) && At(FinM, Names(transport, notifications)) && guardReady == pass.Guard() && Decided()
      modifies this`server, this`log, this`pass, this`status
      ensures By(turns) && Decided()
      ensures if ok then At(PruneT, Names(transport, notifications)) else Returned()
    {
      ok := FinalizeMessaging(transport, Names(transport, notifications), guardReady, turns);
      if !ok { return; }
      ok := FinalizeNotifications(transport, notifications, guardReady, turns);
      if !ok { return; }
      ok := FinalizeCredential(Names(transport, notifications), guardReady, turns);
    }

    method FinalizeMessaging(transport: MessagingName, ghost names: Names, guardReady: bool, turns: seq<Turn>)
      returns (ok: bool)
      requires By(turns) && At(FinM, names) && transport == names.m && guardReady == pass.Guard() && Decided()
      modifies this`server, this`log, this`pass, this`status
      ensures By(turns) && Decided()
      ensures if ok then At(FinN, names) && guardReady == pass.Guard() else Returned()
      ensures ok ==> status.tracked.m == Finalized(old(status.tracked.m), transport, NoName, guardReady)
    {
      var moved := FinalizeMessagingRotation(status.tracked.m, transport, guardReady, turns[Order(FinM)]);
      ok := moved.Some?;
      if ok {
        status := status.(tracked := status.tracked.(m := moved.value));
      }
    }

    method FinalizeCredential(ghost names: Names, guardReady: bool, turns: seq<Turn>) returns (ok: bool)
      requires By(turns) && At(FinAC, names) && guardReady == pass.Guard() && Decided()
      modifies this`server, this`log, this`pass, this`status
      ensures By(turns) && Decided()
      ensures if ok then At(PruneT, names) else Returned()
      ensures ok ==> status.ac == Finalized(old(status.ac), spec.ac, "", guardReady)
    {
      var moved := FinalizeCredentialRotation(status.ac, spec.ac, guardReady, turns[Order(FinAC)]);
      ok := moved.Some?;
      if ok {
        status := status.(ac := moved.value);
      }
    }

    /** Ends a rotation of the notifications secret or, with notifications off, tears the bus down: the secret
        is released before the TransportURL is deleted, and forgotten only after that; without the guard none
        of this happens. */
    method FinalizeNotifications(ghost transport: MessagingName, notifications: NotificationsName,
                                 guardReady: bool, turns: seq<Turn>)
      returns (ok: bool)
      requires By(turns) && At(FinN, Names(transport, notifications)) && guardReady == pass.Guard() && Decided()
      modifies this`server, this`log, this`pass, this`status
      ensures By(turns) && Decided()
      ensures if ok then At(FinAC, Names(transport, notifications)) && guardReady == pass.Guard() else Returned()
      ensures old(server.notifyURL) && !server.notifyURL ==>
        !spec.notify && guardReady && old(status.tracked.n) != NoName && old(status.tracked.n) !in server.held
      ensures !spec.notify && status.tracked.n != old(status.tracked.n) ==>
        status.tracked.n == NoName && !server.notifyURL && old(status.tracked.n) !in server.held
      ensures !guardReady ==> server.held == old(server.held)
      ensures ok && !spec.notify && guardReady ==> status.tracked.n == NoName
    {
      ok := false;
      if spec.notify {
        var moved := FinalizeNotificationsRotation(status.tracked.n, notifications, guardReady, turns[Order(FinN)]);
        if moved.None? { return; }
        status := status.(tracked := status.tracked.(n := moved.value));
        ok := true;
      } else if status.tracked.n != NoName && guardReady {
        ok := TearDown(Names(transport, notifications), turns);
      } else {
        Skip();
        ok := true;
      }
    }

    /** Releases the notifications secret, deletes the TransportURL and forgets the name, in this order. */
    method TearDown(ghost names: Names, turns: seq<Turn>) returns (ok: bool)
      requires By(turns) && At(FinN, names) && pass.Guard() && !spec.notify && status.tracked.n != NoName && Decided()
      modifies this`server, this`log, this`pass, this`status
      ensures By(turns) && Decided()
      ensures if ok then At(FinAC, names) && pass.Guard() else Returned()
      ensures old(server.notifyURL) && !server.notifyURL ==> old(status.tracked.n) !in server.held
      ensures if ok then status == old(status).(tracked := old(status.tracked).(n := NoName)) else status == old(status)
      ensures ok ==> !server.notifyURL && old(status.tracked.n) !in server.held
    {
      ok := RemoveSecretConsumerFinalizer(status.tracked.n, turns[Order(FinN)]);
      if !ok { return; }
      ok := DeleteAndForget(names, turns);
    }

    method DeleteAndForget(ghost names: Names, turns: seq<Turn>) returns (ok: bool)
      requires By(turns) && At(DropURL, names) && pass.Guard() && Decided()
      modifies this`server, this`log, this`pass, this`status
      ensures By(turns) && Decided() && server.held == old(server.held)
      ensures if ok then At(FinAC, names) && pass.Guard() else Returned()
      ensures if ok then status == old(status).(tracked := old(status.tracked).(n := NoName)) else status == old(status)
      ensures ok ==> !server.notifyURL
    {
      ok := TransportURLDeleted(turns[Order(DropURL)]);
      if ok {
        status := status.(tracked := status.tracked.(n := NoName));
      }
    }

    /** Both prunes: only what is neither tracked nor current loses a finalizer, and all of it if no call errs. */
    method Prune(transport: MessagingName, notifications: NotificationsName, turns: seq<Turn>)
      requires By(turns) && At(PruneT, Names(transport, notifications)) && Decided()
      modifies this`server, this`log, this`pass
      ensures By(turns) && Returned()
      ensures var keep: set<Name> := {status.tracked.m, transport, status.tracked.n, notifications};
        && old(server.held) * keep <= server.held <= old(server.held)
        && (turns[Order(PruneT)].Good() ==> server.held == old(server.held) * keep)
      ensures var keep := {status.ac, spec.ac};
        && old(server.acHeld) * keep <= server.acHeld <= old(server.acHeld)
        && (turns[Order(PruneT)].Good() && turns[Order(PruneAC)].Good() ==> server.acHeld == old(server.acHeld) * keep)
    {
      var keep: set<Name> := {status.tracked.m, transport, status.tracked.n, notifications};
      var ok := PruneTransportFinalizers(keep, turns[Order(PruneT)]);
      if !ok { return; }
      ok := PruneCredentialFinalizers({status.ac, spec.ac}, turns[Order(PruneAC)]);
    }
  }
}
