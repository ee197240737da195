/** When a pass makes its CR Ready: not only never too early, but always when nothing is missing. */
module Completion {
  import opened Cluster
  import opened Conditions
  import opened Reconcilers
  import opened ChildReconcilers

  // ---------------------------------------------------------------- the parent

  /** The calls up to the last child and the deferred patch report no error; what comes between, the end of a
      rotation and the prunes, may fail. */
  predicate Answered(turns: seq<Turn>)
    requires |turns| == CALLS
  {
    turns[Order(Patch)].Good() && forall i :: 0 <= i <= Order(Child(Listener)) ==> turns[i].Good()
  }

  /** What the call at the program counter looks for is there: a name, or a finished job. */
  predicate Provided(s: Cluster)
    requires s.parent.Running?
  {
    var p := s.parent;
    match p.pc
    case UrlM => s.url.m != NoName
    case UrlN => s.url.n != NoName
    case DbSync => p.st.db == Some(p.spec.tpl) || p.spec.tpl in s.migrated
    case Prep => p.spec.tpl.pkcs11 ==> p.st.prep == Some(p.spec.tpl) || p.spec.tpl in s.prepared
    case _ => true
  }

  /** A child that the call writes has rolled out the names of the pass. */
  predicate Rolled(s: Cluster)
    requires s.parent.Running?
  {
    var p := s.parent;
    p.pc.Child? ==> s.kids.At(p.pc.kind).Push(KidSpec(p.spec.tpl, p.cur)).Reports(p.cur)
  }

  /** Every call of the parent in the run finds what it looks for. */
  ghost predicate AllProvided(first: Cluster, log: seq<Event>)
    requires ValidRun(first, log)
  {
    log == [] || (
      var init, e := log[..|log| - 1], log[|log| - 1];
      AllProvided(first, init) && (e.ParentCalls? ==> Provided(Run(first, init))))
  }

  /** Every child that the parent writes in the run has rolled out. */
  ghost predicate AllRolled(first: Cluster, log: seq<Event>)
    requires ValidRun(first, log)
  {
    log == [] || (
      var init, e := log[..|log| - 1], log[|log| - 1];
      AllRolled(first, init) && (e.ParentCalls? ==> Rolled(Run(first, init))))
  }

  /** How far the pass has come, and what it has found so far. */
  predicate Underway(first: Cluster, s: Cluster, rolled: bool, fine: bool) {
    var p := s.parent;
    if p.Idle? then s.st.ready == (rolled && fine) && s.st.obs == first.gen
    else
      && p.gen == first.gen
      && rolled == (
           if Order(p.pc) <= Order(Child(API)) then true
           else if p.pc == Child(Worker) then p.ok.api
           else if Order(p.pc) <= Order(Child(Listener)) then p.ok.api && p.ok.worker
           else p.Guard())
      && (Order(p.pc) > Order(Child(Listener)) ==> p.st.ready == (rolled && fine) && p.st.obs == first.gen)
  }

  lemma CallUnderway(first: Cluster, s: Cluster, rolled: bool, fine: bool, turns: seq<Turn>, o: Outcome)
    requires s.parent.Running? && |turns| == CALLS && Answered(turns) && Provided(s)
    requires Underway(first, s, rolled, fine) && Follows(s.parent, o, turns[Order(s.parent.pc)], fine)
    ensures Underway(first, ParentStep(s, o), rolled && Rolled(s), fine)
  {
    if Order(s.parent.pc) <= Order(Child(Listener)) {
      assert turns[Order(s.parent.pc)].Good();
      EarlyUnderway(first, s, rolled, fine, turns[Order(s.parent.pc)], o);
    } else {
      LateUnderway(first, s, rolled, fine, o);
    }
  }

  lemma EarlyUnderway(first: Cluster, s: Cluster, rolled: bool, fine: bool, turn: Turn, o: Outcome)
    requires s.parent.Running? && Order(s.parent.pc) <= Order(Child(Listener)) && turn.Good() && Provided(s)
    requires Underway(first, s, rolled, fine) && Follows(s.parent, o, turn, fine)
    ensures Underway(first, ParentStep(s, o), rolled && Rolled(s), fine)
  {
  }

  lemma LateUnderway(first: Cluster, s: Cluster, rolled: bool, fine: bool, o: Outcome)
    requires s.parent.Running? && Order(s.parent.pc) > Order(Child(Listener))
    requires s.parent.pc.Patch? ==> o.Done? || o.Partial?
    requires Underway(first, s, rolled, fine)
    ensures Underway(first, ParentStep(s, o), rolled && Rolled(s), fine)
  {
  }

  lemma OthersUnderway(first: Cluster, s: Cluster, rolled: bool, fine: bool, e: Event)
    requires Enabled(s, e) && !OfParent(e) && Underway(first, s, rolled, fine)
    ensures Underway(first, Apply(s, e), rolled, fine)
  {
  }

  lemma {:induction false} PassUnderway(first: Cluster, log: seq<Event>, turns: seq<Turn>, fine: bool)
    requires ValidRun(first, log) && |turns| == CALLS && OnePass(first, log, turns, fine)
    requires Answered(turns) && AllProvided(first, log)
    ensures Underway(first, Run(first, log), AllRolled(first, log), fine)
  {
    var init, e := log[..|log| - 1], log[|log| - 1];
    if init != [] {
      PassUnderway(first, init, turns, fine);
      var s := Run(first, init);
      if e.ParentCalls? {
        CallUnderway(first, s, AllRolled(first, init), fine, turns, e.o);
      } else {
        OthersUnderway(first, s, AllRolled(first, init), fine, e);
      }
    }
  }

  /** A finished pass whose calls have been answered and have found the names and the jobs makes the CR Ready
      if and only if the three children had rolled out when it read them, their lists hold nothing but True
      and nothing is missing in the CR's own list; and it has observed the generation that it read. */
  lemma ReadyWhenNothingMissing(first: Cluster, log: seq<Event>, turns: seq<Turn>, saved: Conditions)
    requires ValidRun(first, log) && |turns| == CALLS && OnePass(first, log, turns, AllFine(turns, saved))
    requires Answered(turns) && AllProvided(first, log) && Run(first, log).parent.Idle?
    ensures var s := Run(first, log);
      && (s.st.ready <==> AllRolled(first, log) && AllFine(turns, saved))
      && s.st.obs == first.gen
  {
    PassUnderway(first, log, turns, AllFine(turns, saved));
  }

  /** A saved condition of the notifications bus is no obstacle, whatever its status. */
  lemma BusIsNoObstacle(turns: seq<Turn>, saved: Conditions, status: Status)
    requires |turns| == CALLS
    ensures AllFine(turns, saved[TransportURL(Notifications) := status]) == AllFine(turns, saved)
  {
    var bus := TransportURL(Notifications);
    assert forall c :: c != bus ==> (c in saved[bus := status] <==> c in saved);
  }

  // ---------------------------------------------------------------- the children

  predicate KidAnswered(turns: seq<Turn>) { forall turn <- turns :: turn.Good() }

  /** The hash that stops the API controller is already recorded, and the Deployment has rolled out. */
  predicate KidRolled(k: Kind, kid: Kid)
    requires kid.pass.Working?
  {
    && (kid.pass.pc.Hash? && k.API? ==> kid.pass.recorded == Some(KidInput(kid)))
    && (kid.pass.pc.Check? ==> kid.RolledOut(KidInput(kid)))
  }

  ghost predicate AllKidRolled(k: Kind, first: Cluster, log: seq<Event>)
    requires ValidRun(first, log)
  {
    log == [] || (
      var init, e := log[..|log| - 1], log[|log| - 1];
      && AllKidRolled(k, first, init)
      && (e.KidCalls? && e.k == k ==> KidRolled(k, Run(first, init).kids.At(k))))
  }

  predicate KidUnderway(old_: Kid, kid: Kid, rolled: bool, fine: bool) {
    var q, names := kid.pass, old_.Spec().names;
    if q.Resting? then
      kid.ready == (rolled && fine) && kid.obs == old_.Gen() && (kid.ready ==> kid.applied == Some(names))
    else
      && q.gen == old_.Gen() && q.spec == old_.Spec()
      && (if q.pc.Store? then q.ready == (rolled && fine) && (q.ready ==> q.applied == Some(names))
          else rolled && !q.ready)
  }

  lemma KidCallUnderway(k: Kind, old_: Kid, kid: Kid, cfg: Names, rolled: bool, fine: bool, turn: Turn, o: Outcome)
    requires kid.pass.Working? && turn.Good()
    requires KidUnderway(old_, kid, rolled, fine) && KidFollows(kid.pass.pc, o, turn, fine)
    ensures KidUnderway(old_, KidStep(k, kid, cfg, o), rolled && KidRolled(k, kid), fine)
  {
  }

  /** What others do leaves the pass of the child and the status that it saves alone. */
  lemma OthersLeaveKid(s: Cluster, k: Kind, e: Event)
    requires Enabled(s, e) && !ByChild(e, k)
    ensures SameReport(s.kids.At(k), Apply(s, e).kids.At(k))
  {
    if e.ParentCalls? {
      ParentLeavesKid(s, k, e.o);
    } else if InChild(e) && e.k != k {
      assert Apply(s, e).kids.At(k) == s.kids.At(k);
    }
  }

  predicate SameReport(kid: Kid, then_: Kid) {
    then_.pass == kid.pass && then_.obs == kid.obs && then_.ready == kid.ready && then_.applied == kid.applied
  }

  lemma ParentLeavesKid(s: Cluster, k: Kind, o: Outcome)
    requires s.parent.Running?
    ensures SameReport(s.kids.At(k), ParentStep(s, o).kids.At(k))
  {
    if !s.parent.pc.Child? {
      assert Effect(s, o).kids == s.kids;
    }
  }

  lemma {:induction false} KidPassUnderway(k: Kind, first: Cluster, log: seq<Event>, turns: seq<Turn>, fine: bool)
    requires ValidRun(first, log) && |turns| == KID_CALLS && OneKidPass(k, first, log, turns, fine)
    requires KidAnswered(turns)
    ensures KidUnderway(first.kids.At(k), Run(first, log).kids.At(k), AllKidRolled(k, first, log), fine)
  {
    var init, e := log[..|log| - 1], log[|log| - 1];
    if init == [] {
      assert Run(first, log).kids.At(k) == KidBegin(first.kids.At(k));
    } else {
      KidPassUnderway(k, first, init, turns, fine);
      var s := Run(first, init);
      if ByChild(e, k) {
        var q := s.kids.At(k).pass;
        KidCallUnderway(k, first.kids.At(k), s.kids.At(k), s.cfg, AllKidRolled(k, first, init), fine,
                        turns[KidOrder(q.pc)], e.ko);
        assert Run(first, log).kids.At(k) == KidStep(k, s.kids.At(k), s.cfg, e.ko);
      } else {
        OthersLeaveKid(s, k, e);
      }
    }
  }

  /** A finished pass of a child whose calls have been answered makes it Ready if and only if its Deployment
      had rolled out at the check, the API controller had the hash recorded before, and nothing is missing in
      the list; a Ready child has applied the names of the spec that the pass read. */
  lemma KidReadyWhenNothingMissing(k: Kind, first: Cluster, log: seq<Event>, turns: seq<Turn>, saved: Conditions)
    requires ValidRun(first, log) && |turns| == KID_CALLS && OneKidPass(k, first, log, turns, KidFine(k, turns, saved))
    requires KidAnswered(turns) && Run(first, log).kids.At(k).pass.Resting?
    ensures var kid, was := Run(first, log).kids.At(k), first.kids.At(k);
      && (kid.ready <==> AllKidRolled(k, first, log) && KidFine(k, turns, saved))
      && kid.obs == was.Gen() && (kid.ready ==> kid.applied == Some(was.Spec().names))
  {
    KidPassUnderway(k, first, log, turns, KidFine(k, turns, saved));
  }
}
