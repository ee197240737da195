/** The condition lists of the CRs: three-valued conditions, the worst-of mirror that a parent takes of a
    child's list, and how Ready follows from a list. */
module Conditions {
  import opened Cluster

  datatype Status = IsFalse | IsUnknown | IsTrue

  datatype Condition =
    | Ready
    | DBReady | MariaDBAccount | PKCS11Prep | DBSync | InputReady | ServiceConfig | OfChild(kind: Kind)
    | NetworkAttachments | ServiceAccount | Role | RoleBinding | KeystoneService | TransportURL(bus: Bus)
    | CreateService | Deployment | KeystoneEndpoint | TLSInput

  type Conditions = map<Condition, Status>

  predicate Holds(cs: Conditions, c: Condition) { c in cs && cs[c] == IsTrue }

  predicate Failing(cs: Conditions, c: Condition) { c in cs && cs[c] == IsFalse }

  /** Init: the listed conditions become Unknown, the others stay as they were saved. */
  function Init(saved: Conditions, listed: set<Condition>): (cs: Conditions)
    ensures forall c :: c in listed ==> c in cs && cs[c] == IsUnknown
    ensures forall c :: c !in listed ==> (c in cs <==> c in saved) && (c in cs ==> cs[c] == saved[c])
  {
    saved + map c | c in listed :: IsUnknown
  }

  /** AllSubConditionIsTrue: everything but Ready itself is True. */
  predicate AllSubTrue(cs: Conditions) { forall c <- cs :: c != Ready ==> cs[c] == IsTrue }

  /** Mirror: the worst status in the list, False before Unknown before True; nothing of an empty list. */
  function Mirror(cs: Conditions): Option<Status> {
    if cs == map[] then None
    else if exists c <- cs :: cs[c] == IsFalse then Some(IsFalse)
    else if exists c <- cs :: cs[c] == IsUnknown then Some(IsUnknown)
    else Some(IsTrue)
  }

  /** A list that has been saved at all contains Ready. */
  predicate WellFormed(cs: Conditions) { cs == map[] || Ready in cs }

  lemma MirrorIsWorst(cs: Conditions)
    ensures Mirror(cs) == Some(IsTrue) <==> cs != map[] && forall c <- cs :: cs[c] == IsTrue
    ensures Mirror(cs) == Some(IsFalse) <==> exists c :: Failing(cs, c)
    ensures Mirror(cs) == None <==> cs == map[]
    ensures WellFormed(cs) && Mirror(cs) == Some(IsTrue) ==> Holds(cs, Ready)
    ensures Ready in cs && cs[Ready] != IsTrue ==> Mirror(cs).Some? && Mirror(cs) != Some(IsTrue)
  {
    if c :| Failing(cs, c) {
      assert c in cs && cs[c] == IsFalse;
    }
    if Mirror(cs) == Some(IsFalse) {
      var c :| c in cs && cs[c] == IsFalse;
      assert Failing(cs, c);
    }
  }

  /** Ready is still Unknown, and the condition of a child is True exactly if its flag is set. */
  ghost predicate Undecided(cs: Conditions, full: Trio<bool>) {
    && Ready in cs && cs[Ready] == IsUnknown
    && forall k: Kind :: OfChild(k) in cs && (Holds(cs, OfChild(k)) <==> full.At(k))
  }

  /** Set, for the conditions that are not derived from others. */
  function Set(cs: Conditions, c: Condition, ok: bool): Conditions
    requires c != Ready && !c.OfChild?
  {
    cs[c := if ok then IsTrue else IsFalse]
  }

  function Remove(cs: Conditions, c: Condition): Conditions
    requires c != Ready && !c.OfChild?
  {
    cs - {c}
  }

  /** The conditions that only library calls outside this model set. */
  const OUTSIDE: set<Condition> :=
    {DBReady, MariaDBAccount, KeystoneService, ServiceAccount, Role, RoleBinding, NetworkAttachments,
     CreateService, KeystoneEndpoint, TLSInput}

  function Marked(cs: Conditions, marks: Conditions): Conditions {
    cs + map c | c in marks && c in OUTSIDE :: marks[c]
  }

  lemma SetUndecided(cs: Conditions, full: Trio<bool>, marks: Conditions, c: Condition, ok: bool)
    requires Undecided(cs, full) && c != Ready && !c.OfChild?
    ensures Undecided(Set(Marked(cs, marks), c, ok), full)
  {
  }

  lemma RemoveUndecided(cs: Conditions, full: Trio<bool>, c: Condition)
    requires Undecided(cs, full) && c != Ready && !c.OfChild?
    ensures Undecided(Remove(cs, c), full)
  {
  }

  lemma InitUndecided(saved: Conditions, notify: bool)
    ensures Undecided(Init(saved, ParentList(notify)), Trio(false, false, false))
  {
    var cs := Init(saved, ParentList(notify));
    forall k: Kind ensures OfChild(k) in cs && !Holds(cs, OfChild(k)) {
      assert k.API? || k.Worker? || k.Listener?;
    }
  }

  /** Reading a child sets its condition, and to True exactly if it is current with an all-True list. */
  lemma ReadUndecided(cs: Conditions, full: Trio<bool>, k: Kind, current: bool, list: Conditions)
    requires Undecided(cs, full) && !full.At(k)
    ensures Undecided(ReadChild(cs, k, current, list), full.With(k, current && Mirror(list) == Some(IsTrue)))
  {
  }

  // ---------------------------------------------------------------- what keeps a CR from Ready

  /** The library conditions that a parent lists and does not set itself. */
  predicate ParentLibrary(c: Condition) { c.DBReady? || c.ServiceAccount? || c.Role? || c.RoleBinding? }

  /** The listed conditions that its function sets with the notifications bus on or off. */
  predicate ParentSets(c: Condition) {
    c.InputReady? || c.ServiceConfig? || c.DBSync? || c.PKCS11Prep? || c.NetworkAttachments?
  }

  /** The conditions that the parent derives itself. */
  predicate Own(c: Condition) { c.Ready? || c.OfChild? }

  /** The conditions that neither Init resets for a parent nor its function sets. */
  predicate Foreign(c: Condition) { !ParentLibrary(c) && !ParentSets(c) && !Own(c) && !c.TransportURL? }

  /** Nothing but the children can keep a parent from Ready: the library calls have marked everything that is
      listed and nothing but True, and what was saved beside the list is True. */
  ghost predicate NothingMissing(saved: Conditions, marks: Conditions) {
    && (forall c: Condition :: ParentLibrary(c) ==> c in marks)
    && (forall c <- marks :: c in OUTSIDE && c != NetworkAttachments ==> marks[c] == IsTrue)
    && (forall c <- saved :: Foreign(c) && !(c in OUTSIDE && c in marks) ==> saved[c] == IsTrue)
  }

  /** What the function has done to its list since Init: conditions that it has set to True, each after what
      library calls had marked by then, and conditions that it has removed. */
  datatype Deeds =
    | Begun(saved: Conditions, listed: set<Condition>)
    | Did(before: Deeds, marks: Conditions, c: Condition)
    | Dropped(before: Deeds, c: Condition)
  {
    function Left(d: Condition): Option<Status> {
      match this
      case Begun(saved, listed) => if d in listed then Some(IsUnknown) else StatusOf(saved, d)
      case Did(before, marks, c) => if d == c then Some(IsTrue) else MarkOf(d, marks, before.Left(d))
      case Dropped(before, c) => if d == c then None else before.Left(d)
    }
  }

  /** The list is what the deeds have left of it. */
  ghost predicate Tells(cs: Conditions, told: Deeds) {
    forall c: Condition :: StatusOf(cs, c) == told.Left(c)
  }

  lemma InitTells(saved: Conditions, listed: set<Condition>)
    ensures Tells(Init(saved, listed), Begun(saved, listed))
  {
  }

  lemma SetTells(cs: Conditions, told: Deeds, marks: Conditions, c: Condition)
    requires Tells(cs, told) && c != Ready && !c.OfChild?
    ensures Tells(Set(Marked(cs, marks), c, true), Did(told, marks, c))
  {
    forall d: Condition ensures StatusOf(Set(Marked(cs, marks), c, true), d) == Did(told, marks, c).Left(d) {
      MarkedAt(cs, marks, d);
      SetAt(Marked(cs, marks), c, true, d);
    }
  }

  lemma RemoveTells(cs: Conditions, told: Deeds, c: Condition)
    requires Tells(cs, told) && c != Ready && !c.OfChild?
    ensures Tells(Remove(cs, c), Dropped(told, c))
  {
  }

  /** What a parent has done when it comes to its children. */
  function BeforeChildren(saved: Conditions, notify: bool, inputs: Conditions, sync: Conditions): Deeds {
    Synced(Prepared(Named(Did(Begun(saved, ParentList(notify)), map[], TransportURL(Messaging)), notify), inputs), sync)
  }

  function Named(told: Deeds, notify: bool): Deeds {
    if notify then Did(told, map[], TransportURL(Notifications)) else Dropped(told, TransportURL(Notifications))
  }

  function Prepared(told: Deeds, inputs: Conditions): Deeds {
    Did(Did(told, inputs, InputReady), map[], ServiceConfig)
  }

  function Synced(told: Deeds, sync: Conditions): Deeds {
    Did(Did(Did(told, sync, DBSync), map[], PKCS11Prep), map[], NetworkAttachments)
  }

  predicate RestTrue(cs: Conditions) { forall c <- cs :: !Own(c) ==> cs[c] == IsTrue }

  function StatusOf(cs: Conditions, c: Condition): Option<Status> { if c in cs then Some(cs[c]) else None }

  function MarkOf(c: Condition, marks: Conditions, else_: Option<Status>): Option<Status> {
    if c in OUTSIDE && c in marks then Some(marks[c]) else else_
  }

  lemma SetAt(cs: Conditions, c: Condition, ok: bool, d: Condition)
    requires c != Ready && !c.OfChild?
    ensures StatusOf(Set(cs, c, ok), d) == if c == d then Some(if ok then IsTrue else IsFalse) else StatusOf(cs, d)
  {
  }

  lemma MarkedAt(cs: Conditions, marks: Conditions, d: Condition)
    ensures StatusOf(Marked(cs, marks), d) == MarkOf(d, marks, StatusOf(cs, d))
  {
  }

  /** What is left of a condition `c` when the parent comes to its children. */
  function Left(saved: Conditions, marks: Conditions, c: Condition): Option<Status> {
    if c == TransportURL(Messaging) || ParentSets(c) then Some(IsTrue)
    else if ParentLibrary(c) then MarkOf(c, marks, Some(IsUnknown))
    else MarkOf(c, marks, StatusOf(saved, c))
  }

  lemma BeforeChildrenAt(saved: Conditions, notify: bool, inputs: Conditions, sync: Conditions, c: Condition)
    requires !Own(c)
    ensures BeforeChildren(saved, notify, inputs, sync).Left(c) ==
      if c == TransportURL(Notifications) then if notify then Some(IsTrue) else None
      else Left(saved, inputs + sync, c)
  {
    if c != TransportURL(Notifications) {
      ListedAt(saved, notify, c);
    }
    WorkedAt(Did(Begun(saved, ParentList(notify)), map[], TransportURL(Messaging)), notify, inputs, sync, c);
  }

  lemma ListedAt(saved: Conditions, notify: bool, c: Condition)
    requires !Own(c) && c != TransportURL(Notifications)
    ensures Did(Begun(saved, ParentList(notify)), map[], TransportURL(Messaging)).Left(c) ==
      if c == TransportURL(Messaging) then Some(IsTrue)
      else if ParentLibrary(c) || ParentSets(c) then Some(IsUnknown)
      else StatusOf(saved, c)
  {
    InListAt(notify, c);
  }

  lemma WorkedAt(listed: Deeds, notify: bool, inputs: Conditions, sync: Conditions, c: Condition)
    ensures Synced(Prepared(Named(listed, notify), inputs), sync).Left(c) ==
      if c == TransportURL(Notifications) then if notify then Some(IsTrue) else None
      else if ParentSets(c) then Some(IsTrue)
      else MarkOf(c, inputs + sync, listed.Left(c))
  {
    var named := Named(listed, notify);
    PreparedAt(named, inputs, c);
    SyncedAt(Prepared(named, inputs), sync, c);
    MarkTwice(c, inputs, sync, named.Left(c));
  }

  lemma InListAt(notify: bool, c: Condition)
    requires !Own(c)
    ensures c in ParentList(notify) <==>
      ParentLibrary(c) || ParentSets(c) || (notify && c == TransportURL(Notifications))
  {
  }

  lemma PreparedAt(told: Deeds, inputs: Conditions, c: Condition)
    ensures Prepared(told, inputs).Left(c) ==
      if c == InputReady || c == ServiceConfig then Some(IsTrue) else MarkOf(c, inputs, told.Left(c))
  {
  }

  lemma SyncedAt(told: Deeds, sync: Conditions, c: Condition)
    ensures Synced(told, sync).Left(c) ==
      if c == DBSync || c == PKCS11Prep || c == NetworkAttachments then Some(IsTrue) else MarkOf(c, sync, told.Left(c))
  {
    var synced := Did(told, sync, DBSync);
    assert Did(synced, map[], PKCS11Prep).Left(c) == if c == PKCS11Prep then Some(IsTrue) else synced.Left(c);
  }

  lemma MarkTwice(c: Condition, inputs: Conditions, sync: Conditions, o: Option<Status>)
    ensures MarkOf(c, sync, MarkOf(c, inputs, o)) == MarkOf(c, inputs + sync, o)
  {
  }

  predicate Fine(o: Option<Status>) { o == None || o == Some(IsTrue) }

  lemma LeftFine(saved: Conditions, marks: Conditions)
    requires forall c: Condition :: !Own(c) && c != TransportURL(Notifications) ==> Fine(Left(saved, marks, c))
    ensures NothingMissing(saved, marks)
  {
    forall c: Condition | ParentLibrary(c) ensures c in marks {
      assert Fine(Left(saved, marks, c));
    }
    forall c | c in marks && c in OUTSIDE && c != NetworkAttachments ensures marks[c] == IsTrue {
      assert Fine(Left(saved, marks, c));
    }
    forall c | c in saved && Foreign(c) && !(c in OUTSIDE && c in marks) ensures saved[c] == IsTrue {
      assert Fine(Left(saved, marks, c));
    }
  }

  lemma FineLeft(saved: Conditions, marks: Conditions, c: Condition)
    requires NothingMissing(saved, marks) && !Own(c) && c != TransportURL(Notifications)
    ensures Fine(Left(saved, marks, c))
  {
    match c
    case TransportURL(bus) => assert bus.Messaging?;
    case _ =>
  }

  lemma MissingInParent(cs: Conditions, saved: Conditions, notify: bool, inputs: Conditions, sync: Conditions)
    requires Tells(cs, BeforeChildren(saved, notify, inputs, sync))
    ensures RestTrue(cs) <==> NothingMissing(saved, inputs + sync)
  {
    var told, marks := BeforeChildren(saved, notify, inputs, sync), inputs + sync;
    if RestTrue(cs) {
      forall c: Condition | !Own(c) && c != TransportURL(Notifications) ensures Fine(Left(saved, marks, c)) {
        BeforeChildrenAt(saved, notify, inputs, sync, c);
        assert Fine(StatusOf(cs, c)) && StatusOf(cs, c) == told.Left(c);
      }
      LeftFine(saved, marks);
    }
    if NothingMissing(saved, marks) {
      forall c | c in cs && !Own(c) ensures cs[c] == IsTrue {
        BeforeChildrenAt(saved, notify, inputs, sync, c);
        if c != TransportURL(Notifications) {
          FineLeft(saved, marks, c);
        }
        assert Fine(StatusOf(cs, c)) && StatusOf(cs, c) == told.Left(c);
      }
    }
  }

  /** What the flags and the rest say together about Ready. */
  lemma ParentReady(cs: Conditions, full: Trio<bool>)
    requires Undecided(cs, full)
    ensures AllSubTrue(cs) <==> RestTrue(cs) && full.api && full.worker && full.listener
  {
    assert full.At(API) == full.api && full.At(Worker) == full.worker && full.At(Listener) == full.listener;
    if RestTrue(cs) && full.api && full.worker && full.listener {
      forall c | c in cs && c != Ready ensures cs[c] == IsTrue {
        if c.OfChild? {
          assert c.kind.API? || c.kind.Worker? || c.kind.Listener?;
        }
      }
    }
  }

  lemma ReadLeavesRest(cs: Conditions, k: Kind, current: bool, list: Conditions)
    ensures RestTrue(ReadChild(cs, k, current, list)) == RestTrue(cs)
  {
    var ds := ReadChild(cs, k, current, list);
    assert forall c :: c in ds && !Own(c) <==> c in cs && !Own(c);
  }

  /** The library conditions that a child lists. */
  predicate ChildLibrary(k: Kind, c: Condition) {
    c.NetworkAttachments? || c.TLSInput? || (k.API? && (c.CreateService? || c.KeystoneEndpoint?))
  }

  /** Nothing but the rollout can keep a child from Ready.  The KeystoneListener forgets what was saved. */
  ghost predicate NothingMissingInChild(k: Kind, saved: Conditions, marks: Conditions) {
    && (forall c: Condition :: ChildLibrary(k, c) ==> c in marks)
    && (forall c <- marks :: c in OUTSIDE ==> marks[c] == IsTrue)
    && (k.Listener? || forall c <- saved :: c !in ChildList(k) && !(c in OUTSIDE && c in marks) ==> saved[c] == IsTrue)
  }

  function Remembered(k: Kind, saved: Conditions): Conditions { if k.Listener? then map[] else saved }

  /** What a child has done when it comes to the check of its Deployment. */
  function BeforeCheck(k: Kind, saved: Conditions): Deeds {
    Did(Did(Begun(Remembered(k, saved), ChildList(k)), map[], InputReady), map[], ServiceConfig)
  }

  /** What is left of a condition `c` when the child judges its list. */
  function LeftInChild(k: Kind, saved: Conditions, marks: Conditions, rolledOut: bool, c: Condition): Option<Status> {
    if c == Deployment then Some(if rolledOut then IsTrue else IsFalse)
    else if c == InputReady || c == ServiceConfig then Some(IsTrue)
    else if c in ChildList(k) then MarkOf(c, marks, Some(IsUnknown))
    else MarkOf(c, marks, StatusOf(Remembered(k, saved), c))
  }

  lemma BeforeCheckAt(k: Kind, saved: Conditions, c: Condition)
    ensures BeforeCheck(k, saved).Left(c) ==
      if c == InputReady || c == ServiceConfig then Some(IsTrue)
      else if c in ChildList(k) then Some(IsUnknown)
      else StatusOf(Remembered(k, saved), c)
  {
    var begun := Begun(Remembered(k, saved), ChildList(k));
    var ready := Did(begun, map[], InputReady);
    assert ready.Left(c) == if c == InputReady then Some(IsTrue) else begun.Left(c);
  }

  lemma JudgedAt(cs: Conditions, k: Kind, saved: Conditions, marks: Conditions, rolledOut: bool, c: Condition)
    requires Tells(cs, BeforeCheck(k, saved))
    ensures StatusOf(Set(Marked(cs, marks), Deployment, rolledOut), c) == LeftInChild(k, saved, marks, rolledOut, c)
  {
    BeforeCheckAt(k, saved, c);
    assert StatusOf(cs, c) == BeforeCheck(k, saved).Left(c);
    MarkedAt(cs, marks, c);
    SetAt(Marked(cs, marks), Deployment, rolledOut, c);
  }

  lemma LeftInChildFine(k: Kind, saved: Conditions, marks: Conditions, rolledOut: bool)
    requires forall c: Condition :: c != Ready ==> Fine(LeftInChild(k, saved, marks, rolledOut, c))
    ensures rolledOut && NothingMissingInChild(k, saved, marks)
  {
    assert Fine(LeftInChild(k, saved, marks, rolledOut, Deployment));
    forall c: Condition | ChildLibrary(k, c) ensures c in marks {
      assert Fine(LeftInChild(k, saved, marks, rolledOut, c));
    }
    forall c | c in marks && c in OUTSIDE ensures marks[c] == IsTrue {
      assert Fine(LeftInChild(k, saved, marks, rolledOut, c));
    }
    if !k.Listener? {
      forall c | c in saved && c !in ChildList(k) && !(c in OUTSIDE && c in marks) ensures saved[c] == IsTrue {
        assert Fine(LeftInChild(k, saved, marks, rolledOut, c));
      }
    }
  }

  lemma FineInChild(k: Kind, saved: Conditions, marks: Conditions, c: Condition)
    requires NothingMissingInChild(k, saved, marks) && c != Ready
    ensures Fine(LeftInChild(k, saved, marks, true, c))
  {
  }

  lemma MissingInChild(cs: Conditions, k: Kind, saved: Conditions, marks: Conditions, rolledOut: bool)
    requires Tells(cs, BeforeCheck(k, saved))
    ensures AllSubTrue(Set(Marked(cs, marks), Deployment, rolledOut)) <==>
      rolledOut && NothingMissingInChild(k, saved, marks)
  {
    var ds := Set(Marked(cs, marks), Deployment, rolledOut);
    if AllSubTrue(ds) {
      forall c: Condition | c != Ready ensures Fine(LeftInChild(k, saved, marks, rolledOut, c)) {
        JudgedAt(cs, k, saved, marks, rolledOut, c);
        assert Fine(StatusOf(ds, c));
      }
      LeftInChildFine(k, saved, marks, rolledOut);
    }
    if rolledOut && NothingMissingInChild(k, saved, marks) {
      forall c | c in ds && c != Ready ensures ds[c] == IsTrue {
        JudgedAt(cs, k, saved, marks, rolledOut, c);
        FineInChild(k, saved, marks, c);
        assert Fine(StatusOf(ds, c));
      }
    }
  }

  /** What the parent makes of a child that it has read: the mirror of the child's list if the child has
      rolled out the current generation and names, and False if not. */
  function ReadChild(cs: Conditions, k: Kind, current: bool, child: Conditions): Conditions {
    if !current then cs[OfChild(k) := IsFalse]
    else if Mirror(child).None? then cs
    else cs[OfChild(k) := Mirror(child).value]
  }

  /** The conditions that the parent's Reconcile lists. */
  function ParentList(notify: bool): set<Condition> {
    {Ready, DBReady, PKCS11Prep, DBSync, InputReady, ServiceConfig, OfChild(API), OfChild(Worker), OfChild(Listener),
     NetworkAttachments, ServiceAccount, Role, RoleBinding}
    + if notify then {TransportURL(Notifications)} else {}
  }

  /** The conditions that a child's Reconcile lists. */
  function ChildList(k: Kind): set<Condition> {
    {Ready, InputReady, ServiceConfig, Deployment, NetworkAttachments, TLSInput}
    + if k.API? then {CreateService, KeystoneEndpoint} else {}
  }

  /** What the parent finds when it reads a child. */
  datatype Found = Found(current: bool, list: Conditions)

  function AfterReads(cs: Conditions, found: Trio<Found>): Conditions {
    var api := ReadChild(cs, API, found.api.current, found.api.list);
    var worker := ReadChild(api, Worker, found.worker.current, found.worker.list);
    ReadChild(worker, Listener, found.listener.current, found.listener.list)
  }

  /** Ready implies the guard: if after the three reads every condition but Ready is True, then each child was
      read with its generation observed, the current names applied and Ready; whatever the other conditions
      were.  This needs that Init has reset the conditions of the children. */
  lemma ReadyImpliesGuard(cs: Conditions, found: Trio<Found>)
    requires forall k: Kind :: OfChild(k) in cs && cs[OfChild(k)] != IsTrue
    requires forall k: Kind :: WellFormed(found.At(k).list)
    requires AllSubTrue(AfterReads(cs, found))
    ensures forall k: Kind :: found.At(k).current && Holds(found.At(k).list, Ready)
  {
    var after := AfterReads(cs, found);
    assert Holds(after, OfChild(API)) && Holds(after, OfChild(Worker)) && Holds(after, OfChild(Listener));
    forall k: Kind ensures found.At(k).current && Holds(found.At(k).list, Ready) {
      MirrorIsWorst(found.At(k).list);
      match k
      case API =>
      case Worker =>
      case Listener =>
    }
  }

  /** And it is exactly that: Ready follows if and only if every child is current with nothing but True in
      its list and every other condition of the parent is True. */
  lemma ReadyExactly(cs: Conditions, found: Trio<Found>)
    requires forall k: Kind :: OfChild(k) in cs && cs[OfChild(k)] != IsTrue
    ensures AllSubTrue(AfterReads(cs, found)) <==>
      && (forall k: Kind :: found.At(k).current && Mirror(found.At(k).list) == Some(IsTrue))
      && (forall c <- cs :: c != Ready && !c.OfChild? ==> cs[c] == IsTrue)
  {
    var after := AfterReads(cs, found);
    assert forall c: Condition :: !c.OfChild? ==> (c in after <==> c in cs) && (c in cs ==> after[c] == cs[c]);
    assert found.At(API) == found.api && found.At(Worker) == found.worker && found.At(Listener) == found.listener;
    if AllSubTrue(after) {
      assert Holds(after, OfChild(API)) && Holds(after, OfChild(Worker)) && Holds(after, OfChild(Listener));
      forall k: Kind ensures found.At(k).current && Mirror(found.At(k).list) == Some(IsTrue) {
        match k
        case API =>
        case Worker =>
        case Listener =>
      }
    } else {
      var c :| c in after && c != Ready && after[c] != IsTrue;
      if c.OfChild? {
        match c.kind
        case API =>
        case Worker =>
        case Listener =>
      }
    }
  }

  /** Without the reset of Init a stale condition could stand in for a child that has no list yet. */
  lemma InitIsNeeded(saved: Conditions, k: Kind)
    requires Holds(saved, OfChild(k))
    ensures Holds(ReadChild(saved, k, true, map[]), OfChild(k))
  {
  }

  /** The deferred function replaces an Unknown Ready by the mirror of the list; that never makes it True. */
  function Deferred(cs: Conditions): Conditions {
    if Ready in cs && cs[Ready] == IsUnknown then cs[Ready := Mirror(cs).value] else cs
  }

  lemma DeferredIsNotReady(cs: Conditions)
    requires Ready in cs
    ensures Ready in Deferred(cs) && (Holds(Deferred(cs), Ready) <==> Holds(cs, Ready))
  {
    MirrorIsWorst(cs);
  }

  /** Instead it says whether any condition has failed; a pass that has decided about Ready keeps its verdict. */
  lemma DeferredTellsFailures(cs: Conditions)
    requires Ready in cs
    ensures cs[Ready] != IsUnknown ==> Deferred(cs) == cs
    ensures cs[Ready] == IsUnknown ==> (Failing(Deferred(cs), Ready) <==> exists c :: Failing(cs, c))
    ensures forall c :: c != Ready ==> StatusOf(Deferred(cs), c) == StatusOf(cs, c)
  {
    MirrorIsWorst(cs);
    assert cs[Ready := cs[Ready]] == cs;
  }

  /** The list of a child as the server holds it: nothing before the first status was saved, and otherwise
      some list whose Ready condition is the child's. */
  function ListOf(kid: Kid, others: Conditions): (cs: Conditions)
    ensures WellFormed(cs) && (Holds(cs, Ready) ==> kid.ready)
  {
    if kid.obs == 0 then map[]
    else
      var unknown := Ready in others && others[Ready] == IsUnknown;
      others[Ready := if kid.ready then IsTrue else if unknown then IsUnknown else IsFalse]
  }

  /** Everything in a child's list but Ready is True. */
  predicate ListTrue(others: Conditions) { forall c <- others :: c != Ready ==> others[c] == IsTrue }

  lemma ListMirror(kid: Kid, others: Conditions)
    requires kid.obs > 0
    ensures Mirror(ListOf(kid, others)) == Some(IsTrue) <==> kid.ready && ListTrue(others)
  {
    var cs := ListOf(kid, others);
    MirrorIsWorst(cs);
    assert forall c :: c != Ready ==> (c in cs <==> c in others) && (c in others ==> cs[c] == others[c]);
  }
}
