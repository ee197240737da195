/** Deletion of the Barbican CR: the delete reconcile may fail at any call and is then repeated from the
    start, until its last patch takes the CR's own finalizer away. */
module Deletion {
  import opened Cluster

  /** The objects that carry the finalizer of the Barbican CR. */
  datatype Object = Database | KeystoneService | ChildCR(kind: Kind)

  datatype Ending = Works | Errs | ErrsAfterEffect

  /** What happens around one call: which objects disappear before it and what the TransportURLs then
      say (None for one that does not exist), how the call ends, and which secrets a prune that errs
      after part of its effect has reached. */
  datatype Turn = Turn(vanish: set<Object>, urlM: Option<Name>, urlN: Option<Name>,
                       ends: Ending, names: set<Name>, creds: set<string>)
  {
    predicate Reaches() { !ends.Errs? }
  }

  const CALLS := 21

  predicate NoErrors(turns: seq<Turn>) { forall t <- turns :: t.ends.Works? }

  /** The calls from `i` up to `j` work. */
  predicate Work(turns: seq<Turn>, i: nat, j: nat)
    requires i <= j <= |turns|
  {
    forall n :: i <= n < j ==> turns[n].ends.Works?
  }

  class DeletedBarbican {
    var own: bool                // the CR still carries its own finalizer, and so still exists
    var existing: set<Object>
    var carried: set<Object>     // the objects that carry the finalizer of the CR
    var transport: set<Name>     // the secrets with the transport consumer finalizer
    var credentials: set<string> // the secrets with the application credential consumer finalizer
    var urlM: Option<Name>
    var urlN: Option<Name>
    const tracked: Names         // status and spec, which no longer change
    const trackedAC: string
    const specAC: string

    /** Nothing is left that the operator has to release. */
    ghost predicate Clean()
      reads this
    {
      carried == {} && transport == {} && credentials == {}
    }

    /** The CR is never gone before everything is released. */
    ghost predicate Valid()
      reads this
    {
      carried <= existing && (!own ==> Clean())
    }

    constructor (existing: set<Object>, carried: set<Object>, transport: set<Name>, credentials: set<string>,
                 tracked: Names, trackedAC: string, specAC: string)
      requires carried <= existing
      ensures Valid() && own && this.existing == existing && this.carried == carried
      ensures this.transport == transport && this.credentials == credentials
    {
      own := true;
      this.existing, this.carried, this.transport, this.credentials := existing, carried, transport, credentials;
      this.tracked, this.trackedAC, this.specAC := tracked, trackedAC, specAC;
      urlM, urlN := None, None;
    }

    /** The rest of the cluster moves on; nobody else adds a finalizer (`Release.OthersKeepHolders`: nothing
        but a pass of the parent ever does, and a CR that is being deleted starts no such pass). */
    method Meanwhile(turn: Turn)
      requires carried <= existing
      modifies this`existing, this`carried, this`urlM, this`urlN
      ensures carried <= existing && existing == old(existing) - turn.vanish && carried == old(carried) - turn.vanish
      ensures urlM == turn.urlM && urlN == turn.urlN
    {
      existing, carried := existing - turn.vanish, carried - turn.vanish;
      urlM, urlN := turn.urlM, turn.urlN;
    }

    /** Gets an object and, if it carries the finalizer, updates it without; one that is not found is
        passed over, also if it disappears before the update. */
    method Detach(x: Object, get: Turn, update: Turn) returns (ok: bool)
      requires carried <= existing
      modifies this`existing, this`carried, this`urlM, this`urlN
      ensures carried <= existing && carried <= old(carried)
      ensures old(carried) - {x} - get.vanish - update.vanish <= carried
      ensures ok ==> x !in carried
      ensures get.ends.Works? && update.ends.Works? ==> ok
    {
      Meanwhile(get);
      if !get.ends.Works? { return false; }
      if x !in existing || x !in carried { return true; }
      Meanwhile(update);
      if x !in existing { return true; }
      if update.Reaches() {
        carried := carried - {x};
      }
      return update.ends.Works?;
    }

    method ReleaseCredential(secret: string, turn: Turn) returns (ok: bool)
      requires carried <= existing
      modifies this`existing, this`carried, this`urlM, this`urlN, this`credentials
      ensures carried <= existing && carried <= old(carried) && ok == turn.ends.Works?
      ensures credentials == if secret != "" && turn.Reaches() then old(credentials) - {secret} else old(credentials)
    {
      Meanwhile(turn);
      if secret != "" && turn.Reaches() {
        credentials := credentials - {secret};
      }
      return turn.ends.Works?;
    }

    method ReleaseTransport(secret: Name, turn: Turn) returns (ok: bool)
      requires carried <= existing
      modifies this`existing, this`carried, this`urlM, this`urlN, this`transport
      ensures carried <= existing && carried <= old(carried) && ok == turn.ends.Works?
      ensures transport == if secret != NoName && turn.Reaches() then old(transport) - {secret} else old(transport)
    {
      Meanwhile(turn);
      if secret != NoName && turn.Reaches() {
        transport := transport - {secret};
      }
      return turn.ends.Works?;
    }

    method DetachAll(turns: seq<Turn>) returns (ok: bool)
      requires carried <= existing && |turns| == CALLS
      modifies this`existing, this`carried, this`urlM, this`urlN
      ensures carried <= existing && carried <= old(carried)
      ensures ok ==> carried == {}
      ensures Work(turns, 0, 10) ==> ok
    {
      ok := Detach(Database, turns[0], turns[1]);
      if !ok { return; }
      ok := Detach(KeystoneService, turns[2], turns[3]);
      if !ok { return; }
      ok := Detach(ChildCR(API), turns[4], turns[5]);
      if !ok { return; }
      ok := Detach(ChildCR(Worker), turns[6], turns[7]);
      if !ok { return; }
      ok := Detach(ChildCR(Listener), turns[8], turns[9]);
      if ok {
        forall x: Object ensures x !in carried {
          match x
          case Database =>
          case KeystoneService =>
          case ChildCR(k) =>
            match k
            case API =>
            case Worker =>
            case Listener =>
        }
      }
    }

    method ReleaseCredentials(turns: seq<Turn>) returns (ok: bool)
      requires carried <= existing && |turns| == CALLS
      modifies this`existing, this`carried, this`urlM, this`urlN, this`credentials
      ensures carried <= existing && carried <= old(carried) && credentials <= old(credentials)
      ensures ok ==> forall x <- [trackedAC, specAC] :: x == "" || x !in credentials
      ensures Work(turns, 10, 12) ==> ok
    {
      var secrets := [trackedAC, specAC];
      for i := 0 to |secrets|
        invariant carried <= existing && carried <= old(carried) && credentials <= old(credentials)
        invariant forall j :: 0 <= j < i ==> secrets[j] == "" || secrets[j] !in credentials
      {
        ok := ReleaseCredential(secrets[i], turns[10 + i]);
        if !ok { return; }
      }
      ok := true;
    }

    /** The names that the status and the TransportURLs still know. */
    method CollectTransports(turns: seq<Turn>) returns (secrets: Option<seq<Name>>)
      requires carried <= existing && |turns| == CALLS
      modifies this`existing, this`carried, this`urlM, this`urlN
      ensures carried <= existing && carried <= old(carried)
      ensures Work(turns, 12, 14) ==> secrets.Some?
      ensures secrets.Some? ==> |secrets.value| <= 4 && tracked.m in secrets.value
      ensures secrets.Some? && tracked.n != NoName ==> tracked.n in secrets.value
      ensures secrets.Some? && turns[12].urlM.Some? ==> turns[12].urlM.value in secrets.value
      ensures secrets.Some? && turns[13].urlN.Some? ==> turns[13].urlN.value in secrets.value
    {
      var list: seq<Name> := [tracked.m];
      Meanwhile(turns[12]);
      if !turns[12].ends.Works? { return None; }
      if urlM.Some? {
        list := list + [urlM.value];
      }
      Meanwhile(turns[13]);
      if !turns[13].ends.Works? { return None; }
      if urlN.Some? {
        list := list + [urlN.value];
      }
      if tracked.n != NoName {
        list := list + [tracked.n];
      }
      return Some(list);
    }

    method ReleaseTransports(turns: seq<Turn>) returns (ok: bool)
      requires carried <= existing && |turns| == CALLS
      modifies this`existing, this`carried, this`urlM, this`urlN, this`transport
      ensures carried <= existing && carried <= old(carried) && transport <= old(transport)
      ensures ok ==> forall x <- [tracked.m, tracked.n] :: x == NoName || x !in transport
      ensures ok && turns[12].urlM.Some? ==> turns[12].urlM.value == NoName || turns[12].urlM.value !in transport
      ensures ok && turns[13].urlN.Some? ==> turns[13].urlN.value == NoName || turns[13].urlN.value !in transport
      ensures Work(turns, 12, 18) ==> ok
    {
      var secrets := CollectTransports(turns);
      if secrets.None? { return false; }
      var list := secrets.value;
      for i := 0 to |list|
        invariant carried <= existing && carried <= old(carried) && transport <= old(transport)
        invariant forall j :: 0 <= j < i ==> list[j] == NoName || list[j] !in transport
      {
        ok := ReleaseTransport(list[i], turns[14 + i]);
        if !ok { return; }
      }
      ok := true;
    }

    method Prune(turns: seq<Turn>) returns (ok: bool)
      requires carried <= existing && |turns| == CALLS
      modifies this`existing, this`carried, this`urlM, this`urlN, this`transport, this`credentials
      ensures carried <= existing && carried <= old(carried)
      ensures transport <= old(transport) && credentials <= old(credentials)
      ensures turns[18].ends.Works? ==> transport == {}
      ensures turns[18].ends.Errs? ==> transport == old(transport) && credentials == old(credentials)
      ensures turns[18].ends.ErrsAfterEffect? ==>
        transport == old(transport) - turns[18].names && credentials == old(credentials)
      ensures ok ==> transport == {} && credentials == {}
      ensures Work(turns, 18, 20) ==> ok
    {
      Meanwhile(turns[18]);
      if turns[18].Reaches() {
        transport := transport - if turns[18].ends.Works? then transport else turns[18].names;
      }
      if !turns[18].ends.Works? { return false; }
      Meanwhile(turns[19]);
      if turns[19].Reaches() {
        credentials := credentials - if turns[19].ends.Works? then credentials else turns[19].creds;
      }
      return turns[19].ends.Works?;
    }

    /** The names that the status and the TransportURLs know at their turns. */
    ghost function NamesLeft(turns: seq<Turn>): seq<Name>
      requires |turns| == CALLS
    {
      var m := if turns[12].urlM.Some? then turns[12].urlM.value else NoName;
      var n := if turns[13].urlN.Some? then turns[13].urlN.value else NoName;
      [tracked.m, tracked.n, m, n]
    }

    /** One delete reconcile, with the deferred patch.  It only ever takes finalizers away; it touches a
        secret only once no object carries the CR's finalizer any more; it lets the CR go only once
        everything is released; and it does let it go if no call errs. */
    method ReconcileDelete(turns: seq<Turn>)
      requires Valid() && own && |turns| == CALLS
      modifies this
      ensures Valid()
      ensures carried <= old(carried) && transport <= old(transport) && credentials <= old(credentials)
      ensures transport != old(transport) || credentials != old(credentials) ==> carried == {}
      ensures Work(turns, 0, 10) ==> carried == {}
      ensures Work(turns, 0, 12) ==> forall x <- [trackedAC, specAC] :: x == "" || x !in credentials
      ensures Work(turns, 0, 18) ==> forall x <- NamesLeft(turns) :: x == NoName || x !in transport
      ensures !own ==> turns[20].Reaches()
      ensures Work(turns, 0, 20) && turns[20].Reaches() ==> !own
    {
      var ok := DetachAll(turns);
      if ok {
        ok := ReleaseCredentials(turns);
      }
      if ok {
        ok := ReleaseTransports(turns);
      }
      if ok {
        ok := Prune(turns);
      }
      Meanwhile(turns[20]);
      if ok && turns[20].Reaches() {
        own := false;
      }
    }
  }

  /** Any number of delete reconciles, each of them failing as it may: while the CR exists it may hold
      anything, once it is gone nothing is held, no finalizer is ever added, and the first reconcile
      without an error ends it. */
  method ReconcileDeletes(b: DeletedBarbican, schedule: seq<seq<Turn>>)
    requires b.Valid() && forall turns <- schedule :: |turns| == CALLS
    modifies b
    ensures b.Valid() && (!b.own ==> b.Clean())
    ensures b.carried <= old(b.carried) && b.transport <= old(b.transport) && b.credentials <= old(b.credentials)
    ensures b.transport != old(b.transport) || b.credentials != old(b.credentials) ==> b.carried == {}
    ensures (exists turns <- schedule :: NoErrors(turns)) ==> !b.own && b.Clean()
  {
    for i := 0 to |schedule|
      invariant b.Valid()
      invariant b.carried <= old(b.carried) && b.transport <= old(b.transport) && b.credentials <= old(b.credentials)
      invariant b.transport != old(b.transport) || b.credentials != old(b.credentials) ==> b.carried == {}
      invariant (exists j :: 0 <= j < i && NoErrors(schedule[j])) ==> !b.own
    {
      if b.own {
        b.ReconcileDelete(schedule[i]);
      }
    }
  }
}
