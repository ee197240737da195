/** Who owns the HAProxy timeout of the API route: the operator, as long as its flag annotation repeats the
    value, or a human who has set another one. */
module Routes {
  import opened Cluster

  const HAPROXY := "haproxy.router.openshift.io/timeout"
  const FLAG := "api.barbican.openstack.org/timeout"

  type Annotations = map<string, string>

  function Get(a: Annotations, key: string): Option<string> {
    if key in a then Some(a[key]) else None
  }

  /** The value is a human's: it is there, and the flag does not repeat it. */
  predicate HumanOwned(a: Annotations) {
    HAPROXY in a && Get(a, FLAG) != Get(a, HAPROXY)
  }

  /** What one call leaves: a human's value without the flag, or else the timeout under both keys. */
  function Owned(a: Annotations, timeout: string): Annotations {
    if HumanOwned(a) then a - {FLAG} else a[FLAG := timeout][HAPROXY := timeout]
  }

  class Route {
    var annotations: Annotations

    constructor (a: Annotations)
      ensures annotations == a
    {
      annotations := a;
    }

    method SetDefaultRouteAnnotations(timeout: string)
      modifies this
      ensures annotations == Owned(old(annotations), timeout)
      ensures forall k :: k != FLAG && k != HAPROXY ==> Get(annotations, k) == Get(old(annotations), k)
    {
      var valBarbicanAPI, okBarbicanAPI := Get(annotations, FLAG), FLAG in annotations;
      var valHAProxy, okHAProxy := Get(annotations, HAPROXY), HAPROXY in annotations;
      if !okBarbicanAPI && okHAProxy {
        assert annotations - {FLAG} == annotations;
        return;
      }
      if okBarbicanAPI && okHAProxy && valBarbicanAPI != valHAProxy {
        annotations := annotations - {FLAG};
        return;
      }
      annotations := annotations[FLAG := timeout];
      annotations := annotations[HAPROXY := timeout];
    }
  }

  /** A human sets or removes the value or even the flag, or the operator calls with the timeout of the
      moment. */
  datatype Move = Human(value: Option<string>) | HumanFlag(flag: Option<string>) | Call(timeout: string)

  function Step(a: Annotations, m: Move): Annotations {
    match m
    case Human(value) => if value.Some? then a[HAPROXY := value.value] else a - {HAPROXY}
    case HumanFlag(flag) => if flag.Some? then a[FLAG := flag.value] else a - {FLAG}
    case Call(timeout) => Owned(a, timeout)
  }

  function Run(a: Annotations, ms: seq<Move>): Annotations {
    if ms == [] then a else Step(Run(a, ms[..|ms| - 1]), ms[|ms| - 1])
  }

  predicate CallsOnly(ms: seq<Move>) { forall m <- ms :: m.Call? }

  lemma CallIsIdempotent(a: Annotations, timeout: string)
    ensures Owned(Owned(a, timeout), timeout) == Owned(a, timeout)
  {
    if HumanOwned(a) {
      assert a - {FLAG} - {FLAG} == a - {FLAG};
    }
  }

  /** The last call decides: over any sequence of calls, a human's value stays, without the flag, and
      otherwise both keys end up with the latest timeout. */
  lemma {:induction false} CallsKeepOwner(a: Annotations, ms: seq<Move>)
    requires CallsOnly(ms) && ms != []
    ensures var last := ms[|ms| - 1].timeout;
      Run(a, ms) == if HumanOwned(a) then a - {FLAG} else a[FLAG := last][HAPROXY := last]
  {
    var n := |ms| - 1;
    var before, u := Run(a, ms[..n]), ms[n].timeout;
    assert Run(a, ms) == Owned(before, u);
    if n == 0 {
      assert before == a;
    } else {
      CallsKeepOwner(a, ms[..n]);
      assert ms[..n][n - 1] == ms[n - 1];
      AfterCall(a, ms[n - 1].timeout, u);
    }
  }

  /** A second call goes the way of the first. */
  lemma AfterCall(a: Annotations, t: string, u: string)
    ensures Owned(Owned(a, t), u) == if HumanOwned(a) then a - {FLAG} else a[FLAG := u][HAPROXY := u]
  {
    assert FLAG[0] != HAPROXY[0];
    if HumanOwned(a) {
      assert a - {FLAG} - {FLAG} == a - {FLAG};
    } else {
      assert !HumanOwned(Owned(a, t));
      assert a[FLAG := t][HAPROXY := t][FLAG := u][HAPROXY := u] == a[FLAG := u][HAPROXY := u];
    }
  }

  lemma {:induction false} RunConcat(a: Annotations, ms: seq<Move>, ns: seq<Move>)
    ensures Run(a, ms + ns) == Run(Run(a, ms), ns)
  {
    if ns == [] {
      assert ms + ns == ms;
    } else {
      assert (ms + ns)[..|ms + ns| - 1] == ms + ns[..|ns| - 1];
      RunConcat(a, ms, ns[..|ns| - 1]);
    }
  }

  /** After any history, the value `v` that a human sets survives the calls that follow, exactly unless it
      is the value that the flag already has: then the operator still takes it for its own. */
  lemma HumanValueSurvives(a: Annotations, history: seq<Move>, v: string, calls: seq<Move>)
    requires CallsOnly(calls) && calls != []
    ensures Get(Run(a, history + [Human(Some(v))] + calls), HAPROXY) == Some(v)
      <==> Get(Run(a, history), FLAG) != Some(v) || calls[|calls| - 1].timeout == v
  {
    RunConcat(a, history + [Human(Some(v))], calls);
    assert (history + [Human(Some(v))])[..|history|] == history;
    CallsKeepOwner(Run(a, history + [Human(Some(v))]), calls);
  }

  /** After any history, removing the value hands the route back to the operator. */
  lemma RemovalReturnsToOperator(a: Annotations, history: seq<Move>, calls: seq<Move>)
    requires CallsOnly(calls) && calls != []
    ensures var r, t := Run(a, history + [Human(None)] + calls), Some(calls[|calls| - 1].timeout);
      Get(r, HAPROXY) == t && Get(r, FLAG) == t
  {
    RunConcat(a, history + [Human(None)], calls);
    assert (history + [Human(None)])[..|history|] == history;
    CallsKeepOwner(Run(a, history + [Human(None)]), calls);
  }

  /** Human or operator, nobody touches any other annotation. */
  lemma {:induction false} OthersUntouched(a: Annotations, ms: seq<Move>, k: string)
    requires k != FLAG && k != HAPROXY
    ensures Get(Run(a, ms), k) == Get(a, k)
  {
    if ms != [] {
      OthersUntouched(a, ms[..|ms| - 1], k);
    }
  }
}
