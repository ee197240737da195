/** The credential-rotation protocol as a state machine.

    One `Cluster` value is everything the API server and the running pods hold at one moment, together
    with the local variables of the reconcile passes that are in flight.  One `Event` is one API call of
    one controller, or one move of the environment, so that every interleaving of the four controllers,
    of crashes, of failed calls and of lost status patches is a sequence of events. */
module Cluster {
  datatype Option<+T> = None | Some(value: T)

  // ---------------------------------------------------------------- names

  datatype Bus = Messaging | Notifications

  /** The name of a transport secret; `NoName` is the empty string of the source.  Secrets of the two
      buses never share a name. */
  datatype Name = NoName | Secret(bus: Bus, id: string)

  type MessagingName = x: Name | x.NoName? || x.bus == Messaging witness NoName
  type NotificationsName = x: Name | x.NoName? || x.bus == Notifications witness NoName

  /** The pair of secret names that the controllers pass around. */
  datatype Names = Names(m: MessagingName, n: NotificationsName) {
    function On(b: Bus): (x: Name)
      ensures x.NoName? || x.bus == b
    {
      if b.Messaging? then m else n
    }

    /** This pair with the component of bus `b` taken from `from`. */
    function Take(b: Bus, from: Names): (r: Names)
      ensures forall c: Bus :: r.On(c) == if c == b then from.On(b) else On(c)
    {
      if b.Messaging? then this.(m := from.m) else this.(n := from.n)
    }
  }

  const NOTHING := Names(NoName, NoName)

  // ---------------------------------------------------------------- children

  datatype Kind = API | Worker | Listener

  datatype Trio<X> = Trio(api: X, worker: X, listener: X) {
    function At(k: Kind): X {
      match k
      case API => api
      case Worker => worker
      case Listener => listener
    }

    function With(k: Kind, x: X): (r: Trio<X>)
      ensures forall j: Kind :: r.At(j) == if j == k then x else At(j)
    {
      match k
      case API => this.(api := x)
      case Worker => this.(worker := x)
      case Listener => this.(listener := x)
    }
  }

  /** The part of the parent spec that is copied into the child specs and that selects the jobs. */
  datatype Template = Template(rev: nat, pkcs11: bool)

  datatype KidSpec = KidSpec(tpl: Template, names: Names)

  /** What the input hash of a child covers: the secret names of its spec and the credentials rendered
      into its configuration.  The hash is injective, so the model carries what is hashed. */
  datatype Input = Input(names: Names, conf: Names)

  /** A running pod: the template it was created from, and the credentials its process read at start. */
  datatype Pod = Pod(input: Input, loaded: Names)

  datatype KidPC = Read | Write | Hash | Deploy | Check | Store

  /** A reconcile pass of a child controller: its snapshot of the CR and its unsaved status. */
  datatype KidPass =
    | Resting
    | Working(pc: KidPC, gen: nat, spec: KidSpec, conf: Names,
              recorded: Option<Input>, applied: Option<Names>, ready: bool)

  /** A child CR with its Secret, Deployment and pods.  `log[g - 1]` is the spec of generation `g`. */
  datatype Kid = Kid(log: seq<KidSpec>, obs: nat, recorded: Option<Input>, applied: Option<Names>, ready: bool,
                     cfg: Names, tmpl: Option<Input>, pods: set<Pod>, pass: KidPass)
  {
    function Gen(): nat { |log| }

    function Spec(): KidSpec {
      if log == [] then KidSpec(Template(0, false), NOTHING) else log[|log| - 1]
    }

    /** What the parent checks of a child: observed generation, applied input hash and Ready. */
    predicate Reports(p: Names) {
      Gen() == obs && applied == Some(p) && ready
    }

    /** IsReadyForInput: the Deployment has this template and every pod was created from it. */
    predicate RolledOut(h: Input) {
      tmpl == Some(h) && forall p <- pods :: p.input == h
    }

    /** CreateOrUpdate of the child by the parent: a new generation only if the spec differs. */
    function Push(spec: KidSpec): Kid {
      if log != [] && Spec() == spec then this else this.(log := log + [spec])
    }
  }

  const NOBODY := Kid([], 0, None, None, false, NOTHING, None, {}, Resting)

  // ---------------------------------------------------------------- parent

  datatype ParentSpec = ParentSpec(notify: bool, ac: string, tpl: Template)

  datatype ParentStatus = ParentStatus(tracked: Names, ac: string, obs: nat, ready: bool,
                                       db: Option<Template>, prep: Option<Template>)

  datatype PC =
    | UrlM | HoldM | UrlN | HoldN | Inputs | Config | HoldAC | DbSync | Prep
    | Child(kind: Kind) | Accounts
    | FinM | FinN | DropURL | FinAC | PruneT | PruneAC | Patch

  /** The place of a program counter in the order of the reconcile function. */
  function Order(pc: PC): nat {
    match pc
    case UrlM => 0 case HoldM => 1 case UrlN => 2 case HoldN => 3 case Inputs => 4 case Config => 5
    case HoldAC => 6 case DbSync => 7 case Prep => 8 case Child(API) => 9 case Child(Worker) => 10
    case Accounts => 11 case Child(Listener) => 12 case FinM => 13 case FinN => 14 case DropURL => 15
    case FinAC => 16 case PruneT => 17 case PruneAC => 18 case Patch => 19
  }

  /** A reconcile pass of the parent: its snapshot of the spec, the secret names it read from the two
      TransportURLs, its unsaved status and the outcome of the three child reads. */
  datatype Pass =
    | Idle
    | Running(pc: PC, spec: ParentSpec, gen: nat, cur: Names, st: ParentStatus, ok: Trio<bool>)
  {
    predicate Guard() requires Running? { ok.api && ok.worker && ok.listener }
  }

  datatype Cluster = Cluster(
    url: Names,             // Status.SecretName of the two TransportURLs
    notifyURL: bool,        // whether the notifications TransportURL exists
    spec: ParentSpec,
    gen: nat,
    st: ParentStatus,
    held: set<Name>,        // secrets with the transport consumer finalizer
    acHeld: set<string>,    // secrets with the application credential consumer finalizer
    cfg: Names,             // credentials rendered into the parent's config Secret
    migrated: set<Template>,
    prepared: set<Template>,
    parent: Pass,
    kids: Trio<Kid>)

  function Start(spec: ParentSpec): Cluster {
    Cluster(NOTHING, false, spec, 1, ParentStatus(NOTHING, "", 0, false, None, None), {}, {}, NOTHING,
            {}, {}, Idle, Trio(NOBODY, NOBODY, NOBODY))
  }

  // ---------------------------------------------------------------- parent steps

  /** How one API call ends: it succeeds; it succeeds while some sub-condition other than those that this
      model follows is not True; it fails without effect; or it fails after (part of) its effect reached the
      server.  That Ready, which the controllers compute from their lists of conditions, follows this
      outcome and the guard is proved in `Reconcilers` and `ChildReconcilers`. */
  datatype Outcome = Done | Partial | Failed | Torn(names: set<Name>, creds: set<string>)

  /** FinalizeSecretRotation: the tracked name afterwards. */
  function Finalized<T(==)>(tracked: T, current: T, empty: T, guard: bool): T {
    if tracked == empty || tracked == current || guard then current else tracked
  }

  /** FinalizeSecretRotation: the secrets that lose the finalizer. */
  function Released<T(==)>(tracked: T, current: T, empty: T, guard: bool): set<T> {
    if tracked != empty && tracked != current && guard then {tracked} else {}
  }

  function Keep(p: Pass): set<Name>
    requires p.Running?
  {
    {p.st.tracked.m, p.cur.m, p.st.tracked.n, p.cur.n}
  }

  /** What the call at the program counter does to the cluster when it reaches the server. */
  function Effect(s: Cluster, o: Outcome): Cluster
    requires s.parent.Running?
  {
    var p := s.parent;
    match p.pc
    case HoldM => s.(held := s.held + {p.cur.m})
    case UrlN => s.(notifyURL := true)
    case HoldN => s.(held := s.held + {p.cur.n})
    case Config => s.(cfg := p.cur)
    case HoldAC => if p.spec.ac != "" then s.(acHeld := s.acHeld + {p.spec.ac}) else s
    case Child(k) => s.(kids := s.kids.With(k, s.kids.At(k).Push(KidSpec(p.spec.tpl, p.cur))))
    case FinM => s.(held := s.held - Released(p.st.tracked.m, p.cur.m, NoName, p.Guard()))
    case FinN =>
      if p.spec.notify then s.(held := s.held - Released(p.st.tracked.n, p.cur.n, NoName, p.Guard()))
      else if p.st.tracked.n != NoName && p.Guard() then s.(held := s.held - {p.st.tracked.n})
      else s
    case DropURL => s.(notifyURL := false, url := s.url.Take(Notifications, NOTHING))
    case FinAC => s.(acHeld := s.acHeld - Released(p.st.ac, p.spec.ac, "", p.Guard()))
    case PruneT =>
      var gone := if o.Torn? then s.held * o.names else s.held;
      s.(held := s.held - (gone - Keep(p)))
    case PruneAC =>
      var gone := if o.Torn? then s.acHeld * o.creds else s.acHeld;
      s.(acHeld := s.acHeld - (gone - {p.st.ac, p.spec.ac}))
    case Patch => s.(st := p.st)
    case _ => s
  }

  /** An early return: the deferred function patches the status as it is. */
  function Bail(p: Pass): Pass {
    if p.Running? && !p.pc.Patch? then p.(pc := Patch) else Idle
  }

  function FirstTracked(tracked: Names, b: Bus, cur: Names): Names {
    if tracked.On(b) == NoName then tracked.Take(b, cur) else tracked
  }

  /** Where the reconcile function goes after a successful call. */
  function Next(s: Cluster, o: Outcome): Pass
    requires s.parent.Running?
  {
    var p := s.parent;
    match p.pc
    case UrlM =>
      if s.url.m == NoName then Bail(p)
      else p.(pc := HoldM, cur := p.cur.(m := s.url.m),
        st := p.st.(tracked := FirstTracked(p.st.tracked, Messaging, s.url)))
    case HoldM => if p.spec.notify then p.(pc := UrlN) else p.(pc := Inputs)
    case UrlN =>
      if s.url.n == NoName then Bail(p)
      else p.(pc := HoldN, cur := p.cur.(n := s.url.n),
        st := p.st.(tracked := FirstTracked(p.st.tracked, Notifications, s.url)))
    case HoldN => p.(pc := Inputs)
    case Inputs => p.(pc := Config)
    case Config => p.(pc := HoldAC)
    case HoldAC => p.(pc := DbSync)
    case DbSync =>
      if p.st.db == Some(p.spec.tpl) || p.spec.tpl in s.migrated
      then p.(pc := Prep, st := p.st.(db := Some(p.spec.tpl))) else Bail(p)
    case Prep =>
      if !p.spec.tpl.pkcs11 then p.(pc := Child(API))
      else if p.st.prep == Some(p.spec.tpl) || p.spec.tpl in s.prepared
      then p.(pc := Child(API), st := p.st.(prep := Some(p.spec.tpl))) else Bail(p)
    case Child(k) =>
      var kid := s.kids.At(k).Push(KidSpec(p.spec.tpl, p.cur));
      var q := p.(ok := p.ok.With(k, kid.Reports(p.cur)));
      (match k
       case API => q.(pc := Child(Worker))
       case Worker => q.(pc := Accounts)
       case Listener => q.(pc := FinM, st := q.st.(obs := q.gen, ready := q.Guard() && o.Done?)))
    case Accounts => p.(pc := Child(Listener))
    case FinM =>
      var m := Finalized(p.st.tracked.m, p.cur.m, NoName, p.Guard());
      p.(pc := FinN, st := p.st.(tracked := p.st.tracked.(m := m)))
    case FinN =>
      var n := Finalized(p.st.tracked.n, p.cur.n, NoName, p.Guard());
      if p.spec.notify then p.(pc := FinAC, st := p.st.(tracked := p.st.tracked.(n := n)))
      else if p.st.tracked.n != NoName && p.Guard() then p.(pc := DropURL)
      else p.(pc := FinAC)
    case DropURL => p.(pc := FinAC, st := p.st.(tracked := p.st.tracked.(n := NoName)))
    case FinAC => p.(pc := PruneT, st := p.st.(ac := Finalized(p.st.ac, p.spec.ac, "", p.Guard())))
    case PruneT => p.(pc := PruneAC)
    case PruneAC => p.(pc := Patch)
    case Patch => Idle
  }

  function ParentStep(s: Cluster, o: Outcome): Cluster
    requires s.parent.Running?
  {
    match o
    case Done => Effect(s, o).(parent := Next(s, o))
    case Partial => Effect(s, o).(parent := Next(s, o))
    case Failed => s.(parent := Bail(s.parent))
    case Torn(_, _) => Effect(s, o).(parent := Bail(s.parent))
  }

  function ParentBegin(s: Cluster): Pass {
    Running(UrlM, s.spec, s.gen, NOTHING, s.st.(ready := false), Trio(false, false, false))
  }

  // ---------------------------------------------------------------- child steps

  function KidBegin(kid: Kid): Kid {
    kid.(pass := Working(Read, kid.Gen(), kid.Spec(), NOTHING, kid.recorded, kid.applied, false))
  }

  function KidBail(kid: Kid): Kid
    requires kid.pass.Working?
  {
    if kid.pass.pc.Store? then kid.(pass := Resting) else kid.(pass := kid.pass.(pc := Store))
  }

  function KidInput(kid: Kid): Input
    requires kid.pass.Working?
  {
    Input(kid.pass.spec.names, kid.pass.conf)
  }

  function KidEffect(kid: Kid): Kid
    requires kid.pass.Working?
  {
    var q := kid.pass;
    match q.pc
    case Write => kid.(cfg := q.conf)
    case Deploy => kid.(tmpl := Some(KidInput(kid)))
    case Store => kid.(obs := q.gen, recorded := q.recorded, applied := q.applied, ready := q.ready)
    case _ => kid
  }

  /** The next point of a child's reconcile function.  Only the API controller returns when the input
      hash has changed; the other two go on in the same pass. */
  function KidNext(kind: Kind, kid: Kid, parentCfg: Names, o: Outcome): KidPass
    requires kid.pass.Working?
  {
    var q := kid.pass;
    match q.pc
    case Read => q.(pc := Write, conf := parentCfg)
    case Write => q.(pc := Hash)
    case Hash =>
      if q.recorded == Some(KidInput(kid)) then q.(pc := Deploy)
      else q.(recorded := Some(KidInput(kid)), pc := if kind.API? then Store else Deploy)
    case Deploy => q.(pc := Check)
    case Check =>
      if kid.RolledOut(KidInput(kid))
      then q.(pc := Store, applied := Some(q.spec.names), ready := o.Done?)
      else q.(pc := Store)
    case Store => Resting
  }

  function KidStep(kind: Kind, kid: Kid, parentCfg: Names, o: Outcome): Kid
    requires kid.pass.Working?
  {
    match o
    case Done => KidEffect(kid).(pass := KidNext(kind, kid, parentCfg, o))
    case Partial => KidEffect(kid).(pass := KidNext(kind, kid, parentCfg, o))
    case Failed => KidBail(kid)
    case Torn(_, _) => KidBail(KidEffect(kid))
  }

  // ---------------------------------------------------------------- events

  datatype Event =
    | ParentStarts | ParentCalls(o: Outcome) | ParentCrashes
    | KidStarts(k: Kind) | KidCalls(k: Kind, ko: Outcome) | KidCrashes(k: Kind)
    | PodUp(k: Kind, input: Input) | PodDown(k: Kind, pod: Pod) | RollsOut(k: Kind)
    | SetURL(b: Bus, names: Names)
    | SetNotify(on: bool) | SetCredential(ac: string) | Edit(tpl: Template)
    | Migrates(job: Template) | Prepares(job: Template)

  predicate Enabled(s: Cluster, e: Event) {
    match e
    case ParentStarts => s.parent.Idle?
    case ParentCalls(_) => s.parent.Running?
    case ParentCrashes => s.parent.Running?
    case KidStarts(k) => s.kids.At(k).pass.Resting? && s.kids.At(k).log != []
    case KidCalls(k, _) => s.kids.At(k).pass.Working?
    case KidCrashes(k) => s.kids.At(k).pass.Working?
    case PodUp(k, input) => s.kids.At(k).tmpl == Some(input) || exists p <- s.kids.At(k).pods :: p.input == input
    case SetURL(b, _) => b.Messaging? || s.notifyURL
    case _ => true
  }

  function KidEvent(s: Cluster, k: Kind, e: Event): Kid
    requires Enabled(s, e)
    requires e.KidStarts? || e.KidCalls? || e.KidCrashes? || e.PodUp? || e.PodDown? || e.RollsOut?
    requires e.k == k
  {
    var kid := s.kids.At(k);
    match e
    case KidStarts(_) => KidBegin(kid)
    case KidCalls(_, o) => KidStep(k, kid, s.cfg, o)
    case KidCrashes(_) => kid.(pass := Resting)
    case PodUp(_, input) => kid.(pods := kid.pods + {Pod(input, kid.cfg)})
    case PodDown(_, pod) => kid.(pods := kid.pods - {pod})
    case RollsOut(_) => kid.(pods := set p | p in kid.pods && Some(p.input) == kid.tmpl)
  }

  function Apply(s: Cluster, e: Event): Cluster
    requires Enabled(s, e)
  {
    match e
    case ParentStarts => s.(parent := ParentBegin(s))
    case ParentCalls(o) => ParentStep(s, o)
    case ParentCrashes => s.(parent := Idle)
    case SetURL(b, names) => s.(url := s.url.Take(b, names))
    case SetNotify(on) => s.(spec := s.spec.(notify := on), gen := s.gen + 1)
    case SetCredential(ac) => s.(spec := s.spec.(ac := ac), gen := s.gen + 1)
    case Edit(tpl) => s.(spec := s.spec.(tpl := tpl), gen := s.gen + 1)
    case Migrates(t) => s.(migrated := s.migrated + {t})
    case Prepares(t) => s.(prepared := s.prepared + {t})
    case _ => s.(kids := s.kids.With(e.k, KidEvent(s, e.k, e)))
  }

  predicate ValidRun(s: Cluster, es: seq<Event>)
    decreases |es|, 0
  {
    es == [] || (ValidRun(s, es[..|es| - 1]) && Enabled(Run(s, es[..|es| - 1]), es[|es| - 1]))
  }

  function Run(s: Cluster, es: seq<Event>): Cluster
    requires ValidRun(s, es)
    decreases |es|, 1
  {
    if es == [] then s else Apply(Run(s, es[..|es| - 1]), es[|es| - 1])
  }
}
