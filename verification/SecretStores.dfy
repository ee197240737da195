/** The secret stores: what the webhook defaults and admits, what the pods mount, which secrets the
    controller verifies and what the templates are told. */
module SecretStores {
  import opened Cluster
  import opened SortedKeys

  const SIMPLE := "simple_crypto"
  const PKCS11 := "pkcs11"
  const KMIP := "kmip"
  const PKCS11_PATH := "/etc/hsm-client"
  const KMIP_PATH := "/etc/kmip-client"
  const PKCS11_VOLUME := "pkcs11-client-data"
  const KMIP_VOLUME := "kmip-client-data"

  datatype ClientData = ClientData(secret: string, path: string) {
    function PathOrDefault(default: string): string {
      if path == "" then default else path
    }
  }

  datatype Spec = Spec(cluster: string, enabled: seq<string>, pkcs11: Option<ClientData>, kmip: Option<ClientData>) {
    function DataOf(store: string): Option<ClientData> {
      if store == PKCS11 then pkcs11 else if store == KMIP then kmip else None
    }
  }

  const EXTERNAL: seq<string> := [PKCS11, KMIP]

  function DefaultPath(store: string): string { if store == PKCS11 then PKCS11_PATH else KMIP_PATH }
  function VolumeName(store: string): string { if store == PKCS11 then PKCS11_VOLUME else KMIP_VOLUME }

  datatype Complaint = Missing(field: seq<string>) | SamePath(path: string)

  // ---------------------------------------------------------------- the webhook

  /** What admission promises: each enabled external store is configured with a secret, and no two of
      them would be mounted at one path. */
  predicate Admissible(s: Spec) {
    && (forall store <- EXTERNAL :: store in s.enabled ==> s.DataOf(store).Some? && s.DataOf(store).value.secret != "")
    && (PKCS11 in s.enabled && KMIP in s.enabled ==>
          s.pkcs11.value.PathOrDefault(PKCS11_PATH) != s.kmip.value.PathOrDefault(KMIP_PATH))
  }

  /** An enabled store lacks its data, or the data has no secret. */
  predicate Lacks(s: Spec, store: string, field: seq<string>) {
    && store in s.enabled
    && if s.DataOf(store).None? then field == [store]
       else s.DataOf(store).value.secret == "" && field == [store, "clientDataSecret"]
  }

  /** The complaints that a spec deserves. */
  predicate Deserved(s: Spec, c: Complaint) {
    match c
    case Missing(field) => exists store <- EXTERNAL :: Lacks(s, store, field)
    case SamePath(path) =>
      && (forall store <- EXTERNAL :: store in s.enabled && s.DataOf(store).Some?)
      && path == s.DataOf(KMIP).value.PathOrDefault(KMIP_PATH) == s.DataOf(PKCS11).value.PathOrDefault(PKCS11_PATH)
  }

  lemma StoreNamesDiffer()
    ensures SIMPLE != PKCS11 && SIMPLE != KMIP && PKCS11 != KMIP
    ensures forall store :: store in EXTERNAL <==> store == PKCS11 || store == KMIP
  {
    assert SIMPLE[0] != PKCS11[0] && SIMPLE[0] != KMIP[0] && PKCS11[0] != KMIP[0];
    assert EXTERNAL[0] == PKCS11 && EXTERNAL[1] == KMIP;
  }

  /** A spec is admissible exactly if it deserves no complaint. */
  lemma AdmissibleMeansNoComplaint(s: Spec)
    ensures Admissible(s) <==> forall c: Complaint :: !Deserved(s, c)
  {
    StoreNamesDiffer();
    if forall c: Complaint :: !Deserved(s, c) {
      forall store | store in EXTERNAL && store in s.enabled
        ensures s.DataOf(store).Some? && s.DataOf(store).value.secret != ""
      {
        assert !Deserved(s, Missing([store])) && !Deserved(s, Missing([store, "clientDataSecret"]));
        assert !Lacks(s, store, [store]) && !Lacks(s, store, [store, "clientDataSecret"]);
      }
      if PKCS11 in s.enabled && KMIP in s.enabled {
        assert !Deserved(s, SamePath(s.kmip.value.PathOrDefault(KMIP_PATH)));
      }
    }
  }

  function Defaulted(s: Spec): Spec {
    Spec(if s.cluster == "" then "rabbitmq" else s.cluster, s.enabled,
         if s.pkcs11.Some? then Some(s.pkcs11.value.(path := s.pkcs11.value.PathOrDefault(PKCS11_PATH))) else None,
         if s.kmip.Some? then Some(s.kmip.value.(path := s.kmip.value.PathOrDefault(KMIP_PATH))) else None)
  }

  /** What the check of one store adds. */
  function OfStore(s: Spec, store: string): seq<Complaint> {
    if store !in s.enabled then []
    else if s.DataOf(store).None? then [Missing([store])]
    else if s.DataOf(store).value.secret == "" then [Missing([store, "clientDataSecret"])]
    else []
  }

  /** What the check of the two paths adds. */
  function OfPaths(s: Spec): seq<Complaint> {
    if PKCS11 in s.enabled && KMIP in s.enabled && s.pkcs11.Some? && s.kmip.Some?
       && s.pkcs11.value.PathOrDefault(PKCS11_PATH) == s.kmip.value.PathOrDefault(KMIP_PATH)
    then [SamePath(s.kmip.value.PathOrDefault(KMIP_PATH))]
    else []
  }

  lemma ComplaintsAdd(s: Spec)
    ensures forall c :: c in OfStore(s, PKCS11) + OfStore(s, KMIP) + OfPaths(s) <==> Deserved(s, c)
  {
    StoreNamesDiffer();
    forall c: Complaint ensures c in OfStore(s, PKCS11) + OfStore(s, KMIP) + OfPaths(s) <==> Deserved(s, c) {
      match c
      case Missing(field) =>
        assert forall store :: c in OfStore(s, store) <==> Lacks(s, store, field);
      case SamePath(path) =>
        assert c in OfPaths(s) <==> Deserved(s, c);
    }
  }

  /** BarbicanSpecBase with its webhook methods, which change the spec and the list of errors in place. */
  class SpecBase {
    var spec: Spec
    var allErrs: seq<Complaint>

    constructor (s: Spec)
      ensures spec == s && allErrs == []
    {
      spec, allErrs := s, [];
    }

    method Default()
      modifies this`spec
      ensures spec == Defaulted(old(spec))
    {
      if spec.cluster == "" {
        spec := spec.(cluster := "rabbitmq");
      }
      if spec.pkcs11.Some? && spec.pkcs11.value.path == "" {
        spec := spec.(pkcs11 := Some(spec.pkcs11.value.(path := PKCS11_PATH)));
      }
      if spec.kmip.Some? && spec.kmip.value.path == "" {
        spec := spec.(kmip := Some(spec.kmip.value.(path := KMIP_PATH)));
      }
    }

    /** Errors are only ever appended, and what is appended is every complaint that the spec deserves, so nothing
        exactly if the spec is admissible. */
    method ValidateSecretStores()
      modifies this`allErrs
      ensures old(allErrs) <= allErrs
      ensures forall c :: c in allErrs[|old(allErrs)|..] <==> Deserved(spec, c)
      ensures allErrs == old(allErrs) <==> Admissible(spec)
      ensures |allErrs| <= |old(allErrs)| + 3
    {
      StoreNamesDiffer();
      ValidateStore(PKCS11, spec.pkcs11);
      ValidateStore(KMIP, spec.kmip);
      ValidateClientDataPaths();
      ghost var added := OfStore(spec, PKCS11) + OfStore(spec, KMIP) + OfPaths(spec);
      assert allErrs == old(allErrs) + added;
      ComplaintsAdd(spec);
      AdmissibleMeansNoComplaint(spec);
      assert added != [] ==> added[0] in added;
    }

    /** ValidatePKCS11 and ValidateKMIP, which differ only in the store. */
    method ValidateStore(store: string, data: Option<ClientData>)
      modifies this`allErrs
      requires data == spec.DataOf(store)
      ensures allErrs == old(allErrs) + OfStore(spec, store)
    {
      if store !in spec.enabled { return; }
      if data.None? {
        allErrs := allErrs + [Missing([store])];
        return;
      }
      if data.value.secret == "" {
        allErrs := allErrs + [Missing([store, "clientDataSecret"])];
      }
    }

    method ValidateClientDataPaths()
      modifies this`allErrs
      ensures allErrs == old(allErrs) + OfPaths(spec)
    {
      if PKCS11 !in spec.enabled || KMIP !in spec.enabled || spec.pkcs11.None? || spec.kmip.None? { return; }
      var kmipPath := spec.kmip.value.PathOrDefault(KMIP_PATH);
      if kmipPath == spec.pkcs11.value.PathOrDefault(PKCS11_PATH) {
        allErrs := allErrs + [SamePath(kmipPath)];
      }
    }
  }

  // ---------------------------------------------------------------- the mounts

  datatype Volume = Volume(name: string, source: string)
  datatype Mount = Mount(volume: string, path: string, subPath: string)

  /** The stores that the pods mount client data for. */
  function Mounted(s: Spec): seq<string> {
    (if PKCS11 in s.enabled && s.pkcs11.Some? then [PKCS11] else [])
    + (if KMIP in s.enabled && s.kmip.Some? then [KMIP] else [])
  }

  function StoreVolume(s: Spec, store: string): Volume
    requires s.DataOf(store).Some?
  {
    Volume(VolumeName(store), s.DataOf(store).value.secret)
  }

  function StoreMount(s: Spec, store: string): Mount
    requires s.DataOf(store).Some?
  {
    Mount(VolumeName(store), s.DataOf(store).value.PathOrDefault(DefaultPath(store)), "")
  }

  function ClientVolumes(s: Spec): seq<Volume> {
    seq(|Mounted(s)|, i requires 0 <= i < |Mounted(s)| => StoreVolume(s, Mounted(s)[i]))
  }

  function ClientMounts(s: Spec): seq<Mount> {
    seq(|Mounted(s)|, i requires 0 <= i < |Mounted(s)| => StoreMount(s, Mounted(s)[i]))
  }

  method GetClientDataVolumes(s: Spec) returns (volumes: seq<Volume>, mounts: seq<Mount>)
    ensures volumes == ClientVolumes(s) && mounts == ClientMounts(s)
  {
    volumes, mounts := [], [];
    if PKCS11 in s.enabled && s.pkcs11.Some? {
      volumes := volumes + [Volume(PKCS11_VOLUME, s.pkcs11.value.secret)];
      mounts := mounts + [Mount(PKCS11_VOLUME, s.pkcs11.value.PathOrDefault(PKCS11_PATH), "")];
    }
    if KMIP in s.enabled && s.kmip.Some? {
      volumes := volumes + [Volume(KMIP_VOLUME, s.kmip.value.secret)];
      mounts := mounts + [Mount(KMIP_VOLUME, s.kmip.value.PathOrDefault(KMIP_PATH), "")];
    }
  }

  predicate DistinctPaths(ms: seq<Mount>) {
    forall i, j :: 0 <= i < j < |ms| ==> ms[i].path != ms[j].path
  }

  /** The client data of every enabled external store can be mounted: there is one volume and one mount
      for each, from a named secret, and no two share a path. */
  predicate Mountable(s: Spec) {
    && (forall store <- EXTERNAL :: store in s.enabled ==> store in Mounted(s))
    && (forall v <- ClientVolumes(s) :: v.source != "")
    && DistinctPaths(ClientMounts(s))
  }

  lemma OneOfEach(s: Spec)
    ensures forall i :: 0 <= i < |Mounted(s)| ==>
      ClientVolumes(s)[i].name == ClientMounts(s)[i].volume == VolumeName(Mounted(s)[i])
    ensures forall i, j :: 0 <= i < j < |Mounted(s)| ==> ClientVolumes(s)[i].name != ClientVolumes(s)[j].name
  {
    assert PKCS11_VOLUME[0] != KMIP_VOLUME[0];
  }

  /** Admission is exactly mountability. */
  lemma AdmissionIsMountability(s: Spec)
    ensures Admissible(s) <==> Mountable(s)
  {
    var ms, vs := ClientMounts(s), ClientVolumes(s);
    assert PKCS11[0] != KMIP[0];
    if Admissible(s) {
      assert forall store <- EXTERNAL :: store in s.enabled ==> store in Mounted(s);
    }
    if Mountable(s) {
      forall store | store in EXTERNAL && store in s.enabled
        ensures s.DataOf(store).Some? && s.DataOf(store).value.secret != ""
      {
        var i :| 0 <= i < |Mounted(s)| && Mounted(s)[i] == store;
        assert vs[i].source == s.DataOf(store).value.secret;
        assert vs[i] in vs;
      }
      if PKCS11 in s.enabled && KMIP in s.enabled {
        assert PKCS11 in EXTERNAL && KMIP in EXTERNAL;
        assert ms[0].path != ms[1].path;
      }
    }
  }

  /** Defaulting changes neither the verdict nor what is mounted, and a second time changes nothing. */
  lemma DefaultIsInvisible(s: Spec)
    ensures Admissible(Defaulted(s)) == Admissible(s)
    ensures ClientVolumes(Defaulted(s)) == ClientVolumes(s) && ClientMounts(Defaulted(s)) == ClientMounts(s)
    ensures Defaulted(Defaulted(s)) == Defaulted(s)
  {
    assert PKCS11[0] != KMIP[0];
    assert Mounted(Defaulted(s)) == Mounted(s);
  }

  /** It fills the cluster in if it is empty, and a path of a configured store likewise. */
  lemma DefaultFills(s: Spec)
    ensures Defaulted(s).cluster != "" && (s.cluster != "" ==> Defaulted(s).cluster == s.cluster)
    ensures Defaulted(s).cluster == "rabbitmq" <==> s.cluster == "" || s.cluster == "rabbitmq"
    ensures forall store <- EXTERNAL ::
      && (Defaulted(s).DataOf(store).Some? <==> s.DataOf(store).Some?)
      && (s.DataOf(store).Some? ==> Defaulted(s).DataOf(store).value.path != "")
  {
    assert PKCS11_PATH[0] == '/' && KMIP_PATH[0] == '/';
  }

  // ---------------------------------------------------------------- agreement

  datatype TemplateMap = TemplateMap(stores: string, default: string, simple: bool, pkcs11: bool, kmip: bool)

  /** strings.Join with a comma. */
  function Join(xs: seq<string>): string {
    if xs == [] then "" else if |xs| == 1 then xs[0] else xs[0] + "," + Join(xs[1..])
  }

  function Effective(enabled: seq<string>): seq<string> {
    if enabled == [] then [SIMPLE] else enabled
  }

  function TemplateOf(enabled: seq<string>, default: string): TemplateMap {
    TemplateMap(Join(Effective(enabled)), if default == "" then SIMPLE else default,
                SIMPLE in Effective(enabled), PKCS11 in Effective(enabled), KMIP in Effective(enabled))
  }

  method GenerateSecretStoreTemplateMap(enabled: seq<string>, default: string) returns (m: TemplateMap)
    ensures m == TemplateOf(enabled, default)
  {
    var stores: seq<string> := [];
    if |enabled| == 0 {
      stores := [SIMPLE];
    } else {
      for i := 0 to |enabled|
        invariant stores == enabled[..i]
      {
        stores := stores + [enabled[i]];
      }
      assert stores == enabled;
    }
    var def := if |default| == 0 then SIMPLE else default;
    m := TemplateMap(Join(stores), def, SIMPLE in stores, PKCS11 in stores, KMIP in stores);
  }

  /** The client data secrets that the parent verifies before it renders the configuration. */
  function Verified(s: Spec): seq<string> {
    (if PKCS11 in s.enabled && s.pkcs11.Some? then [s.pkcs11.value.secret] else [])
    + (if KMIP in s.enabled && s.kmip.Some? then [s.kmip.value.secret] else [])
  }

  predicate VerifiesKEK(s: Spec) { s.enabled == [] || SIMPLE in s.enabled }

  /** For every admitted spec the templates, the verified secrets and the mounted data speak of the same
      stores: a store is switched on in the templates exactly if its client data is mounted, the secrets
      verified are the secrets mounted, and the KEK is verified exactly if simple_crypto is on. */
  lemma StoresAgree(s: Spec, default: string)
    requires Admissible(s)
    ensures TemplateOf(s.enabled, default).pkcs11 <==> PKCS11 in Mounted(s)
    ensures TemplateOf(s.enabled, default).kmip <==> KMIP in Mounted(s)
    ensures TemplateOf(s.enabled, default).simple <==> VerifiesKEK(s)
    ensures |Verified(s)| == |ClientVolumes(s)|
    ensures forall i :: 0 <= i < |Verified(s)| ==> ClientVolumes(s)[i].source == Verified(s)[i] != ""
  {
    assert PKCS11[0] != KMIP[0] && SIMPLE[0] != PKCS11[0] && SIMPLE[0] != KMIP[0];
    assert PKCS11 in EXTERNAL && KMIP in EXTERNAL;
  }

  /** An empty list of stores means simple_crypto everywhere. */
  lemma EmptyMeansSimple(s: Spec, default: string)
    requires s.enabled == []
    ensures var t := s.(enabled := [SIMPLE]);
      && TemplateOf(s.enabled, default) == TemplateOf(t.enabled, default)
      && Admissible(s) == Admissible(t) && Verified(s) == Verified(t) && VerifiesKEK(s) == VerifiesKEK(t)
      && ClientVolumes(s) == ClientVolumes(t) && ClientMounts(s) == ClientMounts(t)
  {
    assert SIMPLE[0] != PKCS11[0] && SIMPLE[0] != KMIP[0];
    assert Mounted(s) == Mounted(s.(enabled := [SIMPLE])) == [];
  }

  /** The sections for stores in the rendered configuration, each with whether it is the global default. */
  datatype Section = Section(store: string, global: bool)

  function SectionIf(there: bool, store: string, default: string): seq<Section> {
    if there then [Section(store, default == store)] else []
  }

  /** The part of 00-default.conf that is about stores. */
  function Sections(s: Spec, default: string): seq<Section> {
    var m := TemplateOf(s.enabled, default);
    SectionIf(m.simple, SIMPLE, m.default) + SectionIf(PKCS11 in s.enabled && s.pkcs11.Some?, PKCS11, m.default)
    + SectionIf(m.kmip, KMIP, m.default)
  }

  const KNOWN: seq<string> := [SIMPLE, PKCS11, KMIP]

  /** With an admitted spec there is a section exactly for the stores in the list of suffixes, and at most one of
      them is the global default.  There is one if and only if the default store is an effective one, which for
      an empty default means simple_crypto; admission does not look at this. */
  lemma GlobalDefault(s: Spec, default: string)
    requires Admissible(s)
    ensures forall store <- KNOWN ::
      (exists x <- Sections(s, default) :: x.store == store) <==> store in Effective(s.enabled)
    ensures forall x, y :: x in Sections(s, default) && y in Sections(s, default) && x.global && y.global ==> x == y
    ensures (exists x <- Sections(s, default) :: x.global) <==>
      if default == "" then VerifiesKEK(s) else default in KNOWN && default in Effective(s.enabled)
  {
    StoreNamesDiffer();
    var xs, d := Sections(s, default), TemplateOf(s.enabled, default).default;
    assert PKCS11 in EXTERNAL && KMIP in EXTERNAL;
    forall store | store in KNOWN ensures store in Effective(s.enabled) <==> Section(store, d == store) in xs {
      assert store == SIMPLE || store == PKCS11 || store == KMIP;
    }
    if d in KNOWN && d in Effective(s.enabled) {
      assert Section(d, true) in xs;
    }
    if default == "" {
      assert SIMPLE in KNOWN;
    }
  }

  /** For instance: with PKCS11 alone and no default named there is no global default. */
  lemma NoGlobalDefault(s: Spec)
    requires Admissible(s) && s.enabled == [PKCS11]
    ensures forall x <- Sections(s, "") :: !x.global
  {
    StoreNamesDiffer();
    GlobalDefault(s, "");
  }

  /** The list of suffixes, piece by piece. */
  lemma StoresInOrder(xs: seq<string>, ys: seq<string>, default: string)
    requires xs != [] && ys != []
    ensures TemplateOf(xs + ys, default).stores
      == TemplateOf(xs, default).stores + "," + TemplateOf(ys, default).stores
    ensures TemplateOf(xs[..1], default).stores == xs[0] && TemplateOf([], default).stores == SIMPLE
  {
    JoinConcat(xs, ys);
  }

  lemma {:induction false} JoinConcat(xs: seq<string>, ys: seq<string>)
    requires xs != [] && ys != []
    ensures Join(xs + ys) == Join(xs) + "," + Join(ys)
  {
    assert (xs + ys)[0] == xs[0] && (xs + ys)[1..] == xs[1..] + ys;
    if |xs| > 1 {
      JoinConcat(xs[1..], ys);
    }
  }

  predicate CommaFree(xs: seq<string>) { forall x <- xs :: ',' !in x }

  lemma {:induction false} CommaAfterHead(x: string, y: string, a: string, b: string)
    requires ',' !in x && ',' !in y && x + "," + a == y + "," + b
    ensures x == y && a == b
  {
    var l, r := x + "," + a, y + "," + b;
    assert l[|x|] == ',' && r[|y|] == ',';
    assert forall i :: 0 <= i < |x| ==> l[i] == x[i] != ',';
    assert forall i :: 0 <= i < |y| ==> r[i] == y[i] != ',';
    assert x == l[..|x|] && y == r[..|y|];
    assert a == l[|x| + 1..] && b == r[|y| + 1..];
  }

  lemma SingleHasNoComma(xs: seq<string>)
    requires CommaFree(xs) && xs != []
    ensures |xs| == 1 <==> ',' !in Join(xs)
  {
    if |xs| > 1 {
      assert Join(xs)[|xs[0]|] == ',';
    }
  }

  /** The comma-joined list determines the stores. */
  lemma {:induction false} JoinIsInjective(xs: seq<string>, ys: seq<string>)
    requires CommaFree(xs) && CommaFree(ys) && xs != [] && ys != [] && Join(xs) == Join(ys)
    ensures xs == ys
  {
    SingleHasNoComma(xs);
    SingleHasNoComma(ys);
    if |xs| == 1 {
      assert xs == [xs[0]] && ys == [ys[0]];
    } else {
      CommaAfterHead(xs[0], ys[0], Join(xs[1..]), Join(ys[1..]));
      JoinIsInjective(xs[1..], ys[1..]);
      assert xs == [xs[0]] + xs[1..] && ys == [ys[0]] + ys[1..];
    }
  }
}
