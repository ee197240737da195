/** The volumes and mounts of the API, Worker and KeystoneListener pods. */
module Pods {
  import opened Cluster
  import opened SortedKeys
  import opened SecretStores
  import Overlay
  import WatchIndex

  const CONFIG := "config-data"
  const CUSTOM_CONFIG := "config-data-custom"
  const LOGS := "logs"
  const RUN_HTTPD := "run-httpd"
  const VAR_LOG_HTTPD := "var-log-httpd"
  const CA_BUNDLE := "combined-ca-bundle"
  const CA_PATH := "/etc/pki/" + "ca-trust/extracted/pem/tls-ca-bundle.pem"
  const OVERWRITE_BASE := "/etc/barbican/"
  const SNIPPET_DIR := "barbican.conf.d"

  datatype Endpoint = Internal | Public {
    function Text(): string { if Internal? then "internal" else "public" }
    function CertPath(): string { "/etc/pki/tls/certs/" + Text() + ".crt" }
    function KeyPath(): string { "/etc/pki/tls/private/" + Text() + ".key" }
    function VolumeName(): string { Text() + "-tls-certs" }
  }

  /** TLS of one endpoint; a service that cannot be built from it is None. */
  datatype TLS = TLS(enabled: bool, service: Option<string>)

  /** An entry of the extra mounts, with the number of times that the propagation filter of the storage
      library yields it for each service. */
  datatype VolMounts = VolMounts(volumes: seq<Volume>, mounts: seq<Mount>, copies: Trio<nat>)

  datatype Instance = Instance(name: string, spec: Spec, caBundle: string, internal: TLS, public: TLS,
                               extra: seq<seq<VolMounts>>)
  {
    function At(e: Endpoint): TLS { if e.Internal? then internal else public }
  }

  const ENDPOINTS: seq<Endpoint> := [Internal, Public]

  // ---------------------------------------------------------------- overwrite files

  function OverwritePath(key: string): string { OVERWRITE_BASE + key }
  function OverwriteMount(key: string): Mount { Mount(CUSTOM_CONFIG, OverwritePath(key), key) }

  function OverwriteMounts(keys: seq<string>): (ms: seq<Mount>)
    ensures |ms| == |keys|
    ensures forall i :: 0 <= i < |ms| ==> ms[i] == OverwriteMount(keys[i])
  {
    seq(|keys|, i requires 0 <= i < |keys| => OverwriteMount(keys[i]))
  }

  predicate IsSortOf(sorted: seq<string>, keys: seq<string>) {
    Sorted(sorted) && multiset(sorted) == multiset(keys)
  }

  method GetConfigOverwriteVolumeMounts(overwriteKeys: seq<string>) returns (mounts: seq<Mount>)
    ensures exists sorted :: IsSortOf(sorted, overwriteKeys) && mounts == OverwriteMounts(sorted)
    ensures StrictlySorted(overwriteKeys) ==> mounts == OverwriteMounts(overwriteKeys)
  {
    mounts := [];
    var keys := Sort(overwriteKeys);
    for i := 0 to |keys|
      invariant mounts == OverwriteMounts(keys[..i])
    {
      mounts := mounts + [Mount(CUSTOM_CONFIG, OVERWRITE_BASE + keys[i], keys[i])];
    }
    assert keys[..|keys|] == keys && IsSortOf(keys, overwriteKeys);
    if StrictlySorted(overwriteKeys) {
      SortKeepsSorted(overwriteKeys, keys);
    }
  }

  ghost function KeySet(ks: seq<string>): set<string> { set k | k in ks }

  lemma SortKeepsSorted(keys: seq<string>, sorted: seq<string>)
    requires StrictlySorted(keys) && Sorted(sorted) && multiset(sorted) == multiset(keys)
    ensures sorted == keys
  {
    StrictIsDistinct(keys);
    DistinctIsOnce(keys);
    OnceIsDistinct(sorted);
    SameElements(sorted, keys);
    SortedDistinctLists(sorted, KeySet(keys));
    ListIsUnique(sorted, keys, KeySet(keys));
  }

  function ParentOverwrite(i: Overlay.Inputs): Overlay.Data
    requires Overlay.Fetchable(i)
  {
    if i.owner != "" then i.ownerOverwrite.value else map[]
  }

  /** The file that each overwrite mount shows: its SubPath is a key of the child's Secret, and the content
      is the child's overwrite or else the parent's, except for the one key that the custom secrets take. */
  lemma OverwriteFilesExist(i: Overlay.Inputs, data: Overlay.Data, keys: seq<string>, m: Mount)
    requires Overlay.Fetchable(i) && forall k :: Overlay.Lookup(data, k) == Overlay.Rule(i, k)
    requires keys == Listing(ParentOverwrite(i).Keys + i.overwrite.Keys) && m in OverwriteMounts(keys)
    ensures m.subPath in data && m.path == OVERWRITE_BASE + m.subPath
    ensures Some(data[m.subPath]) ==
      if m.subPath == Overlay.SECRETS then Some(Overlay.SecretsText(i.secretNames, i.secrets))
      else if m.subPath in i.overwrite then Some(i.overwrite[m.subPath])
      else Overlay.Lookup(ParentOverwrite(i), m.subPath)
  {
    assert m.subPath in keys;
    assert Lists(keys, ParentOverwrite(i).Keys + i.overwrite.Keys);
    assert Overlay.Lookup(data, m.subPath) == Overlay.Rule(i, m.subPath);
  }

  // ---------------------------------------------------------------- the parts of a pod

  function FixedVolumes(k: Kind, name: string): seq<Volume> {
    [Volume(CONFIG, "barbican-config-data"), Volume(CUSTOM_CONFIG, name + "-config-data"), Volume(LOGS, "")]
    + if k.API? then [Volume(RUN_HTTPD, ""), Volume(VAR_LOG_HTTPD, "")] else []
  }

  const BASE_MOUNTS: seq<Mount> := [
    Mount(CONFIG, "/etc/my.cnf", "my.cnf"),
    Mount(CUSTOM_CONFIG, "/etc/barbican/barbican.conf.d", ""),
    Mount(LOGS, "/var/log/barbican", "")]

  const HTTPD_MOUNTS: seq<Mount> := [
    Mount(CONFIG, "/etc/httpd/conf/httpd.conf", "httpd.conf"),
    Mount(CONFIG, "/etc/httpd/conf.modules.d/mime.conf", "mime.conf"),
    Mount(CONFIG, "/etc/httpd/conf.d/ssl.conf", "ssl.conf"),
    Mount(CONFIG, "/etc/httpd/conf.d/10-barbican_wsgi_main.conf", "10-barbican_wsgi_main.conf"),
    Mount(CONFIG, "/var/www/cgi-bin/barbican/main", "main"),
    Mount(RUN_HTTPD, "/run/httpd", ""),
    Mount(VAR_LOG_HTTPD, "/var/log/httpd", "")]

  function FixedMounts(k: Kind): seq<Mount> { BASE_MOUNTS + if k.API? then HTTPD_MOUNTS else [] }

  function CAVolumes(caBundle: string): seq<Volume> { if caBundle != "" then [Volume(CA_BUNDLE, caBundle)] else [] }
  function CAMounts(caBundle: string): seq<Mount> {
    if caBundle != "" then [Mount(CA_BUNDLE, CA_PATH, "tls-ca-bundle.pem")] else []
  }

  function EndpointVolumes(x: Instance, e: Endpoint): seq<Volume> {
    if x.At(e).enabled && x.At(e).service.Some? then [Volume(e.VolumeName(), x.At(e).service.value)] else []
  }

  function EndpointMounts(x: Instance, e: Endpoint): seq<Mount> {
    if !x.At(e).enabled then []
    else [Mount(e.VolumeName(), e.CertPath(), "tls.crt"), Mount(e.VolumeName(), e.KeyPath(), "tls.key")]
  }

  /** Both endpoints have a usable TLS configuration or none. */
  predicate TLSUsable(x: Instance) { forall e: Endpoint :: x.At(e).enabled ==> x.At(e).service.Some? }

  function TLSVolumes(k: Kind, x: Instance): seq<Volume> {
    if k.API? then EndpointVolumes(x, Internal) + EndpointVolumes(x, Public) else []
  }

  function TLSMounts(k: Kind, x: Instance): seq<Mount> {
    if k.API? then EndpointMounts(x, Internal) + EndpointMounts(x, Public) else []
  }

  function StoreVolumes(k: Kind, s: Spec): seq<Volume> { if k.Listener? then [] else ClientVolumes(s) }
  function StoreMounts(k: Kind, s: Spec): seq<Mount> { if k.Listener? then [] else ClientMounts(s) }

  function Repeat(v: VolMounts, n: nat): seq<VolMounts> { seq(n, i => v) }

  /** The entries that reach the service, in order. */
  function Propagate(vs: seq<VolMounts>, k: Kind): seq<VolMounts> {
    if vs == [] then [] else Propagate(vs[..|vs| - 1], k) + Repeat(vs[|vs| - 1], vs[|vs| - 1].copies.At(k))
  }

  function AllPropagated(extra: seq<seq<VolMounts>>, k: Kind): seq<VolMounts> {
    if extra == [] then [] else AllPropagated(extra[..|extra| - 1], k) + Propagate(extra[|extra| - 1], k)
  }

  function VolumesOf(vs: seq<VolMounts>): seq<Volume> {
    if vs == [] then [] else VolumesOf(vs[..|vs| - 1]) + vs[|vs| - 1].volumes
  }

  function MountsOf(vs: seq<VolMounts>): seq<Mount> {
    if vs == [] then [] else MountsOf(vs[..|vs| - 1]) + vs[|vs| - 1].mounts
  }

  /** The mounts that come from the operator itself. */
  function OperatorMounts(k: Kind, x: Instance, keys: seq<string>): seq<Mount> {
    FixedMounts(k) + OverwriteMounts(keys) + CAMounts(x.caBundle) + TLSMounts(k, x) + StoreMounts(k, x.spec)
  }

  function OperatorVolumes(k: Kind, x: Instance): seq<Volume> {
    FixedVolumes(k, x.name) + CAVolumes(x.caBundle) + TLSVolumes(k, x) + StoreVolumes(k, x.spec)
  }

  // ---------------------------------------------------------------- assembly

  lemma VolumesAppend(vs: seq<VolMounts>, v: VolMounts)
    ensures VolumesOf(vs + [v]) == VolumesOf(vs) + v.volumes && MountsOf(vs + [v]) == MountsOf(vs) + v.mounts
  {
    assert (vs + [v])[..|vs|] == vs;
  }

  method PropagateEntries(vs: seq<VolMounts>, k: Kind) returns (vl: seq<VolMounts>)
    ensures vl == Propagate(vs, k)
  {
    vl := [];
    for i := 0 to |vs|
      invariant vl == Propagate(vs[..i], k)
    {
      assert vs[..i + 1][..i] == vs[..i];
      vl := vl + Repeat(vs[i], vs[i].copies.At(k));
    }
    assert vs[..|vs|] == vs;
  }

  /** The inner loop of GetExtraVolumes, over the entries that reach the service. */
  method AppendEntries(volumes: seq<Volume>, mounts: seq<Mount>, ghost before: seq<VolMounts>, vl: seq<VolMounts>)
    returns (vs: seq<Volume>, ms: seq<Mount>)
    requires volumes == VolumesOf(before) && mounts == MountsOf(before)
    ensures vs == VolumesOf(before + vl) && ms == MountsOf(before + vl)
  {
    vs, ms := volumes, mounts;
    assert before + vl[..0] == before;
    for j := 0 to |vl|
      invariant vs == VolumesOf(before + vl[..j]) && ms == MountsOf(before + vl[..j])
    {
      VolumesAppend(before + vl[..j], vl[j]);
      assert before + vl[..j + 1] == before + vl[..j] + [vl[j]];
      vs, ms := vs + vl[j].volumes, ms + vl[j].mounts;
    }
    assert vl[..|vl|] == vl;
  }

  method GetExtraVolumes(extra: seq<seq<VolMounts>>, k: Kind) returns (volumes: seq<Volume>, mounts: seq<Mount>)
    ensures Assembly(volumes, mounts) == Extra(extra, k)
  {
    volumes, mounts := [], [];
    for i := 0 to |extra|
      invariant volumes == VolumesOf(AllPropagated(extra[..i], k))
      invariant mounts == MountsOf(AllPropagated(extra[..i], k))
    {
      var vl := PropagateEntries(extra[i], k);
      volumes, mounts := AppendEntries(volumes, mounts, AllPropagated(extra[..i], k), vl);
      assert extra[..i + 1][..i] == extra[..i];
    }
    assert extra[..|extra|] == extra;
  }

  lemma Regroup<T>(a: seq<T>, b: seq<T>, c: seq<T>)
    ensures a + b + c == a + (b + c)
  {
  }

  /** What the extra mounts add to a pod of service `k`. */
  function Extra(extra: seq<seq<VolMounts>>, k: Kind): Assembly {
    Assembly(VolumesOf(AllPropagated(extra, k)), MountsOf(AllPropagated(extra, k)))
  }

  function Then(a: Assembly, b: Assembly): Assembly { Assembly(a.volumes + b.volumes, a.mounts + b.mounts) }

  function Times(a: Assembly, n: nat): Assembly {
    if n == 0 then Assembly([], []) else Then(Times(a, n - 1), a)
  }

  lemma {:induction false} PropagateInOrder(vs: seq<VolMounts>, ws: seq<VolMounts>, k: Kind)
    ensures Propagate(vs + ws, k) == Propagate(vs, k) + Propagate(ws, k)
  {
    if ws == [] {
      assert vs + ws == vs;
    } else {
      var j := |ws| - 1;
      assert (vs + ws)[..|vs + ws| - 1] == vs + ws[..j] && (vs + ws)[|vs + ws| - 1] == ws[j];
      PropagateInOrder(vs, ws[..j], k);
      Regroup(Propagate(vs, k), Propagate(ws[..j], k), Repeat(ws[j], ws[j].copies.At(k)));
    }
  }

  lemma {:induction false} AllPropagatedInOrder(e: seq<seq<VolMounts>>, f: seq<seq<VolMounts>>, k: Kind)
    ensures AllPropagated(e + f, k) == AllPropagated(e, k) + AllPropagated(f, k)
  {
    if f == [] {
      assert e + f == e;
    } else {
      var j := |f| - 1;
      assert (e + f)[..|e + f| - 1] == e + f[..j] && (e + f)[|e + f| - 1] == f[j];
      AllPropagatedInOrder(e, f[..j], k);
      Regroup(AllPropagated(e, k), AllPropagated(f[..j], k), Propagate(f[j], k));
    }
  }

  lemma {:induction false} CollectInOrder(vs: seq<VolMounts>, ws: seq<VolMounts>)
    ensures VolumesOf(vs + ws) == VolumesOf(vs) + VolumesOf(ws) && MountsOf(vs + ws) == MountsOf(vs) + MountsOf(ws)
  {
    if ws == [] {
      assert vs + ws == vs;
    } else {
      var j := |ws| - 1;
      assert (vs + ws)[..|vs + ws| - 1] == vs + ws[..j] && (vs + ws)[|vs + ws| - 1] == ws[j];
      CollectInOrder(vs, ws[..j]);
      Regroup(VolumesOf(vs), VolumesOf(ws[..j]), ws[j].volumes);
      Regroup(MountsOf(vs), MountsOf(ws[..j]), ws[j].mounts);
    }
  }

  /** The extra mounts of two lists are those of the first, then those of the second. */
  lemma ExtraInOrder(e: seq<seq<VolMounts>>, f: seq<seq<VolMounts>>, k: Kind)
    ensures Extra(e + f, k) == Then(Extra(e, k), Extra(f, k))
  {
    AllPropagatedInOrder(e, f, k);
    CollectInOrder(AllPropagated(e, k), AllPropagated(f, k));
  }

  lemma OneList(vs: seq<VolMounts>, k: Kind)
    ensures AllPropagated([vs], k) == Propagate(vs, k)
  {
    assert [vs][..0] == [];
  }

  /** Within one list the entries add theirs in order. */
  lemma EntriesInOrder(vs: seq<VolMounts>, ws: seq<VolMounts>, k: Kind)
    ensures Extra([vs + ws], k) == Then(Extra([vs], k), Extra([ws], k))
  {
    OneList(vs + ws, k);
    OneList(vs, k);
    OneList(ws, k);
    PropagateInOrder(vs, ws, k);
    CollectInOrder(Propagate(vs, k), Propagate(ws, k));
  }

  lemma {:induction false} RepeatedCollect(v: VolMounts, n: nat)
    ensures Assembly(VolumesOf(Repeat(v, n)), MountsOf(Repeat(v, n))) == Times(Assembly(v.volumes, v.mounts), n)
  {
    if n > 0 {
      RepeatedCollect(v, n - 1);
      assert Repeat(v, n) == Repeat(v, n - 1) + [v];
      VolumesAppend(Repeat(v, n - 1), v);
    }
  }

  /** A single entry adds its volumes and mounts as often as it is propagated to this service, so not at all to a
      service that it does not name. */
  lemma OneEntry(v: VolMounts, k: Kind)
    ensures Extra([[v]], k) == Times(Assembly(v.volumes, v.mounts), v.copies.At(k))
  {
    OneList([v], k);
    assert [v][..0] == [];
    assert Propagate([v], k) == Repeat(v, v.copies.At(k));
    RepeatedCollect(v, v.copies.At(k));
  }

  datatype Assembly = Assembly(volumes: seq<Volume>, mounts: seq<Mount>)

  /** The volumes and mounts of a pod of service `k`. */
  function Assembled(k: Kind, x: Instance, keys: seq<string>): Assembly {
    Then(Assembly(OperatorVolumes(k, x), OperatorMounts(k, x, keys)), Extra(x.extra, k))
  }

  /** None for an endpoint whose TLS service cannot be built. */
  method GetAPIVolumesAndMounts(x: Instance, keys: seq<string>) returns (r: Option<Assembly>)
    ensures r.Some? <==> TLSUsable(x)
    ensures r.Some? ==> exists sorted :: IsSortOf(sorted, keys) && r.value == Assembled(API, x, sorted)
  {
    var volumes := [Volume(CUSTOM_CONFIG, x.name + "-config-data"), Volume(LOGS, ""), Volume(RUN_HTTPD, ""),
      Volume(VAR_LOG_HTTPD, "")];
    var mounts := [Mount(CUSTOM_CONFIG, "/etc/barbican/barbican.conf.d", ""), Mount(LOGS, "/var/log/barbican", "")];
    mounts := mounts + HTTPD_MOUNTS;
    var overwrites := GetConfigOverwriteVolumeMounts(keys);
    ghost var sorted :| IsSortOf(sorted, keys) && overwrites == OverwriteMounts(sorted);
    mounts := mounts + overwrites;
    volumes := [Volume(CONFIG, "barbican-config-data")] + volumes;
    mounts := [Mount(CONFIG, "/etc/my.cnf", "my.cnf")] + mounts;
    assert mounts == FixedMounts(API) + OverwriteMounts(sorted);
    r := AppendAPIOptional(x, volumes, mounts, sorted);
  }

  /** The second half of this function: CA bundle, TLS of the endpoints, client data and extra mounts. */
  method AppendAPIOptional(x: Instance, general: seq<Volume>, generalMounts: seq<Mount>, ghost sorted: seq<string>)
    returns (r: Option<Assembly>)
    requires general == FixedVolumes(API, x.name) && generalMounts == FixedMounts(API) + OverwriteMounts(sorted)
    ensures r.Some? <==> TLSUsable(x)
    ensures r.Some? ==> r.value == Assembled(API, x, sorted)
  {
    var volumes, mounts := general, generalMounts;
    if x.caBundle != "" {
      volumes := volumes + [Volume(CA_BUNDLE, x.caBundle)];
      mounts := mounts + [Mount(CA_BUNDLE, CA_PATH, "tls-ca-bundle.pem")];
    }
    var usable, tlsVolumes, tlsMounts := EndpointsTLS(x);
    if !usable { return None; }
    volumes, mounts := volumes + tlsVolumes, mounts + tlsMounts;
    var storeVolumes, storeMounts := GetClientDataVolumes(x.spec);
    var extraVolumes, extraMounts := GetExtraVolumes(x.extra, API);
    r := Some(Assembly(volumes + storeVolumes + extraVolumes, mounts + storeMounts + extraMounts));
    AssembledAs(API, x, sorted, r.value);
  }

  /** The loop over the endpoints; it ends at the first one whose TLS service cannot be built. */
  method EndpointsTLS(x: Instance) returns (usable: bool, volumes: seq<Volume>, mounts: seq<Mount>)
    ensures usable <==> TLSUsable(x)
    ensures usable ==> volumes == TLSVolumes(API, x) && mounts == TLSMounts(API, x)
  {
    volumes, mounts := [], [];
    for i := 0 to |ENDPOINTS|
      invariant forall j :: 0 <= j < i ==> x.At(ENDPOINTS[j]).enabled ==> x.At(ENDPOINTS[j]).service.Some?
      invariant volumes == (if i > 0 then EndpointVolumes(x, Internal) else []) +
        (if i > 1 then EndpointVolumes(x, Public) else [])
      invariant mounts == (if i > 0 then EndpointMounts(x, Internal) else []) +
        (if i > 1 then EndpointMounts(x, Public) else [])
    {
      var e := ENDPOINTS[i];
      if x.At(e).enabled {
        if x.At(e).service.None? { return false, [], []; }
        volumes := volumes + [Volume(e.VolumeName(), x.At(e).service.value)];
        mounts := mounts + [Mount(e.VolumeName(), e.CertPath(), "tls.crt"),
          Mount(e.VolumeName(), e.KeyPath(), "tls.key")];
      }
    }
    usable := true;
    forall e: Endpoint ensures x.At(e).enabled ==> x.At(e).service.Some? {
      assert e == ENDPOINTS[0] || e == ENDPOINTS[1];
    }
  }

  /** Concatenation in the order of the code is concatenation in the order of the parts. */
  lemma AssembledAs(k: Kind, x: Instance, keys: seq<string>, a: Assembly)
    requires a.volumes == FixedVolumes(k, x.name) + CAVolumes(x.caBundle) + TLSVolumes(k, x) + StoreVolumes(k, x.spec)
      + Extra(x.extra, k).volumes
    requires a.mounts == FixedMounts(k) + OverwriteMounts(keys) + CAMounts(x.caBundle) + TLSMounts(k, x) +
      StoreMounts(k, x.spec)
      + Extra(x.extra, k).mounts
    ensures a == Assembled(k, x, keys)
  {
  }

  lemma PutInFront(base: seq<Mount>, overwrites: seq<Mount>)
    requires |base| > 0
    ensures base[..1] + (base[1..] + overwrites) == base + [] + overwrites
  {
  }

  /** GetWorkerVolumesAndMounts and GetListenerVolumesAndMounts; only the Worker mounts client data. */
  method GetVolumesAndMounts(k: Kind, x: Instance, keys: seq<string>) returns (r: Assembly)
    requires !k.API?
    ensures exists sorted :: IsSortOf(sorted, keys) && r == Assembled(k, x, sorted)
  {
    var volumes := [Volume(CUSTOM_CONFIG, x.name + "-config-data"), Volume(LOGS, "")];
    var mounts := BASE_MOUNTS[1..];
    var overwrites := GetConfigOverwriteVolumeMounts(keys);
    ghost var sorted :| IsSortOf(sorted, keys) && overwrites == OverwriteMounts(sorted);
    mounts := mounts + overwrites;
    volumes := [Volume(CONFIG, "barbican-config-data")] + volumes;
    mounts := BASE_MOUNTS[..1] + mounts;
    PutInFront(BASE_MOUNTS, overwrites);
    r := AppendOptional(k, x, volumes, mounts, sorted);
  }

  /** The second half of these two functions: CA bundle, client data and extra mounts. */
  method AppendOptional(k: Kind, x: Instance, general: seq<Volume>, generalMounts: seq<Mount>,
    ghost sorted: seq<string>)
    returns (r: Assembly)
    requires !k.API? && general == FixedVolumes(k, x.name) && generalMounts == FixedMounts(k) + OverwriteMounts(sorted)
    ensures r == Assembled(k, x, sorted)
  {
    var volumes, mounts := general, generalMounts;
    if x.caBundle != "" {
      volumes := volumes + [Volume(CA_BUNDLE, x.caBundle)];
      mounts := mounts + [Mount(CA_BUNDLE, CA_PATH, "tls-ca-bundle.pem")];
    }
    assert volumes == general + CAVolumes(x.caBundle) && mounts == generalMounts + CAMounts(x.caBundle);
    if k.Worker? {
      var storeVolumes, storeMounts := GetClientDataVolumes(x.spec);
      volumes, mounts := volumes + storeVolumes, mounts + storeMounts;
    }
    assert volumes == general + CAVolumes(x.caBundle) + TLSVolumes(k, x) + StoreVolumes(k, x.spec);
    assert mounts == generalMounts + CAMounts(x.caBundle) + TLSMounts(k, x) + StoreMounts(k, x.spec);
    var extraVolumes, extraMounts := GetExtraVolumes(x.extra, k);
    r := Assembly(volumes + extraVolumes, mounts + extraMounts);
    AssembledAs(k, x, sorted, r);
  }

  // ---------------------------------------------------------------- who mounts what

  lemma SuffixCancels(a: string, b: string, c: string)
    ensures a + c == b + c <==> a == b
  {
    if a + c == b + c {
      assert a == (a + c)[..|a|] && b == (b + c)[..|b|];
    }
  }

  /** The fixed config volume shows the parent's config Secret, whose changes the child is told of, if and only
      if the parent is called "barbican": the pods take this name for granted. */
  lemma ConfigOfTheParent(k: Kind, cr: WatchIndex.CR)
    requires cr.owner != ""
    ensures (exists v <- FixedVolumes(k, cr.name) ::
        v.name == CONFIG && v.source in WatchIndex.Extract(WatchIndex.ParentConfigDataSecret, cr))
      <==> cr.owner == "barbican"
  {
    SuffixCancels("barbican", cr.owner, "-config-data");
    var vs := FixedVolumes(k, cr.name);
    assert vs[0].source == "barbican" + "-config-data" == "barbican-config-data";
    assert vs[0] in vs;
    assert |CUSTOM_CONFIG| != |CONFIG| && |LOGS| != |CONFIG| && |VAR_LOG_HTTPD| != |CONFIG|;
    assert RUN_HTTPD[0] != CONFIG[0];
  }

  /** And each pod has one volume with the child's own config Secret, which holds its overwrites. */
  lemma ConfigOfTheChild(k: Kind, name: string)
    ensures exists v <- FixedVolumes(k, name) :: v.name == CUSTOM_CONFIG && v.source == Overlay.SecretName(name)
    ensures forall v <- FixedVolumes(k, name) :: v.name == CUSTOM_CONFIG ==> v.source == Overlay.SecretName(name)
  {
    var vs := FixedVolumes(k, name);
    assert vs[1] in vs;
    assert |CUSTOM_CONFIG| == 18 && |CONFIG| == 11 && |LOGS| == 4 && |RUN_HTTPD| == 9 && |VAR_LOG_HTTPD| == 13;
  }

  /** What the vhost of an endpoint says about its certificate. */
  datatype VHost = VHost(certificate: string, key: string)

  function VHostOf(e: Endpoint): VHost {
    var file := if e.Internal? then "internal" else "public";
    VHost("/etc/pki/" + "tls/certs/" + file + ".crt", "/etc/pki/" + "tls/private/" + file + ".key")
  }

  ghost predicate FileFrom(a: Assembly, source: string, path: string, subPath: string) {
    exists v, m :: v in a.volumes && m in a.mounts && v == Volume(m.volume, source) && m.path == path
      && m.subPath == subPath
  }

  /** The API pod has these files, from the Secret of the endpoint's TLS service. */
  lemma CertificatesAreThere(x: Instance, keys: seq<string>, e: Endpoint)
    requires TLSUsable(x) && x.At(e).enabled
    ensures var a, secret, host := Assembled(API, x, keys), x.At(e).service.value, VHostOf(e);
      FileFrom(a, secret, host.certificate, "tls.crt") && FileFrom(a, secret, host.key, "tls.key")
  {
    var host, secret := VHostOf(e), x.At(e).service.value;
    var v := Volume(e.VolumeName(), secret);
    VHostPaths(e);
    assert EndpointVolumes(x, e) == [v];
    PartIsThere(x, keys, e, v, Mount(e.VolumeName(), host.certificate, "tls.crt"));
    PartIsThere(x, keys, e, v, Mount(e.VolumeName(), host.key, "tls.key"));
  }

  lemma VHostPaths(e: Endpoint)
    ensures VHostOf(e).certificate == e.CertPath() && VHostOf(e).key == e.KeyPath()
  {
    assert "/etc/pki/" + "tls/certs/" == "/etc/pki/tls/certs/";
    assert "/etc/pki/" + "tls/private/" == "/etc/pki/tls/private/";
  }

  lemma PartIsThere(x: Instance, keys: seq<string>, e: Endpoint, v: Volume, m: Mount)
    requires v in EndpointVolumes(x, e) && m in EndpointMounts(x, e) && v.name == m.volume
    ensures FileFrom(Assembled(API, x, keys), v.source, m.path, m.subPath)
  {
    assert v in TLSVolumes(API, x) && m in TLSMounts(API, x);
    assert v in OperatorVolumes(API, x) && m in OperatorMounts(API, x, keys);
    var a := Assembled(API, x, keys);
    assert v in a.volumes && m in a.mounts && v == Volume(m.volume, v.source);
  }

  /** A mount shows a whole directory, or the file of the volume that has the name of the path. */
  predicate ShowsFile(m: Mount) {
    var n := |m.path| - |m.subPath|;
    m.subPath != "" ==> n > 0 && m.path[n - 1] == '/' && m.path[n..] == m.subPath
  }

  const DIRECTORIES: seq<string> :=
    ["/etc/barbican/barbican.conf.d", "/var/log/barbican", "/run/httpd", "/var/log/httpd"]

  lemma BaseFiles(i: nat)
    requires i < |BASE_MOUNTS|
    ensures ShowsFile(BASE_MOUNTS[i]) && (BASE_MOUNTS[i].subPath == "" ==> BASE_MOUNTS[i].path in DIRECTORIES)
  {
    var m := BASE_MOUNTS[i];
    if i == 0 {
      assert m.path[4..] == "/my.cnf" && m.path[5..] == m.subPath;
    } else {
      assert m.path == DIRECTORIES[i - 1];
    }
  }

  lemma FileIn(m: Mount, dir: string)
    requires m.path == dir + "/" + m.subPath && m.subPath != ""
    ensures ShowsFile(m)
  {
    assert m.path[|dir|] == '/' && m.path[|dir| + 1..] == m.subPath;
  }

  const HTTPD_DIRS: seq<string> := [
    "/etc/httpd/conf", "/etc/httpd/conf.modules.d", "/etc/httpd/conf.d", "/etc/httpd/conf.d",
    "/var/www/cgi-bin/barbican"]

  lemma ConfNames()
    ensures "/etc/httpd/conf" + "/" + "httpd.conf" == "/etc/httpd/conf/httpd.conf"
    ensures "/etc/httpd/conf.d" + "/" + "ssl.conf" == "/etc/httpd/conf.d/ssl.conf"
  {
  }

  lemma OtherNames()
    ensures "/etc/httpd/conf.modules.d" + "/" + "mime.conf" == "/etc/httpd/conf.modules.d/mime.conf"
    ensures "/var/www/cgi-bin/barbican" + "/" + "main" == "/var/www/cgi-bin/barbican/main"
  {
  }

  lemma WsgiName()
    ensures "/etc/httpd/conf.d" + "/" + "10-barbican_wsgi_main.conf" == "/etc/httpd/conf.d/10-barbican_wsgi_main.conf"
  {
  }

  lemma HttpdNames(i: nat)
    requires i < |HTTPD_DIRS|
    ensures HTTPD_MOUNTS[i].path == HTTPD_DIRS[i] + "/" + HTTPD_MOUNTS[i].subPath && |HTTPD_MOUNTS[i].subPath| > 0
  {
    ConfNames();
    OtherNames();
    WsgiName();
    assert i == 0 || i == 1 || i == 2 || i == 3 || i == 4;
  }

  lemma HttpdFiles(i: nat)
    requires i < |HTTPD_MOUNTS|
    ensures ShowsFile(HTTPD_MOUNTS[i]) && (HTTPD_MOUNTS[i].subPath == "" ==> HTTPD_MOUNTS[i].path in DIRECTORIES)
  {
    if i < |HTTPD_DIRS| {
      HttpdNames(i);
      FileIn(HTTPD_MOUNTS[i], HTTPD_DIRS[i]);
    } else {
      assert HTTPD_MOUNTS[i].path == DIRECTORIES[i - 3];
    }
  }

  lemma FixedFiles(k: Kind, m: Mount)
    requires m in FixedMounts(k)
    ensures ShowsFile(m) && (m.subPath == "" ==> m.path in DIRECTORIES)
  {
    if m in BASE_MOUNTS {
      var i :| 0 <= i < |BASE_MOUNTS| && BASE_MOUNTS[i] == m;
      BaseFiles(i);
    } else {
      var i :| 0 <= i < |HTTPD_MOUNTS| && HTTPD_MOUNTS[i] == m;
      HttpdFiles(i);
    }
  }

  lemma OverwriteFile(key: string)
    ensures ShowsFile(OverwriteMount(key))
  {
    assert OverwritePath(key)[|OVERWRITE_BASE|..] == key && OVERWRITE_BASE[|OVERWRITE_BASE| - 1] == '/';
  }

  /** Every file that the operator mounts, apart from certificates and client data, keeps its name: the SubPath is
      the last part of the path.  Whole directories are the snippets, the logs and what httpd writes. */
  lemma FilesKeepTheirNames(k: Kind, x: Instance, keys: seq<string>, m: Mount)
    requires m in FixedMounts(k) + OverwriteMounts(keys) + CAMounts(x.caBundle) && "" !in keys
    ensures ShowsFile(m) && (m.subPath == "" ==> m.path in DIRECTORIES)
  {
    if m in FixedMounts(k) {
      FixedFiles(k, m);
    } else if m in OverwriteMounts(keys) {
      var i :| 0 <= i < |keys| && m == OverwriteMount(keys[i]);
      OverwriteFile(keys[i]);
    } else {
      FileIn(m, "/etc/pki/" + "ca-trust/extracted/pem");
    }
  }

  predicate Uses(ms: seq<Mount>, volume: string) { exists m <- ms :: m.volume == volume }

  lemma UsesConcat(ms: seq<Mount>, ns: seq<Mount>, volume: string)
    ensures Uses(ms + ns, volume) <==> Uses(ms, volume) || Uses(ns, volume)
  {
    assert forall m <- ms :: m in ms + ns;
    assert forall m <- ns :: m in ms + ns;
  }

  /** The volumes of certificates and client data are called differently from all others. */
  predicate Confidential(volume: string) {
    (exists e: Endpoint :: volume == e.VolumeName()) || (exists store <- EXTERNAL :: volume == VolumeName(store))
  }

  lemma NamesDiffer()
    ensures Internal.VolumeName() != Public.VolumeName()
    ensures forall store <- EXTERNAL, e: Endpoint :: VolumeName(store) != e.VolumeName()
    ensures VolumeName(PKCS11) != VolumeName(KMIP)
  {
    assert |Internal.VolumeName()| == 18 && |Public.VolumeName()| == 16;
    assert Internal.VolumeName()[0] == 'i' && Public.VolumeName()[0] == 'p';
    assert PKCS11_VOLUME[0] == 'p' && KMIP_VOLUME[0] == 'k' && |PKCS11_VOLUME| == 18 && |KMIP_VOLUME| == 16;
    assert PKCS11[0] != KMIP[0];
  }

  predicate Marked(volume: string) { volume != "" && volume[0] in ['i', 'p', 'k'] }

  lemma ConfidentialName(volume: string)
    requires Confidential(volume)
    ensures Marked(volume)
  {
    assert Internal.VolumeName()[0] == 'i' && Public.VolumeName()[0] == 'p';
    assert PKCS11_VOLUME[0] == 'p' && KMIP_VOLUME[0] == 'k';
  }

  lemma FixedNames(i: nat)
    ensures i < |BASE_MOUNTS| ==> !Marked(BASE_MOUNTS[i].volume)
    ensures i < |HTTPD_MOUNTS| ==> !Marked(HTTPD_MOUNTS[i].volume)
  {
    assert !Marked(CONFIG) && !Marked(CUSTOM_CONFIG) && !Marked(LOGS) && !Marked(RUN_HTTPD) && !Marked(VAR_LOG_HTTPD);
  }

  lemma FixedIsOrdinary(k: Kind, volume: string)
    requires Marked(volume)
    ensures !Uses(FixedMounts(k), volume)
  {
    UsesConcat(BASE_MOUNTS, if k.API? then HTTPD_MOUNTS else [], volume);
    forall m | m in BASE_MOUNTS ensures m.volume != volume {
      var i :| 0 <= i < |BASE_MOUNTS| && BASE_MOUNTS[i] == m;
      FixedNames(i);
    }
    forall m | m in HTTPD_MOUNTS ensures m.volume != volume {
      var i :| 0 <= i < |HTTPD_MOUNTS| && HTTPD_MOUNTS[i] == m;
      FixedNames(i);
    }
  }

  lemma OrdinaryMounts(k: Kind, x: Instance, keys: seq<string>, volume: string)
    requires Confidential(volume)
    ensures !Uses(FixedMounts(k) + OverwriteMounts(keys) + CAMounts(x.caBundle), volume)
  {
    ConfidentialName(volume);
    FixedIsOrdinary(k, volume);
    UsesConcat(FixedMounts(k) + OverwriteMounts(keys), CAMounts(x.caBundle), volume);
    UsesConcat(FixedMounts(k), OverwriteMounts(keys), volume);
    assert !Marked(CUSTOM_CONFIG) && !Marked(CA_BUNDLE);
  }

  /** Only the API pod mounts a certificate, that of each enabled endpoint; the pods of API and Worker mount the
      client data of each enabled and configured store, and the KeystoneListener mounts none. */
  lemma WhoMountsWhat(k: Kind, x: Instance, keys: seq<string>)
    ensures forall e: Endpoint :: Uses(OperatorMounts(k, x, keys), e.VolumeName()) <==> k.API? && x.At(e).enabled
    ensures forall store <- EXTERNAL :: Uses(OperatorMounts(k, x, keys), VolumeName(store)) <==>
      !k.Listener? && store in x.spec.enabled && x.spec.DataOf(store).Some?
  {
    var ordinary := FixedMounts(k) + OverwriteMounts(keys) + CAMounts(x.caBundle);
    NamesDiffer();
    forall volume | Confidential(volume)
      ensures Uses(OperatorMounts(k, x, keys), volume) <==>
        Uses(TLSMounts(k, x), volume) || Uses(StoreMounts(k, x.spec), volume)
    {
      OrdinaryMounts(k, x, keys, volume);
      UsesConcat(ordinary + TLSMounts(k, x), StoreMounts(k, x.spec), volume);
      UsesConcat(ordinary, TLSMounts(k, x), volume);
    }
    forall e: Endpoint ensures Uses(OperatorMounts(k, x, keys), e.VolumeName()) <==> k.API? && x.At(e).enabled {
      CertificateUse(k, x, e);
    }
    forall store | store in EXTERNAL
      ensures Uses(OperatorMounts(k, x, keys), VolumeName(store)) <==>
        !k.Listener? && store in x.spec.enabled && x.spec.DataOf(store).Some?
    {
      StoreUse(k, x, store);
    }
  }

  lemma CertificateUse(k: Kind, x: Instance, e: Endpoint)
    ensures Uses(TLSMounts(k, x), e.VolumeName()) <==> k.API? && x.At(e).enabled
    ensures !Uses(StoreMounts(k, x.spec), e.VolumeName())
  {
    NamesDiffer();
    UsesConcat(EndpointMounts(x, Internal), EndpointMounts(x, Public), e.VolumeName());
    if x.At(e).enabled {
      assert EndpointMounts(x, e)[0] in EndpointMounts(x, e);
    }
    if Uses(StoreMounts(k, x.spec), e.VolumeName()) {
      var m :| m in StoreMounts(k, x.spec) && m.volume == e.VolumeName();
      var store := MountIsOfStore(x.spec, m);
      assert false;
    }
  }

  lemma StoreUse(k: Kind, x: Instance, store: string)
    requires store in EXTERNAL
    ensures !Uses(TLSMounts(k, x), VolumeName(store))
    ensures Uses(StoreMounts(k, x.spec), VolumeName(store)) <==>
      !k.Listener? && store in x.spec.enabled && x.spec.DataOf(store).Some?
  {
    NamesDiffer();
    UsesConcat(EndpointMounts(x, Internal), EndpointMounts(x, Public), VolumeName(store));
    if store in x.spec.enabled && x.spec.DataOf(store).Some? {
      StoreMountOf(x.spec, store);
    }
    if !k.Listener? && Uses(StoreMounts(k, x.spec), VolumeName(store)) {
      var m :| m in StoreMounts(k, x.spec) && m.volume == VolumeName(store);
      var other := MountIsOfStore(x.spec, m);
      assert PKCS11[0] != KMIP[0] && other == store;
    }
  }

  // ---------------------------------------------------------------- closure

  predicate Declares(vs: seq<Volume>, name: string) { exists v <- vs :: v.name == name }

  /** Every mount names a declared volume. */
  predicate Closed(vs: seq<Volume>, ms: seq<Mount>) { forall m <- ms :: Declares(vs, m.volume) }

  /** Every entry of the extra mounts declares the volumes it mounts. */
  predicate SelfContained(extra: seq<seq<VolMounts>>) {
    forall vs <- extra, v <- vs :: Closed(v.volumes, v.mounts)
  }

  lemma ClosedConcat(vs: seq<Volume>, ms: seq<Mount>, ws: seq<Volume>, ns: seq<Mount>)
    requires Closed(vs, ms) && Closed(ws, ns)
    ensures Closed(vs + ws, ms + ns)
  {
    forall m | m in ms + ns ensures Declares(vs + ws, m.volume) {
      if m in ms {
        var v :| v in vs && v.name == m.volume;
        assert v in vs + ws;
      } else {
        var v :| v in ws && v.name == m.volume;
        assert v in vs + ws;
      }
    }
  }

  lemma {:induction false} PropagatedMember(vs: seq<VolMounts>, k: Kind, v: VolMounts)
    requires v in Propagate(vs, k)
    ensures v in vs
  {
    if v !in Repeat(vs[|vs| - 1], vs[|vs| - 1].copies.At(k)) {
      PropagatedMember(vs[..|vs| - 1], k, v);
    }
  }

  lemma {:induction false} AllPropagatedMember(extra: seq<seq<VolMounts>>, k: Kind, v: VolMounts)
    requires v in AllPropagated(extra, k)
    ensures exists vs <- extra :: v in vs
  {
    var last := extra[|extra| - 1];
    if v in Propagate(last, k) {
      PropagatedMember(last, k, v);
      assert last in extra;
    } else {
      AllPropagatedMember(extra[..|extra| - 1], k, v);
      var vs :| vs in extra[..|extra| - 1] && v in vs;
      assert vs in extra;
    }
  }

  lemma {:induction false} ExtraClosed(vs: seq<VolMounts>)
    requires forall v <- vs :: Closed(v.volumes, v.mounts)
    ensures Closed(VolumesOf(vs), MountsOf(vs))
  {
    if vs != [] {
      var n := |vs| - 1;
      ExtraClosed(vs[..n]);
      assert Closed(vs[n].volumes, vs[n].mounts);
      ClosedConcat(VolumesOf(vs[..n]), MountsOf(vs[..n]), vs[n].volumes, vs[n].mounts);
    }
  }

  lemma MoreMounts(vs: seq<Volume>, ms: seq<Mount>, ns: seq<Mount>)
    requires Closed(vs, ms) && Closed(vs, ns)
    ensures Closed(vs, ms + ns)
  {
    forall m | m in ms + ns ensures Declares(vs, m.volume) {
      assert m in ms || m in ns;
    }
  }

  lemma FixedClosed(k: Kind, name: string, keys: seq<string>)
    ensures Closed(FixedVolumes(k, name), FixedMounts(k) + OverwriteMounts(keys))
  {
    DeclaredVolumes(k, name);
    BaseVolumes();
    var vs := FixedVolumes(k, name);
    if k.API? {
      HttpdVolumes();
      TwoClosed(vs, BASE_MOUNTS, HTTPD_MOUNTS);
    } else {
      TwoClosed(vs, BASE_MOUNTS, []);
    }
    MoreMounts(vs, FixedMounts(k), OverwriteMounts(keys));
  }

  lemma TwoClosed(vs: seq<Volume>, base: seq<Mount>, httpd: seq<Mount>)
    requires forall m <- base :: m.volume in [CONFIG, CUSTOM_CONFIG, LOGS]
    requires forall m <- httpd :: m.volume in [CONFIG, RUN_HTTPD, VAR_LOG_HTTPD]
    requires Declares(vs, CONFIG) && Declares(vs, CUSTOM_CONFIG) && Declares(vs, LOGS)
    requires httpd != [] ==> Declares(vs, RUN_HTTPD) && Declares(vs, VAR_LOG_HTTPD)
    ensures Closed(vs, base + httpd)
  {
    MoreMounts(vs, base, httpd);
  }

  lemma DeclaredVolumes(k: Kind, name: string)
    ensures var vs := FixedVolumes(k, name);
      && Declares(vs, CONFIG) && Declares(vs, CUSTOM_CONFIG) && Declares(vs, LOGS)
      && (k.API? ==> Declares(vs, RUN_HTTPD) && Declares(vs, VAR_LOG_HTTPD))
  {
    var vs := FixedVolumes(k, name);
    assert vs[0] in vs && vs[1] in vs && vs[2] in vs;
    if k.API? { assert vs[3] in vs && vs[4] in vs; }
  }

  lemma BaseVolumes()
    ensures forall m <- BASE_MOUNTS :: m.volume in [CONFIG, CUSTOM_CONFIG, LOGS]
  {
  }

  lemma HttpdVolumes()
    ensures forall m <- HTTPD_MOUNTS :: m.volume in [CONFIG, RUN_HTTPD, VAR_LOG_HTTPD]
  {
  }

  lemma TLSClosed(k: Kind, x: Instance)
    requires TLSUsable(x)
    ensures Closed(TLSVolumes(k, x), TLSMounts(k, x))
  {
    if k.API? {
      forall e: Endpoint ensures Closed(EndpointVolumes(x, e), EndpointMounts(x, e)) {
        if x.At(e).enabled {
          assert EndpointVolumes(x, e)[0] in EndpointVolumes(x, e);
        }
      }
      ClosedConcat(EndpointVolumes(x, Internal), EndpointMounts(x, Internal), EndpointVolumes(x, Public),
        EndpointMounts(x, Public));
    }
  }

  lemma StoresClosed(k: Kind, s: Spec)
    ensures Closed(StoreVolumes(k, s), StoreMounts(k, s))
  {
    OneOfEach(s);
    forall m | m in StoreMounts(k, s) ensures Declares(StoreVolumes(k, s), m.volume) {
      var i :| 0 <= i < |ClientMounts(s)| && ClientMounts(s)[i] == m;
      assert ClientVolumes(s)[i] in ClientVolumes(s);
    }
  }

  /** Pod assembly is closed: for every instance, every list of overwrite keys and every service, each
      mount of the pod names a volume that the pod declares, if each entry of the extra mounts does. */
  lemma AssemblyIsClosed(k: Kind, x: Instance, keys: seq<string>)
    requires (k.API? ==> TLSUsable(x)) && SelfContained(x.extra)
    ensures Closed(Assembled(k, x, keys).volumes, Assembled(k, x, keys).mounts)
  {
    FixedClosed(k, x.name, keys);
    if x.caBundle != "" { assert CAVolumes(x.caBundle)[0] in CAVolumes(x.caBundle); }
    if k.API? { TLSClosed(k, x); }
    StoresClosed(k, x.spec);
    forall v | v in AllPropagated(x.extra, k) ensures Closed(v.volumes, v.mounts) {
      AllPropagatedMember(x.extra, k, v);
    }
    ExtraClosed(AllPropagated(x.extra, k));
    var vs, ms := FixedVolumes(k, x.name), FixedMounts(k) + OverwriteMounts(keys);
    ClosedConcat(vs, ms, CAVolumes(x.caBundle), CAMounts(x.caBundle));
    vs, ms := vs + CAVolumes(x.caBundle), ms + CAMounts(x.caBundle);
    ClosedConcat(vs, ms, TLSVolumes(k, x), TLSMounts(k, x));
    vs, ms := vs + TLSVolumes(k, x), ms + TLSMounts(k, x);
    ClosedConcat(vs, ms, StoreVolumes(k, x.spec), StoreMounts(k, x.spec));
    vs, ms := vs + StoreVolumes(k, x.spec), ms + StoreMounts(k, x.spec);
    ClosedConcat(vs, ms, VolumesOf(AllPropagated(x.extra, k)), MountsOf(AllPropagated(x.extra, k)));
  }

  // ---------------------------------------------------------------- clashes

  predicate Apart(ms: seq<Mount>, ns: seq<Mount>) { forall m <- ms, n <- ns :: m.path != n.path }

  lemma DistinctConcat(ms: seq<Mount>, ns: seq<Mount>)
    ensures DistinctPaths(ms + ns) <==> DistinctPaths(ms) && DistinctPaths(ns) && Apart(ms, ns)
  {
    var all := ms + ns;
    assert forall i :: 0 <= i < |ms| ==> all[i] == ms[i];
    assert forall j :: 0 <= j < |ns| ==> all[|ms| + j] == ns[j];
    if DistinctPaths(all) {
      forall m, n | m in ms && n in ns ensures m.path != n.path {
        var i :| 0 <= i < |ms| && ms[i] == m;
        var j :| 0 <= j < |ns| && ns[j] == n;
        assert all[i].path != all[|ms| + j].path;
      }
      forall i, j | 0 <= i < j < |ns| ensures ns[i].path != ns[j].path {
        assert all[|ms| + i].path != all[|ms| + j].path;
      }
    }
  }

  lemma ApartConcat(ms: seq<Mount>, ms': seq<Mount>, ns: seq<Mount>)
    ensures Apart(ms + ms', ns) <==> Apart(ms, ns) && Apart(ms', ns)
  {
    assert forall m <- ms :: m in ms + ms';
    assert forall m <- ms' :: m in ms + ms';
  }

  /** A path like /etc/x..., where x is the letter `c`. */
  predicate Below(m: Mount, c: char) { |m.path| > 5 && m.path[1] == 'e' && m.path[5] == c }

  lemma BasePaths()
    ensures DistinctPaths(BASE_MOUNTS)
    ensures forall m <- BASE_MOUNTS :: |m.path| in [11, 29, 17] && !Below(m, 'p')
    ensures forall m <- BASE_MOUNTS :: Below(m, 'b') ==> m.path == OVERWRITE_BASE + SNIPPET_DIR
    ensures exists m <- BASE_MOUNTS :: m.path == OVERWRITE_BASE + SNIPPET_DIR
  {
    var ms := BASE_MOUNTS;
    assert ms[0].path[5] == 'm' && ms[2].path[1] == 'v';
    assert ms[1].path == OVERWRITE_BASE + SNIPPET_DIR && ms[1] in ms;
  }

  /** What tells the paths of the httpd mounts apart from each other and from all others. */
  predicate HttpdPath(i: nat, m: Mount) {
    && |m.path| == (if i == 0 then 26 else if i == 1 then 35 else if i == 2 then 26 else if i == 3 then 44
                    else if i == 4 then 30 else if i == 5 then 10 else 14)
    && (i == 0 ==> m.path[15] == '/') && (i == 2 ==> m.path[15] == '.')
    && (if i < 4 then m.path[5] == 'h' else m.path[1] != 'e')
  }

  lemma HttpdPaths()
    ensures forall i :: 0 <= i < |HTTPD_MOUNTS| ==> HttpdPath(i, HTTPD_MOUNTS[i])
  {
  }

  lemma HttpdDistinct()
    ensures DistinctPaths(HTTPD_MOUNTS)
    ensures forall m <- HTTPD_MOUNTS :: |m.path| in [26, 35, 44, 30, 10, 14] && !Below(m, 'p') && !Below(m, 'b')
  {
    HttpdPaths();
    forall i, j | 0 <= i < j < |HTTPD_MOUNTS| ensures HTTPD_MOUNTS[i].path != HTTPD_MOUNTS[j].path {
      assert HttpdPath(i, HTTPD_MOUNTS[i]) && HttpdPath(j, HTTPD_MOUNTS[j]);
    }
    forall m | m in HTTPD_MOUNTS ensures |m.path| in [26, 35, 44, 30, 10, 14] && !Below(m, 'p') && !Below(m, 'b') {
      var i :| 0 <= i < |HTTPD_MOUNTS| && HTTPD_MOUNTS[i] == m;
      assert HttpdPath(i, m);
    }
  }

  lemma FixedPaths(k: Kind)
    ensures DistinctPaths(FixedMounts(k))
    ensures forall m <- FixedMounts(k) :: !Below(m, 'p') && (Below(m, 'b') ==> m.path == OVERWRITE_BASE + SNIPPET_DIR)
    ensures forall m <- FixedMounts(k) :: |m.path| !in [15, 16]
    ensures exists m <- FixedMounts(k) :: m.path == OVERWRITE_BASE + SNIPPET_DIR
  {
    BasePaths();
    if k.API? {
      HttpdDistinct();
      TwoParts(BASE_MOUNTS, HTTPD_MOUNTS, OVERWRITE_BASE + SNIPPET_DIR);
    } else {
      assert FixedMounts(k) == BASE_MOUNTS;
    }
  }

  lemma TwoParts(base: seq<Mount>, httpd: seq<Mount>, path: string)
    requires DistinctPaths(base) && DistinctPaths(httpd)
    requires forall m <- base :: |m.path| in [11, 29, 17] && !Below(m, 'p') && (Below(m, 'b') ==> m.path == path)
    requires forall m <- httpd :: |m.path| in [26, 35, 44, 30, 10, 14] && !Below(m, 'p') && !Below(m, 'b')
    requires exists m <- base :: m.path == path
    ensures DistinctPaths(base + httpd)
    ensures forall m <- base + httpd :: !Below(m, 'p') && (Below(m, 'b') ==> m.path == path)
    ensures forall m <- base + httpd :: |m.path| !in [15, 16]
    ensures exists m <- base + httpd :: m.path == path
  {
    DistinctConcat(base, httpd);
    var m :| m in base && m.path == path;
    assert m in base + httpd;
  }

  lemma EndpointPaths(e: Endpoint)
    ensures |e.CertPath()| == (if e.Internal? then 31 else 29) && |e.KeyPath()| == (if e.Internal? then 33 else 31)
    ensures e.CertPath()[1] == 'e' == e.KeyPath()[1] && e.CertPath()[5] == 'p' == e.KeyPath()[5]
    ensures e.CertPath()[13] == 'c' && e.KeyPath()[13] == 'p'
  {
  }

  lemma CertificatePaths(k: Kind, x: Instance)
    ensures DistinctPaths(CAMounts(x.caBundle) + TLSMounts(k, x))
    ensures forall m <- CAMounts(x.caBundle) + TLSMounts(k, x) :: Below(m, 'p')
  {
    EndpointPaths(Internal);
    EndpointPaths(Public);
    assert CA_PATH[..9] == "/etc/pki/";
    assert |CA_PATH| == 49 && CA_PATH[1] == 'e' && CA_PATH[5] == 'p';
  }

  /** The mounts that do not come from the secret stores or from the extra mounts. */
  function PlainMounts(k: Kind, x: Instance, keys: seq<string>): seq<Mount> {
    FixedMounts(k) + OverwriteMounts(keys) + (CAMounts(x.caBundle) + TLSMounts(k, x))
  }

  lemma OverwritePaths(keys: seq<string>)
    requires Distinct(keys)
    ensures DistinctPaths(OverwriteMounts(keys))
    ensures forall m <- OverwriteMounts(keys) ::
      Below(m, 'b') && m.path == OVERWRITE_BASE + m.subPath && m.subPath in keys
    ensures (exists m <- OverwriteMounts(keys) :: m.path == OVERWRITE_BASE + SNIPPET_DIR) <==> SNIPPET_DIR in keys
  {
    var ms, n := OverwriteMounts(keys), |OVERWRITE_BASE|;
    forall i | 0 <= i < |keys| ensures ms[i].path[n..] == keys[i] && ms[i].path[5] == 'b' && ms[i].path[1] == 'e' {
      assert ms[i].path == OVERWRITE_BASE + keys[i];
    }
    assert (OVERWRITE_BASE + SNIPPET_DIR)[n..] == SNIPPET_DIR;
    if SNIPPET_DIR in keys {
      var i :| 0 <= i < |keys| && keys[i] == SNIPPET_DIR;
      assert ms[i] in ms && ms[i].path == OVERWRITE_BASE + SNIPPET_DIR;
    }
  }

  /** The overwrite files clash with the operator's other mounts exactly if one of them is called like the
      directory of the snippets. */
  lemma OverwriteClash(k: Kind, x: Instance, keys: seq<string>)
    requires Distinct(keys)
    ensures DistinctPaths(PlainMounts(k, x, keys)) <==> SNIPPET_DIR !in keys
  {
    FixedPaths(k);
    OverwritePaths(keys);
    CertificatePaths(k, x);
    var fixed, over, certs := FixedMounts(k), OverwriteMounts(keys), CAMounts(x.caBundle) + TLSMounts(k, x);
    DistinctConcat(fixed, over);
    DistinctConcat(fixed + over, certs);
    ApartConcat(fixed, over, certs);
    assert Apart(fixed, certs) && Apart(over, certs);
    if SNIPPET_DIR in keys {
      var m :| m in fixed && m.path == OVERWRITE_BASE + SNIPPET_DIR;
      var n :| n in over && n.path == OVERWRITE_BASE + SNIPPET_DIR;
      assert !Apart(fixed, over);
    } else {
      forall m, n | m in fixed && n in over ensures m.path != n.path {
        assert Below(n, 'b') && n.path == OVERWRITE_BASE + n.subPath && n.subPath in keys;
        assert (OVERWRITE_BASE + n.subPath)[|OVERWRITE_BASE|..] == n.subPath;
        assert (OVERWRITE_BASE + SNIPPET_DIR)[|OVERWRITE_BASE|..] == SNIPPET_DIR;
      }
    }
  }

  lemma PartsOf(k: Kind, x: Instance, keys: seq<string>)
    ensures OperatorMounts(k, x, keys) == PlainMounts(k, x, keys) + StoreMounts(k, x.spec)
  {
    Regroup(FixedMounts(k) + OverwriteMounts(keys), CAMounts(x.caBundle), TLSMounts(k, x));
  }

  const BASE_PATHS: seq<string> := ["/etc/my.cnf", "/etc/barbican/barbican.conf.d", "/var/log/barbican"]
  const HTTPD_PATHS: seq<string> := [
    "/etc/httpd/conf/httpd.conf", "/etc/httpd/conf.modules.d/mime.conf", "/etc/httpd/conf.d/ssl.conf",
    "/etc/httpd/conf.d/10-barbican_wsgi_main.conf", "/var/www/cgi-bin/barbican/main", "/run/httpd", "/var/log/httpd"]

  /** The path of a store's client data is none of the fixed paths of the pod, none of the certificates that
      the pod mounts, and not the file of an overwrite key. */
  predicate PathFree(k: Kind, x: Instance, keys: seq<string>, path: string) {
    && path !in BASE_PATHS && (k.API? ==> path !in HTTPD_PATHS)
    && (x.caBundle != "" ==> path != CA_PATH)
    && (k.API? ==> forall e: Endpoint :: x.At(e).enabled ==> path != e.CertPath() && path != e.KeyPath())
    && (forall key <- keys :: path != OVERWRITE_BASE + key)
  }

  /** Every enabled and configured store has a free path; the KeystoneListener mounts none of them. */
  predicate StorePathsFree(k: Kind, x: Instance, keys: seq<string>) {
    k.Listener? || forall store <- EXTERNAL :: store in x.spec.enabled && x.spec.DataOf(store).Some? ==>
      PathFree(k, x, keys, x.spec.DataOf(store).value.PathOrDefault(DefaultPath(store)))
  }

  predicate AwayFrom(ms: seq<Mount>, path: string) { forall m <- ms :: m.path != path }

  lemma AwayConcat(ms: seq<Mount>, ns: seq<Mount>, path: string)
    ensures AwayFrom(ms + ns, path) <==> AwayFrom(ms, path) && AwayFrom(ns, path)
  {
    assert forall m <- ms :: m in ms + ns;
    assert forall m <- ns :: m in ms + ns;
  }

  predicate SamePaths(ms: seq<Mount>, paths: seq<string>) {
    |ms| == |paths| && forall i :: 0 <= i < |ms| ==> ms[i].path == paths[i]
  }

  lemma AwayFromList(ms: seq<Mount>, paths: seq<string>, path: string)
    requires SamePaths(ms, paths)
    ensures AwayFrom(ms, path) <==> path !in paths
  {
    if path in paths {
      var i :| 0 <= i < |paths| && paths[i] == path;
      assert ms[i] in ms;
    }
  }

  lemma ListedPaths()
    ensures SamePaths(BASE_MOUNTS, BASE_PATHS) && SamePaths(HTTPD_MOUNTS, HTTPD_PATHS)
  {
  }

  lemma AwayFromOverwrites(keys: seq<string>, path: string)
    ensures AwayFrom(OverwriteMounts(keys), path) <==> forall key <- keys :: path != OVERWRITE_BASE + key
  {
    var ms := OverwriteMounts(keys);
    if AwayFrom(ms, path) {
      forall key | key in keys ensures path != OVERWRITE_BASE + key {
        var i :| 0 <= i < |keys| && keys[i] == key;
        assert ms[i] in ms;
      }
    }
  }

  lemma AwayFromEndpoint(x: Instance, e: Endpoint, path: string)
    ensures AwayFrom(EndpointMounts(x, e), path) <==> (x.At(e).enabled ==> path != e.CertPath() && path != e.KeyPath())
  {
    if x.At(e).enabled {
      assert EndpointMounts(x, e)[0] in EndpointMounts(x, e) && EndpointMounts(x, e)[1] in EndpointMounts(x, e);
    }
  }

  lemma AwayFromCA(caBundle: string, path: string)
    ensures AwayFrom(CAMounts(caBundle), path) <==> (caBundle != "" ==> path != CA_PATH)
  {
    if caBundle != "" {
      assert CAMounts(caBundle)[0] in CAMounts(caBundle);
    }
  }

  lemma AwayFromTLS(k: Kind, x: Instance, path: string)
    ensures AwayFrom(TLSMounts(k, x), path) <==>
      (k.API? ==> forall e: Endpoint :: x.At(e).enabled ==> path != e.CertPath() && path != e.KeyPath())
  {
    if k.API? {
      AwayConcat(EndpointMounts(x, Internal), EndpointMounts(x, Public), path);
      AwayFromEndpoint(x, Internal, path);
      AwayFromEndpoint(x, Public, path);
    }
  }

  lemma AwayFromFixed(k: Kind, path: string)
    ensures AwayFrom(FixedMounts(k), path) <==> path !in BASE_PATHS && (k.API? ==> path !in HTTPD_PATHS)
  {
    ListedPaths();
    AwayFromList(BASE_MOUNTS, BASE_PATHS, path);
    AwayFromList(HTTPD_MOUNTS, HTTPD_PATHS, path);
    AwayConcat(BASE_MOUNTS, if k.API? then HTTPD_MOUNTS else [], path);
  }

  lemma FreeIsAway(k: Kind, x: Instance, keys: seq<string>, path: string)
    ensures AwayFrom(PlainMounts(k, x, keys), path) <==> PathFree(k, x, keys, path)
  {
    var fixed, over := FixedMounts(k), OverwriteMounts(keys);
    AwayConcat(fixed + over, CAMounts(x.caBundle) + TLSMounts(k, x), path);
    AwayConcat(fixed, over, path);
    AwayConcat(CAMounts(x.caBundle), TLSMounts(k, x), path);
    AwayFromFixed(k, path);
    AwayFromOverwrites(keys, path);
    AwayFromCA(x.caBundle, path);
    AwayFromTLS(k, x, path);
  }

  /** The mounts of the stores, one by one. */
  lemma StoreMountOf(s: Spec, store: string)
    requires store in EXTERNAL && store in s.enabled && s.DataOf(store).Some?
    ensures StoreMount(s, store) in ClientMounts(s)
  {
    assert PKCS11[0] != KMIP[0];
    assert store in Mounted(s);
    var i :| 0 <= i < |Mounted(s)| && Mounted(s)[i] == store;
    assert ClientMounts(s)[i] == StoreMount(s, store);
  }

  lemma MountIsOfStore(s: Spec, m: Mount) returns (store: string)
    requires m in ClientMounts(s)
    ensures store in EXTERNAL && store in s.enabled && s.DataOf(store).Some? && m == StoreMount(s, store)
  {
    assert PKCS11[0] != KMIP[0];
    var i :| 0 <= i < |ClientMounts(s)| && ClientMounts(s)[i] == m;
    store := Mounted(s)[i];
  }

  lemma StoresFreeIsApart(k: Kind, x: Instance, keys: seq<string>)
    ensures Apart(PlainMounts(k, x, keys), StoreMounts(k, x.spec)) <==> StorePathsFree(k, x, keys)
  {
    var plain, stores := PlainMounts(k, x, keys), StoreMounts(k, x.spec);
    if !k.Listener? && Apart(plain, stores) {
      forall store | store in EXTERNAL && store in x.spec.enabled && x.spec.DataOf(store).Some?
        ensures PathFree(k, x, keys, x.spec.DataOf(store).value.PathOrDefault(DefaultPath(store)))
      {
        StoreMountOf(x.spec, store);
        FreeIsAway(k, x, keys, StoreMount(x.spec, store).path);
      }
    }
    if !k.Listener? && StorePathsFree(k, x, keys) {
      forall m, n | m in plain && n in stores ensures m.path != n.path {
        var store := MountIsOfStore(x.spec, n);
        FreeIsAway(k, x, keys, n.path);
      }
    }
  }

  /** With an admitted spec, two operator mounts of a pod share a path exactly if there is that key, or if the
      client data path of an enabled and configured store is not free; admission does not look at the latter. */
  lemma OperatorClash(k: Kind, x: Instance, keys: seq<string>)
    requires Distinct(keys) && Admissible(x.spec)
    ensures DistinctPaths(OperatorMounts(k, x, keys)) <==> SNIPPET_DIR !in keys && StorePathsFree(k, x, keys)
  {
    AdmissionIsMountability(x.spec);
    OverwriteClash(k, x, keys);
    PartsOf(k, x, keys);
    DistinctConcat(PlainMounts(k, x, keys), StoreMounts(k, x.spec));
    StoresFreeIsApart(k, x, keys);
  }

  lemma DefaultPaths(s: Spec)
    requires s.pkcs11.Some? ==> s.pkcs11.value.PathOrDefault(PKCS11_PATH) == PKCS11_PATH
    requires s.kmip.Some? ==> s.kmip.value.PathOrDefault(KMIP_PATH) == KMIP_PATH
    ensures forall m <- ClientMounts(s) :: |m.path| in [15, 16] && !Below(m, 'b') && !Below(m, 'p')
  {
    assert PKCS11[0] != KMIP[0] && PKCS11_PATH[5] == 'h' && KMIP_PATH[5] == 'k';
  }

  /** With the default client data paths the key is the only reason for a clash. */
  lemma DefaultPathsClash(k: Kind, x: Instance, keys: seq<string>)
    requires Distinct(keys) && Admissible(x.spec)
    requires x.spec.pkcs11.Some? ==> x.spec.pkcs11.value.PathOrDefault(PKCS11_PATH) == PKCS11_PATH
    requires x.spec.kmip.Some? ==> x.spec.kmip.value.PathOrDefault(KMIP_PATH) == KMIP_PATH
    ensures DistinctPaths(OperatorMounts(k, x, keys)) <==> SNIPPET_DIR !in keys
  {
    OperatorClash(k, x, keys);
    FixedPaths(k);
    OverwritePaths(keys);
    CertificatePaths(k, x);
    DefaultPaths(x.spec);
    var fixed, over, certs := FixedMounts(k), OverwriteMounts(keys), CAMounts(x.caBundle) + TLSMounts(k, x);
    ApartConcat(fixed, over, StoreMounts(k, x.spec));
    ApartConcat(fixed + over, certs, StoreMounts(k, x.spec));
    assert forall m <- StoreMounts(k, x.spec) :: m in ClientMounts(x.spec);
    StoresFreeIsApart(k, x, keys);
  }

  /** For instance: an admitted spec whose client data hides the snippet directory. */
  lemma AdmittedClash(x: Instance, secret: string)
    requires secret != "" && x.spec.enabled == [PKCS11]
    requires x.spec.pkcs11 == Some(ClientData(secret, OVERWRITE_BASE + SNIPPET_DIR))
    ensures Admissible(x.spec) && !DistinctPaths(OperatorMounts(API, x, []))
  {
    OnlyPKCS11(x.spec, secret, OVERWRITE_BASE + SNIPPET_DIR);
    FixedPaths(API);
    OperatorClash(API, x, []);
    var m :| m in FixedMounts(API) && m.path == OVERWRITE_BASE + SNIPPET_DIR;
    assert m in PlainMounts(API, x, []);
    StoresFreeIsApart(API, x, []);
  }

  lemma OnlyPKCS11(s: Spec, secret: string, path: string)
    requires secret != "" && path != "" && s.enabled == [PKCS11] && s.pkcs11 == Some(ClientData(secret, path))
    ensures Admissible(s) && exists m <- StoreMounts(API, s) :: m.path == path
  {
    assert PKCS11[0] != KMIP[0];
    assert StoreMounts(API, s)[0] in StoreMounts(API, s);
  }
}
