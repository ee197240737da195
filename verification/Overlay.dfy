/** The config Secret of a child: how the three child controllers layer the snippets of the parent, the
    overwrites of parent and child, and the custom secrets. */
module Overlay {
  import opened Cluster
  import opened SortedKeys

  type Data = map<string, string>

  const DEFAULTS := "00-default.conf"
  const CUSTOM := "01-custom.conf"
  const SERVICE := "02-service-custom.conf"
  const SECRETS := "03-secrets-custom.conf"
  const ACID := "ACID"
  const ACSECRET := "ACSecret"

  /** What a child reads: its spec, and the objects it fetches; None and a missing key of `secrets` stand
      for a fetch that fails. */
  datatype Inputs = Inputs(custom: string, owner: string, ownerData: Option<Data>, ownerOverwrite: Option<Data>,
                           overwrite: Data, secretNames: seq<string>, secrets: map<string, Data>)

  function Lookup(d: Data, key: string): Option<string> {
    if key in d then Some(d[key]) else None
  }

  function OrEmpty(x: Option<string>): string {
    if x.Some? then x.value else ""
  }

  /** Every object that the child needs can be fetched. */
  predicate Fetchable(i: Inputs) {
    && (i.owner != "" ==> i.ownerData.Some? && i.ownerOverwrite.Some?)
    && forall n <- i.secretNames :: n in i.secrets
  }

  // ---------------------------------------------------------------- the rule

  /** The snippets of one Secret, in the order of their keys. */
  function Snippets(d: Data, keys: seq<string>): string
    requires forall k <- keys :: k in d
  {
    if keys == [] then "" else Snippets(d, keys[..|keys| - 1]) + d[keys[|keys| - 1]] + "\n"
  }

  /** The snippets of all listed Secrets, Secret by Secret. */
  ghost function SecretsText(names: seq<string>, secrets: map<string, Data>): string
    requires forall n <- names :: n in secrets
  {
    if names == [] then ""
    else
      var d := secrets[names[|names| - 1]];
      SecretsText(names[..|names| - 1], secrets) + Snippets(d, Listing(d.Keys))
  }

  /** One list after the other. */
  lemma {:induction false} SecretsInOrder(ns: seq<string>, ms: seq<string>, secrets: map<string, Data>)
    requires forall n <- ns + ms :: n in secrets
    ensures (forall n <- ns :: n in secrets) && (forall n <- ms :: n in secrets)
    ensures SecretsText(ns + ms, secrets) == SecretsText(ns, secrets) + SecretsText(ms, secrets)
  {
    assert forall n <- ns :: n in ns + ms;
    assert forall n <- ms :: n in ns + ms;
    if ms == [] {
      assert ns + ms == ns;
    } else {
      var j := |ms| - 1;
      assert (ns + ms)[..|ns + ms| - 1] == ns + ms[..j] && (ns + ms)[|ns + ms| - 1] == ms[j];
      SecretsInOrder(ns, ms[..j], secrets);
      var last := Snippets(secrets[ms[j]], Listing(secrets[ms[j]].Keys));
      Reassociate(SecretsText(ns, secrets), SecretsText(ms[..j], secrets), last);
    }
  }

  lemma Reassociate(a: string, b: string, c: string)
    ensures (a + b) + c == a + (b + c)
  {
  }

  /** A Secret with one key adds the value and the end of a line. */
  lemma SecretOfOneKey(n: string, key: string, value: string, secrets: map<string, Data>)
    requires n in secrets && secrets[n] == map[key := value]
    ensures SecretsText([n], secrets) == value + "\n"
  {
    OneSecret(n, secrets);
    assert secrets[n].Keys == {key};
    ListingOfOne(key);
    assert [key][..0] == [];
  }

  lemma OneSecret(n: string, secrets: map<string, Data>)
    requires n in secrets
    ensures SecretsText([n], secrets) == Snippets(secrets[n], Listing(secrets[n].Keys))
  {
    assert [n][..0] == [];
  }

  /** Within one Secret the smaller keys come first: it reads like two Secrets, the first with the smaller keys. */
  lemma SmallerKeysFirst(n: string, low: Data, high: Data, secrets: map<string, Data>, l: string, h: string)
    requires n in secrets && secrets[n] == low + high && forall k <- low, m <- high :: Less(k, m)
    requires l in secrets && secrets[l] == low && h in secrets && secrets[h] == high
    ensures SecretsText([n], secrets) == SecretsText([l], secrets) + SecretsText([h], secrets)
  {
    OneSecret(n, secrets);
    OneSecret(l, secrets);
    OneSecret(h, secrets);
    var d, ks, ms := low + high, Listing(low.Keys), Listing(high.Keys);
    forall k | k in low ensures k !in high {
      LessIsStrict(k);
    }
    assert d.Keys == low.Keys + high.Keys;
    ListingOfTwoParts(low.Keys, high.Keys);
    SnippetsInOrder(d, ks, ms);
    SnippetsAgree(d, low, ks);
    SnippetsAgree(d, high, ms);
  }

  lemma {:induction false} SnippetsInOrder(d: Data, ks: seq<string>, ms: seq<string>)
    requires forall k <- ks + ms :: k in d
    ensures (forall k <- ks :: k in d) && (forall k <- ms :: k in d)
    ensures Snippets(d, ks + ms) == Snippets(d, ks) + Snippets(d, ms)
  {
    assert forall k <- ks :: k in ks + ms;
    assert forall k <- ms :: k in ks + ms;
    if ms == [] {
      assert ks + ms == ks;
    } else {
      var j := |ms| - 1;
      assert (ks + ms)[..|ks + ms| - 1] == ks + ms[..j] && (ks + ms)[|ks + ms| - 1] == ms[j];
      SnippetsInOrder(d, ks, ms[..j]);
      Regroup(Snippets(d, ks), Snippets(d, ms[..j]), d[ms[j]], "\n");
    }
  }

  lemma {:induction false} SnippetsAgree(d: Data, e: Data, keys: seq<string>)
    requires forall k <- keys :: k in d && k in e && d[k] == e[k]
    ensures Snippets(d, keys) == Snippets(e, keys)
  {
    if keys != [] {
      SnippetsAgree(d, e, keys[..|keys| - 1]);
    }
  }

  /** The parent hands its application credential on. */
  predicate HasCredential(i: Inputs) {
    i.owner != "" && i.ownerData.Some? && OrEmpty(Lookup(i.ownerData.value, ACID)) != ""
    && OrEmpty(Lookup(i.ownerData.value, ACSECRET)) != ""
  }

  /** What the child starts from. */
  function Base(i: Inputs, key: string): Option<string>
    requires i.owner != "" ==> i.ownerData.Some?
  {
    if key == SERVICE then Some(i.custom)
    else if i.owner != "" && key in [DEFAULTS, CUSTOM] then Some(OrEmpty(Lookup(i.ownerData.value, key)))
    else if HasCredential(i) && key in [ACID, ACSECRET] then Lookup(i.ownerData.value, key)
    else None
  }

  /** The value of a key: the custom secrets, else the child's overwrite, else the parent's, else the base. */
  ghost function Rule(i: Inputs, key: string): Option<string>
    requires Fetchable(i)
  {
    if key == SECRETS then Some(SecretsText(i.secretNames, i.secrets))
    else if key in i.overwrite then Some(i.overwrite[key])
    else if i.owner != "" && key in i.ownerOverwrite.value then Some(i.ownerOverwrite.value[key])
    else Base(i, key)
  }

  // ---------------------------------------------------------------- the code

  /** maps.Copy: the entries arrive in any order. */
  method CopyInto(dst: Data, src: Data) returns (r: Data)
    ensures forall k :: Lookup(r, k) == if k in src then Some(src[k]) else Lookup(dst, k)
  {
    r := dst;
    var rest := src.Keys;
    while rest != {}
      invariant rest <= src.Keys
      invariant forall k :: Lookup(r, k) == if k in src.Keys - rest then Some(src[k]) else Lookup(dst, k)
      decreases rest
    {
      var k :| k in rest;
      r, rest := r[k := src[k]], rest - {k};
    }
  }

  lemma NextSnippet(text: string, d: Data, keys: seq<string>, j: nat)
    requires j < |keys| && forall k <- keys :: k in d
    ensures text + Snippets(d, keys[..j + 1]) == text + Snippets(d, keys[..j]) + d[keys[j]] + "\n"
  {
    assert keys[..j + 1][..j] == keys[..j];
    Regroup(text, Snippets(d, keys[..j]), d[keys[j]], "\n");
  }

  lemma Regroup(a: string, b: string, c: string, d: string)
    ensures a + (b + c + d) == a + b + c + d
  {
  }

  /** The inner loop over the keys of one Secret. */
  method AppendSnippets(text: string, d: Data) returns (all: string)
    ensures all == text + Snippets(d, Listing(d.Keys))
  {
    var keys := KeysInOrder(d.Keys);
    all := text;
    for j := 0 to |keys|
      invariant forall k <- keys :: k in d
      invariant all == text + Snippets(d, keys[..j])
    {
      NextSnippet(text, d, keys, j);
      all := all + d[keys[j]] + "\n";
    }
    assert keys[..|keys|] == keys;
  }

  /** The text of the custom secrets, or None if one of them cannot be fetched. */
  method ConcatSecrets(names: seq<string>, secrets: map<string, Data>) returns (text: Option<string>)
    ensures text.Some? <==> forall n <- names :: n in secrets
    ensures text.Some? ==> text.value == SecretsText(names, secrets)
  {
    var all := "";
    for i := 0 to |names|
      invariant forall n <- names[..i] :: n in secrets
      invariant all == SecretsText(names[..i], secrets)
    {
      if names[i] !in secrets { return None; }
      assert names[..i + 1] == names[..i] + [names[i]];
      all := AppendSnippets(all, secrets[names[i]]);
    }
    assert names[..|names|] == names;
    return Some(all);
  }

  /** The base of the custom data, before anything is overwritten. */
  method FetchBase(i: Inputs) returns (r: Option<Data>)
    ensures r.Some? <==> (i.owner != "" ==> i.ownerData.Some?)
    ensures r.Some? ==> forall k :: Lookup(r.value, k) == Base(i, k)
  {
    var customData := map[SERVICE := i.custom];
    if i.owner != "" {
      if i.ownerData.None? { return None; }
      var d := i.ownerData.value;
      customData := customData[DEFAULTS := OrEmpty(Lookup(d, DEFAULTS))][CUSTOM := OrEmpty(Lookup(d, CUSTOM))];
      if ACID in d && |d[ACID]| > 0 {
        if ACSECRET in d && |d[ACSECRET]| > 0 {
          customData := customData[ACID := d[ACID]][ACSECRET := d[ACSECRET]];
        }
      }
    }
    return Some(customData);
  }

  /** generateServiceConfigs: the custom data of the child's Secret and the parent's overwrites, or None
      for an error.  It fails exactly if something cannot be fetched, and otherwise every key has the
      value that the rule gives it, whatever the order in which the maps yield their entries. */
  method GenerateServiceConfigs(i: Inputs) returns (r: Option<Data>, parentOverwrite: Data)
    ensures r.Some? <==> Fetchable(i)
    ensures r.Some? ==> forall k :: Lookup(r.value, k) == Rule(i, k)
    ensures r.Some? ==> parentOverwrite == if i.owner != "" then i.ownerOverwrite.value else map[]
  {
    parentOverwrite := map[];
    var base := FetchBase(i);
    if base.None? { return None, map[]; }
    var customData := base.value;
    if i.owner != "" {
      if i.ownerOverwrite.None? { return None, map[]; }
      parentOverwrite := i.ownerOverwrite.value;
      customData := CopyInto(customData, parentOverwrite);
    }
    customData := CopyInto(customData, i.overwrite);
    var customSecrets := ConcatSecrets(i.secretNames, i.secrets);
    if customSecrets.None? { return None, map[]; }
    r := Some(customData[SECRETS := customSecrets.value]);
  }

  /** The application credential that the templates see, if any. */
  function Credential(customData: Data): Option<(string, string)> {
    var id, secret := OrEmpty(Lookup(customData, ACID)), OrEmpty(Lookup(customData, ACSECRET));
    if id != "" && secret != "" then Some((id, secret)) else None
  }

  /** Without overwrites of these two keys, the templates see a credential exactly if the parent has a
      complete one, and then they see the parent's. */
  lemma CredentialComesFromParent(i: Inputs, customData: Data)
    requires Fetchable(i) && forall k :: Lookup(customData, k) == Rule(i, k)
    requires forall k <- [ACID, ACSECRET] :: k !in i.overwrite && (i.owner != "" ==> k !in i.ownerOverwrite.value)
    ensures Credential(customData) ==
      if HasCredential(i) then Some((i.ownerData.value[ACID], i.ownerData.value[ACSECRET])) else None
  {
    assert Lookup(customData, ACID) == Rule(i, ACID) == Base(i, ACID);
    assert Lookup(customData, ACSECRET) == Rule(i, ACSECRET) == Base(i, ACSECRET);
  }

  /** The keys of the child's Secret: its own two, those of the parent's Secret that it takes over, and every
      overwrite. */
  lemma KeysOfSecret(i: Inputs, customData: Data, key: string)
    requires Fetchable(i) && forall k :: Lookup(customData, k) == Rule(i, k)
    ensures key in customData <==>
      || key in [SERVICE, SECRETS] || key in i.overwrite
      || (i.owner != "" && (key in [DEFAULTS, CUSTOM] || key in i.ownerOverwrite.value))
      || (HasCredential(i) && key in [ACID, ACSECRET])
  {
    assert Lookup(customData, key) == Rule(i, key);
  }

  /** The service reads its files in the order of their names. */
  const FILES: seq<string> := [DEFAULTS, CUSTOM, SERVICE, SECRETS]

  lemma FileNumber(j: nat)
    requires j < |FILES|
    ensures |FILES[j]| > 1 && FILES[j][0] == '0'
    ensures FILES[j][1] == if j == 0 then '0' else if j == 1 then '1' else if j == 2 then '2' else '3'
  {
  }

  lemma FilesInOrder(s: set<string>)
    requires forall k :: k in FILES <==> k in s
    ensures Listing(s) == FILES
  {
    forall a, b | 0 <= a < b < |FILES| ensures Less(FILES[a], FILES[b]) {
      FileNumber(a);
      FileNumber(b);
      assert FILES[a][..1] == FILES[b][..1];
      assert Precedes(FILES[a], FILES[b], 1);
      LessIsLexicographic(FILES[a], FILES[b]);
    }
    ListIsUnique(Listing(s), FILES, s);
  }

  /** Without overwrites of these keys they are the parent's two snippets and then the child's own; the custom
      secrets come last in any case. */
  lemma SnippetsOverride(i: Inputs, customData: Data)
    requires Fetchable(i) && i.owner != "" && forall k :: Lookup(customData, k) == Rule(i, k)
    requires forall k <- FILES[..3] :: k !in i.overwrite && k !in i.ownerOverwrite.value
    ensures forall j :: 0 <= j < 2 ==>
      Lookup(customData, FILES[j]) == Some(OrEmpty(Lookup(i.ownerData.value, FILES[j])))
    ensures Lookup(customData, FILES[2]) == Some(i.custom)
    ensures Lookup(customData, FILES[3]) == Some(SecretsText(i.secretNames, i.secrets))
  {
    FilesDiffer();
    forall j | 0 <= j < 3 ensures Lookup(customData, FILES[j]) == Base(i, FILES[j]) {
      assert FILES[j] == FILES[..3][j] && FILES[j] in FILES[..3];
      assert Lookup(customData, FILES[j]) == Rule(i, FILES[j]);
    }
    assert Lookup(customData, FILES[3]) == Rule(i, FILES[3]);
  }

  lemma FilesDiffer()
    ensures Distinct(FILES)
  {
    assert DEFAULTS[1] == '0' && CUSTOM[1] == '1' && SERVICE[1] == '2' && SECRETS[1] == '3';
  }

  /** The name of the config Secret of a CR. */
  function SecretName(cr: string): string { cr + "-config-data" }

  // ---------------------------------------------------------------- overwrite files

  /** collectOverwriteKeys: the keys of both maps, merged and sorted. */
  method CollectOverwriteKeys(parentOverwrite: Data, componentOverwrite: Data) returns (keys: seq<string>)
    ensures keys == Listing(parentOverwrite.Keys + componentOverwrite.Keys)
  {
    keys := KeysInOrder(parentOverwrite.Keys + componentOverwrite.Keys);
  }
}
