/** Which CRs are reconciled when a watched object changes: the controllers ask an index once per field
    instead of looking at every CR. */
module WatchIndex {
  import opened Cluster

  datatype Field =
    | PasswordSecret | SimpleCryptoBackendSecret | CABundleSecret | TLSInternalSecret | TLSPublicSecret
    | PKCS11LoginSecret | PKCS11ClientDataSecret | KMIPClientDataSecret | TopologyName
    | CustomServiceConfigSecrets | ParentConfigDataSecret | AuthAppCredSecret

  datatype PKCS11Spec = PKCS11Spec(loginSecret: string, clientDataSecret: string)

  /** The parts of a Barbican CR or of one of its children that refer to other objects. */
  datatype CR = CR(name: string, namespace: string, secret: string, simpleCrypto: string, caBundle: string,
                   tlsInternal: Option<string>, tlsPublic: Option<string>, pkcs11: Option<PKCS11Spec>,
                   kmip: Option<string>, topology: Option<string>, customSecrets: seq<string>, owner: string,
                   appCred: string)

  datatype Request = Request(name: string, namespace: string)

  datatype Watcher = Parent | OfChild(kind: Kind)

  function FieldsOf(w: Watcher): seq<Field> {
    match w
    case Parent =>
      [PasswordSecret, SimpleCryptoBackendSecret, PKCS11LoginSecret, PKCS11ClientDataSecret, KMIPClientDataSecret,
        AuthAppCredSecret]
    case OfChild(API) =>
      [PasswordSecret, SimpleCryptoBackendSecret, CABundleSecret, TLSInternalSecret, TLSPublicSecret, PKCS11LoginSecret,
       PKCS11ClientDataSecret, KMIPClientDataSecret, TopologyName, CustomServiceConfigSecrets, ParentConfigDataSecret]
    case OfChild(Worker) =>
      [PasswordSecret, SimpleCryptoBackendSecret, CABundleSecret, PKCS11LoginSecret,
       PKCS11ClientDataSecret, KMIPClientDataSecret, TopologyName, CustomServiceConfigSecrets, ParentConfigDataSecret]
    case OfChild(Listener) =>
      [PasswordSecret, SimpleCryptoBackendSecret, CABundleSecret, TopologyName, CustomServiceConfigSecrets,
        ParentConfigDataSecret]
  }

  function IfSet(x: string): seq<string> { if x == "" then [] else [x] }
  function IfThere(x: Option<string>): seq<string> { if x.None? then [] else [x.value] }

  /** The index functions: the names under which a CR is listed for a field. */
  function Extract(f: Field, cr: CR): seq<string> {
    match f
    case PasswordSecret => IfSet(cr.secret)
    case SimpleCryptoBackendSecret => IfSet(cr.simpleCrypto)
    case CABundleSecret => IfSet(cr.caBundle)
    case TLSInternalSecret => IfThere(cr.tlsInternal)
    case TLSPublicSecret => IfThere(cr.tlsPublic)
    case PKCS11LoginSecret => if cr.pkcs11.None? then [] else IfSet(cr.pkcs11.value.loginSecret)
    case PKCS11ClientDataSecret => if cr.pkcs11.None? then [] else IfSet(cr.pkcs11.value.clientDataSecret)
    case KMIPClientDataSecret => if cr.kmip.None? then [] else IfSet(cr.kmip.value)
    case TopologyName => IfThere(cr.topology)
    case CustomServiceConfigSecrets => cr.customSecrets
    case ParentConfigDataSecret => if cr.owner == "" then [] else [cr.owner + "-config-data"]
    case AuthAppCredSecret => IfSet(cr.appCred)
  }

  function RequestFor(cr: CR): Request { Request(cr.name, cr.namespace) }

  predicate Listed(cr: CR, f: Field, name: string, namespace: string) {
    cr.namespace == namespace && name in Extract(f, cr)
  }

  /** A CR of the namespace refers to the name in one of the fields. */
  predicate Refers(cr: CR, fields: seq<Field>, name: string, namespace: string) {
    exists f <- fields :: Listed(cr, f, name, namespace)
  }

  /** The reconciler's List call with a field selector. */
  method List(crs: seq<CR>, f: Field, name: string, namespace: string) returns (items: seq<CR>)
    ensures forall cr :: cr in items <==> cr in crs && Listed(cr, f, name, namespace)
  {
    items := [];
    for i := 0 to |crs|
      invariant forall cr :: cr in items <==> cr in crs[..i] && Listed(cr, f, name, namespace)
    {
      if Listed(crs[i], f, name, namespace) {
        items := items + [crs[i]];
      }
    }
  }

  method RequestsOf(items: seq<CR>) returns (requests: seq<Request>)
    ensures forall r :: r in requests <==> exists cr <- items :: r == RequestFor(cr)
  {
    requests := [];
    for i := 0 to |items|
      invariant forall r :: r in requests <==> exists cr <- items[..i] :: r == RequestFor(cr)
    {
      assert items[..i + 1] == items[..i] + [items[i]];
      requests := requests + [RequestFor(items[i])];
    }
    assert items[..|items|] == items;
  }

  /** The fields of a list for which the List call works. */
  function Working(fields: seq<Field>, failing: set<Field>): seq<Field> {
    if fields == [] then []
    else
      var last := fields[|fields| - 1];
      Working(fields[..|fields| - 1], failing) + if last in failing then [] else [last]
  }

  /** The fields before the first one for which it fails. */
  function Leading(fields: seq<Field>, failing: set<Field>): seq<Field> {
    if fields == [] || fields[0] in failing then [] else [fields[0]] + Leading(fields[1..], failing)
  }

  ghost predicate Answers(requests: seq<Request>, crs: seq<CR>, fields: seq<Field>, name: string, namespace: string) {
    forall r :: r in requests <==> exists cr <- crs :: r == RequestFor(cr) && Refers(cr, fields, name, namespace)
  }

  lemma AnswersMore(requests: seq<Request>, more: seq<Request>, crs: seq<CR>, fields: seq<Field>, f: Field,
    name: string, namespace: string)
    requires Answers(requests, crs, fields, name, namespace)
    requires forall r :: r in more <==> exists cr <- crs :: r == RequestFor(cr) && Listed(cr, f, name, namespace)
    ensures Answers(requests + more, crs, fields + [f], name, namespace)
  {
    forall cr | cr in crs
      ensures Refers(cr, fields + [f], name, namespace) <==>
        Refers(cr, fields, name, namespace) || Listed(cr, f, name, namespace)
    {
      if Refers(cr, fields, name, namespace) {
        var g :| g in fields && Listed(cr, g, name, namespace);
        assert g in fields + [f];
      }
      if Listed(cr, f, name, namespace) {
        assert f in fields + [f];
      }
    }
    forall r ensures r in requests + more <==> exists cr <- crs ::
      r == RequestFor(cr) && Refers(cr, fields + [f], name, namespace) {
      assert r in requests + more <==> r in requests || r in more;
      if r in requests {
        var cr :| cr in crs && r == RequestFor(cr) && Refers(cr, fields, name, namespace);
        assert Refers(cr, fields + [f], name, namespace);
      } else if r in more {
        var cr :| cr in crs && r == RequestFor(cr) && Listed(cr, f, name, namespace);
        assert Refers(cr, fields + [f], name, namespace);
      }
    }
  }

  /** The fields that are asked successfully: the parent passes over a field whose List call fails, a child
      gives up there. */
  function Asked(w: Watcher, failing: set<Field>): seq<Field> {
    if w.Parent? then Working(FieldsOf(w), failing) else Leading(FieldsOf(w), failing)
  }

  /** findObjectsForSrc: the requests are exactly those of the CRs of the namespace that refer to the changed
      object in one of the fields that were asked successfully. */
  method FindObjectsForSrc(w: Watcher, crs: seq<CR>, name: string, namespace: string, failing: set<Field>)
    returns (requests: seq<Request>)
    ensures Answers(requests, crs, Asked(w, failing), name, namespace)
  {
    requests := Search(FieldsOf(w), w.Parent?, crs, name, namespace, failing);
  }

  method Search(fields: seq<Field>, goOn: bool, crs: seq<CR>, name: string, namespace: string, failing: set<Field>)
    returns (requests: seq<Request>)
    ensures Answers(requests, crs, if goOn then Working(fields, failing) else Leading(fields, failing), name, namespace)
  {
    requests := [];
    ghost var asked: seq<Field> := [];
    for i := 0 to |fields|
      invariant Answers(requests, crs, asked, name, namespace)
      invariant goOn ==> asked == Working(fields[..i], failing)
      invariant !goOn ==> asked == fields[..i] && asked + Leading(fields[i..], failing) == Leading(fields, failing)
    {
      assert fields[..i + 1][..i] == fields[..i] && fields[i..][1..] == fields[i + 1..];
      if fields[i] in failing {
        if goOn { continue; }
        return;
      }
      var items := List(crs, fields[i], name, namespace);
      var more := RequestsOf(items);
      AnswersMore(requests, more, crs, asked, fields[i], name, namespace);
      requests, asked := requests + more, asked + [fields[i]];
    }
    assert fields[..|fields|] == fields;
  }

  /** The requests stay in the namespace of the changed object, and each names one CR. */
  lemma RequestsName(requests: seq<Request>, crs: seq<CR>, fields: seq<Field>, name: string, namespace: string,
    r: Request)
    requires Answers(requests, crs, fields, name, namespace) && r in requests
    ensures r.namespace == namespace && exists cr <- crs :: cr.name == r.name && cr.namespace == r.namespace
    ensures forall a: CR, b: CR :: RequestFor(a) == RequestFor(b) <==> a.name == b.name && a.namespace == b.namespace
  {
    var cr :| cr in crs && r == RequestFor(cr) && Refers(cr, fields, name, namespace);
    assert cr.name == r.name;
  }

  /** Passing over failures loses just the failing fields; giving up keeps what comes before the first one. */
  lemma {:induction false} WorkingExactly(fields: seq<Field>, failing: set<Field>, f: Field)
    ensures f in Working(fields, failing) <==> f in fields && f !in failing
  {
    if fields != [] {
      WorkingExactly(fields[..|fields| - 1], failing, f);
    }
  }

  lemma {:induction false} LeadingExactly(fields: seq<Field>, failing: set<Field>)
    ensures var asked := Leading(fields, failing);
      && asked <= fields && (forall f <- asked :: f !in failing)
      && (asked == fields || fields[|asked|] in failing)
  {
    if fields != [] && fields[0] !in failing {
      LeadingExactly(fields[1..], failing);
    }
  }

  /** A CR of the parent's kind mentions the name. */
  predicate Mentions(cr: CR, name: string) {
    || cr.secret == name || cr.simpleCrypto == name || cr.appCred == name
    || (cr.pkcs11.Some? && (cr.pkcs11.value.loginSecret == name || cr.pkcs11.value.clientDataSecret == name))
    || cr.kmip == Some(name)
  }

  /** Without failing List calls the index agrees with a scan of the CRs. */
  lemma IndexAgreesWithScan(cr: CR, name: string, namespace: string)
    requires name != ""
    ensures Asked(Parent, {}) == FieldsOf(Parent)
    ensures Refers(cr, FieldsOf(Parent), name, namespace) <==> cr.namespace == namespace && Mentions(cr, name)
  {
    WorkingAll(FieldsOf(Parent));
    if Refers(cr, FieldsOf(Parent), name, namespace) {
      var f :| f in FieldsOf(Parent) && Listed(cr, f, name, namespace);
      ListedMentions(cr, f, name, namespace);
    }
    if cr.namespace == namespace && Mentions(cr, name) {
      MentionedIsListed(cr, name, namespace);
    }
  }

  lemma ListedMentions(cr: CR, f: Field, name: string, namespace: string)
    requires f in FieldsOf(Parent) && Listed(cr, f, name, namespace)
    ensures Mentions(cr, name)
  {
    match f
    case PasswordSecret => assert cr.secret == name;
    case SimpleCryptoBackendSecret => assert cr.simpleCrypto == name;
    case PKCS11LoginSecret => assert cr.pkcs11.value.loginSecret == name;
    case PKCS11ClientDataSecret => assert cr.pkcs11.value.clientDataSecret == name;
    case KMIPClientDataSecret => assert cr.kmip.value == name;
    case AuthAppCredSecret => assert cr.appCred == name;
    case _ =>
  }

  lemma MentionedIsListed(cr: CR, name: string, namespace: string)
    requires name != "" && cr.namespace == namespace && Mentions(cr, name)
    ensures Refers(cr, FieldsOf(Parent), name, namespace)
  {
    var f :=
      if cr.secret == name then PasswordSecret
      else if cr.simpleCrypto == name then SimpleCryptoBackendSecret
      else if cr.appCred == name then AuthAppCredSecret
      else if cr.kmip == Some(name) then KMIPClientDataSecret
      else if cr.pkcs11.value.loginSecret == name then PKCS11LoginSecret
      else PKCS11ClientDataSecret;
    assert f in FieldsOf(Parent);
    assert Listed(cr, f, name, namespace);
  }

  /** A child of kind `k` mentions the name: which of its parts count depends on the kind. */
  predicate ChildMentions(k: Kind, cr: CR, name: string) {
    || cr.secret == name || cr.simpleCrypto == name || cr.caBundle == name
    || cr.topology == Some(name) || name in cr.customSecrets
    || (cr.owner != "" && name == cr.owner + "-config-data")
    || (!k.Listener? && cr.kmip == Some(name))
    || (!k.Listener? && cr.pkcs11.Some?
        && (cr.pkcs11.value.loginSecret == name || cr.pkcs11.value.clientDataSecret == name))
    || (k.API? && (cr.tlsInternal == Some(name) || cr.tlsPublic == Some(name)))
  }

  /** So does the index of each child controller. */
  lemma ChildIndexAgreesWithScan(k: Kind, cr: CR, name: string, namespace: string)
    requires name != ""
    ensures Asked(OfChild(k), {}) == FieldsOf(OfChild(k))
    ensures Refers(cr, FieldsOf(OfChild(k)), name, namespace) <==>
      cr.namespace == namespace && ChildMentions(k, cr, name)
  {
    LeadingAll(FieldsOf(OfChild(k)));
    if Refers(cr, FieldsOf(OfChild(k)), name, namespace) {
      var f :| f in FieldsOf(OfChild(k)) && Listed(cr, f, name, namespace);
      ListedChildMentions(k, cr, f, name, namespace);
    }
    if cr.namespace == namespace && ChildMentions(k, cr, name) {
      ChildMentionedIsListed(k, cr, name, namespace);
    }
  }

  lemma ListedChildMentions(k: Kind, cr: CR, f: Field, name: string, namespace: string)
    requires f in FieldsOf(OfChild(k)) && Listed(cr, f, name, namespace)
    ensures ChildMentions(k, cr, name)
  {
    match f
    case TLSInternalSecret => assert k.API?;
    case TLSPublicSecret => assert k.API?;
    case PKCS11LoginSecret => assert !k.Listener?;
    case PKCS11ClientDataSecret => assert !k.Listener?;
    case KMIPClientDataSecret => assert !k.Listener?;
    case AuthAppCredSecret => assert false;
    case _ =>
  }

  lemma ChildMentionedIsListed(k: Kind, cr: CR, name: string, namespace: string)
    requires name != "" && cr.namespace == namespace && ChildMentions(k, cr, name)
    ensures Refers(cr, FieldsOf(OfChild(k)), name, namespace)
  {
    var f :=
      if cr.secret == name then PasswordSecret
      else if cr.simpleCrypto == name then SimpleCryptoBackendSecret
      else if cr.caBundle == name then CABundleSecret
      else if cr.topology == Some(name) then TopologyName
      else if name in cr.customSecrets then CustomServiceConfigSecrets
      else if cr.owner != "" && name == cr.owner + "-config-data" then ParentConfigDataSecret
      else if !k.Listener? && cr.kmip == Some(name) then KMIPClientDataSecret
      else if k.API? && cr.tlsInternal == Some(name) then TLSInternalSecret
      else if k.API? && cr.tlsPublic == Some(name) then TLSPublicSecret
      else if cr.pkcs11.value.loginSecret == name then PKCS11LoginSecret
      else PKCS11ClientDataSecret;
    assert f in FieldsOf(OfChild(k));
    assert Listed(cr, f, name, namespace);
  }

  lemma {:induction false} LeadingAll(fields: seq<Field>)
    ensures Leading(fields, {}) == fields
  {
    if fields != [] {
      LeadingAll(fields[1..]);
    }
  }

  lemma {:induction false} WorkingAll(fields: seq<Field>)
    ensures Working(fields, {}) == fields
  {
    if fields != [] {
      WorkingAll(fields[..|fields| - 1]);
    }
  }
}
