/** Element instances and the `__init__` of every DsBase subclass
    (src/xmldsig/__init__.py:72-88, 129-141, ... 1009-1029).

    An instance is modelled as a Python object is: its class, a dictionary
    from attribute names to values (the fields `__init__` sets), and the three
    values handed to `DsBase.__init__`. A constructor call is the dictionary of
    its keyword arguments. Each `__init__` is a table of the `self.<field> =
    ...` statements it executes, in order; `Assign` runs them. */
module Elements {
  import opened Wrappers
  import opened Names
  import opened Descriptors

  /** An `ExtensionElement`, kept as the markup it stands for. */
  datatype ExtensionElement = ExtensionElement(markup: string)

  /** The Python values a field or an argument can hold. `NoValue` is `None`;
      `ClassRef` is a class object itself, such as `Seed`. */
  datatype Value =
    | NoValue
    | Str(s: string)
    | Node(element: Element)
    | Nodes(elements: seq<Element>)
    | ClassRef(cls: Kind)
    | Extensions(items: seq<ExtensionElement>)
    | AttributeValues(pairs: map<string, string>)

  /** What `DsBase.__init__(self, text, extension_elements, extension_attributes)`
      receives; SamlBase's handling of it is not part of this model. */
  datatype Base = Base(text: Value, extensionElements: Value, extensionAttributes: Value)

  /** An instance of the class `kind`. */
  datatype Element = Element(kind: Kind, fields: map<Name, Value>, base: Base)

  /** Python truthiness: `None`, the empty string and empty collections are
      false; element and class objects are true. */
  predicate Truthy(v: Value)
  {
    match v
    case NoValue => false
    case Str(s) => s != ""
    case Node(_) => true
    case Nodes(es) => es != []
    case ClassRef(_) => true
    case Extensions(xs) => xs != []
    case AttributeValues(m) => m != map[]
  }

  /** `v or []` */
  function OrEmpty(v: Value): Value
  {
    if Truthy(v) then v else Nodes([])
  }

  /** The right-hand side of one `self.<field> = ...` statement: the argument
      itself, the argument `or []`, or a class object. */
  datatype Rule = Store | OrEmptyList | AssignClass(cls: Kind)

  /** `self.<field> = <rule applied to the argument named name>` */
  datatype Param = Param(name: Name, field: Name, rule: Rule)

  /** The keyword parameters every constructor passes on to `DsBase.__init__`. */
  const BaseNames: set<Name> := {text, extension_elements, extension_attributes}

  /** Object.__init__ (lines 72-88). */
  const ObjectInit := [
    Param(identifier, identifier, Store),
    Param(mime_type, mime_type, Store),
    Param(encoding, encoding, Store)]

  /** SPKIData.__init__ (lines 129-141). */
  const SPKIDataInit := [
    Param(spki_sexp, spki_sexp, OrEmptyList)]

  /** PGPData.__init__ (lines 186-200). */
  const PGPDataInit := [
    Param(pgp_key_id, pgp_key_id, Store),
    Param(pgp_key_packet, pgp_key_packet, Store)]

  /** X509IssuerSerial.__init__ (lines 246-260). */
  const X509IssuerSerialInit := [
    Param(x509_issuer_name, x509_issuer_name, Store),
    Param(x509_issuer_number, x509_issuer_number, Store)]

  /** X509Data.__init__ (lines 338-359). */
  const X509DataInit := [
    Param(x509_issuer_serial, x509_issuer_serial, OrEmptyList),
    Param(x509_ski, x509_ski, OrEmptyList),
    Param(x509_subject_name, x509_subject_name, OrEmptyList),
    Param(x509_certificate, x509_certificate, OrEmptyList),
    Param(x509_crl, x509_crl, OrEmptyList)]

  /** Transform.__init__ (lines 390-403). */
  const TransformInit := [
    Param(xpath, xpath, OrEmptyList),
    Param(algorithm, algorithm, Store)]

  /** Transforms.__init__ (lines 419-430). */
  const TransformsInit := [
    Param(transform, transform, OrEmptyList)]

  /** RetrievalMethod.__init__ (lines 448-463). */
  const RetrievalMethodInit := [
    Param(transforms, transforms, OrEmptyList),
    Param(uri, uri, Store),
    Param(typ, typ, Store)]

  /** RSAKeyValue.__init__ (lines 507-520). */
  const RSAKeyValueInit := [
    Param(modulus, modulus, Store),
    Param(exponent, exponent, Store)]

  /** DSAKeyValue.__init__ (lines 635-659): `self.seed = Seed` stores the class
      `Seed`, not the `seed` argument. */
  const DSAKeyValueInit := [
    Param(p, p, Store),
    Param(q, q, Store),
    Param(g, g, Store),
    Param(y, y, Store),
    Param(j, j, Store),
    Param(seed, seed, AssignClass(Seed)),
    Param(pgen_counter, pgen_counter, Store)]

  /** KeyValue.__init__ (lines 680-693). */
  const KeyValueInit := [
    Param(rsa_key_value, rsa_key_value, Store),
    Param(dsa_key_value, dsa_key_value, Store)]

  /** KeyInfo.__init__ (lines 733-760). */
  const KeyInfoInit := [
    Param(key_name, key_name, OrEmptyList),
    Param(key_value, key_value, OrEmptyList),
    Param(retrieval_method, retrieval_method, OrEmptyList),
    Param(x509_data, x509_data, OrEmptyList),
    Param(pgp_data, pgp_data, OrEmptyList),
    Param(spki_data, spki_data, OrEmptyList),
    Param(mgmt_data, mgmt_data, OrEmptyList),
    Param(identifier, identifier, Store)]

  /** DigestMethod.__init__ (lines 789-800). */
  const DigestMethodInit := [
    Param(algorithm, algorithm, Store)]

  /** Reference.__init__ (lines 824-847): the `typ` argument goes to `self.type`. */
  const ReferenceInit := [
    Param(identifier, identifier, Store),
    Param(uri, uri, Store),
    Param(typ, type_, Store),
    Param(transforms, transforms, OrEmptyList),
    Param(digest_method, digest_method, OrEmptyList),
    Param(digest_value, digest_value, OrEmptyList)]

  /** SignatureMethod.__init__ (lines 878-891). */
  const SignatureMethodInit := [
    Param(algorithm, algorithm, Store),
    Param(hmac_output_length, hmac_output_length, Store)]

  /** CanonicalizationMethod.__init__ (lines 907-918). */
  const CanonicalizationMethodInit := [
    Param(algorithm, algorithm, Store)]

  /** SignedInfo.__init__ (lines 941-959). */
  const SignedInfoInit := [
    Param(identifier, identifier, Store),
    Param(canonicalization_method, canonicalization_method, Store),
    Param(signature_method, signature_method, Store),
    Param(reference, reference, OrEmptyList)]

  /** SignatureValue.__init__ (lines 975-987). */
  const SignatureValueInit := [
    Param(identifier, identifier, Store)]

  /** Signature.__init__ (lines 1009-1029): the `objects` argument goes to
      `self.object`. */
  const SignatureInit := [
    Param(identifier, identifier, Store),
    Param(signed_info, signed_info, Store),
    Param(signature_value, signature_value, Store),
    Param(key_info, key_info, Store),
    Param(objects, object_, OrEmptyList)]

  /** The statements of each class's `__init__`; a class without one inherits
      SamlBase's, which sets no field of its own. */
  function InitParams(k: Kind): seq<Param>
  {
    match k
    case Object => ObjectInit
    case SPKIData => SPKIDataInit
    case PGPData => PGPDataInit
    case X509IssuerSerial => X509IssuerSerialInit
    case X509Data => X509DataInit
    case Transform => TransformInit
    case Transforms => TransformsInit
    case RetrievalMethod => RetrievalMethodInit
    case RSAKeyValue => RSAKeyValueInit
    case DSAKeyValue => DSAKeyValueInit
    case KeyValue => KeyValueInit
    case KeyInfo => KeyInfoInit
    case DigestMethod => DigestMethodInit
    case Reference => ReferenceInit
    case SignatureMethod => SignatureMethodInit
    case CanonicalizationMethod => CanonicalizationMethodInit
    case SignedInfo => SignedInfoInit
    case SignatureValue => SignatureValueInit
    case Signature => SignatureInit
    case _ => []
  }

  /** The keyword arguments a sequence of statements takes. */
  function ArgumentNames(ps: seq<Param>): set<Name>
  {
    set p | p in ps :: p.name
  }

  /** The keyword arguments a class's own `__init__` declares. */
  function Arguments(k: Kind): set<Name>
  {
    ArgumentNames(InitParams(k))
  }

  /** The keyword arguments a constructor accepts. */
  function ParamNames(k: Kind): set<Name>
  {
    Arguments(k) + BaseNames
  }

  /** The value of the parameter `name` in a call: the keyword argument if one
      was given, else the default `None`. */
  function Arg(kw: map<Name, Value>, name: Name): Value
  {
    if name in kw then kw[name] else NoValue
  }

  /** The value one `self.<field> = ...` statement stores. */
  function Rhs(p: Param, kw: map<Name, Value>): Value
  {
    match p.rule
    case Store => Arg(kw, p.name)
    case OrEmptyList => OrEmpty(Arg(kw, p.name))
    case AssignClass(c) => ClassRef(c)
  }

  /** The native fields a sequence of statements assigns. */
  function Assigned(ps: seq<Param>): set<Name>
  {
    set p | p in ps :: p.field
  }

  /** Executes the statements in order on the instance dictionary `fields`. */
  function Assign(ps: seq<Param>, kw: map<Name, Value>, fields: map<Name, Value>): (r: map<Name, Value>)
    ensures r.Keys == fields.Keys + Assigned(ps)
  {
    if ps == [] then fields
    else Assign(ps[1..], kw, fields[ps[0].field := Rhs(ps[0], kw)])
  }

  /** `k(**kw)` for keywords `k` accepts: `DsBase.__init__` receives the three
      base values, then the statements of `k.__init__` run, in order, on the
      fresh instance's empty dictionary. */
  function New(k: Kind, kw: map<Name, Value>): Element
  {
    Element(k, Assign(InitParams(k), kw, map[]), Base(Arg(kw, text), Arg(kw, extension_elements), Arg(kw, extension_attributes)))
  }

  /** `setattr(e, f, v)`: the instance `e` with its field `f` set to `v`. */
  function SetField(e: Element, f: Name, v: Value): (r: Element)
    ensures r.kind == e.kind && r.base == e.base
    ensures r.fields.Keys == e.fields.Keys + {f}
    ensures r.fields[f] == v && forall g :: g in e.fields && g != f ==> r.fields[g] == e.fields[g]
  {
    e.(fields := e.fields[f := v])
  }

  /** The TypeError Python raises for keywords the constructor does not declare. */
  datatype TypeError = UnexpectedKeywords(names: set<Name>)

  /** `k(**kw)`: an instance, or a TypeError naming the keywords `k` does not
      accept. */
  function Construct(k: Kind, kw: map<Name, Value>): (r: Result<Element, TypeError>)
    ensures r.Success? <==> kw.Keys <= ParamNames(k)
    ensures r.Success? ==> r.value == New(k, kw)
    ensures r.Failure? ==> r.error.names == kw.Keys - ParamNames(k) && r.error.names != {}
  {
    if kw.Keys <= ParamNames(k) then Success(New(k, kw))
    else Failure(UnexpectedKeywords(kw.Keys - ParamNames(k)))
  }
}
