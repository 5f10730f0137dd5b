/** The per-element descriptor tables (`c_tag`, `c_namespace`, `c_attributes`,
    `c_children`, `c_child_order`) of the DsBase subclasses in
    src/xmldsig/__init__.py:55-1029.

    Each class body starts from copies of DsBase's empty dictionaries and
    inserts one entry per statement. A descriptor keeps those insertions as a
    sequence, in source order; `AttributeDict` and `ChildDict` replay them into
    the dictionaries the class ends up with. A child entry records the literal
    local tag its key is written from, not the child class's own tag: the
    lemmas in DescriptorProperties check that the two agree. */
module Descriptors {
  import opened Wrappers
  import opened Constants
  import opened Names

  /** One element type per DsBase subclass. */
  datatype Kind =
    | Object | MgmtData | SPKISexp | SPKIData | PGPKeyID | PGPKeyPacket | PGPData
    | X509IssuerName | X509IssuerNumber | X509IssuerSerial | X509SKI | X509SubjectName
    | X509Certificate | X509CRL | X509Data | XPath | Transform | Transforms
    | RetrievalMethod | Modulus | Exponent | RSAKeyValue | DsP | DsQ | DsG | DsY | DsJ
    | Seed | PgenCounter | DSAKeyValue | KeyValue | KeyName | KeyInfo | DigestValue
    | DigestMethod | Reference | HMACOutputLength | SignatureMethod
    | CanonicalizationMethod | SignedInfo | SignatureValue | Signature

  /** Each class's `c_tag`: its own name, except that the five DSA parameter
      classes `DsP` .. `DsJ` are tagged `P` .. `J`. */
  function Tag(k: Kind): string
  {
    match k
    case Object => "Object"
    case MgmtData => "MgmtData"
    case SPKISexp => "SPKISexp"
    case SPKIData => "SPKIData"
    case PGPKeyID => "PGPKeyID"
    case PGPKeyPacket => "PGPKeyPacket"
    case PGPData => "PGPData"
    case X509IssuerName => "X509IssuerName"
    case X509IssuerNumber => "X509IssuerNumber"
    case X509IssuerSerial => "X509IssuerSerial"
    case X509SKI => "X509SKI"
    case X509SubjectName => "X509SubjectName"
    case X509Certificate => "X509Certificate"
    case X509CRL => "X509CRL"
    case X509Data => "X509Data"
    case XPath => "XPath"
    case Transform => "Transform"
    case Transforms => "Transforms"
    case RetrievalMethod => "RetrievalMethod"
    case Modulus => "Modulus"
    case Exponent => "Exponent"
    case RSAKeyValue => "RSAKeyValue"
    case DsP => "P"
    case DsQ => "Q"
    case DsG => "G"
    case DsY => "Y"
    case DsJ => "J"
    case Seed => "Seed"
    case PgenCounter => "PgenCounter"
    case DSAKeyValue => "DSAKeyValue"
    case KeyValue => "KeyValue"
    case KeyName => "KeyName"
    case KeyInfo => "KeyInfo"
    case DigestValue => "DigestValue"
    case DigestMethod => "DigestMethod"
    case Reference => "Reference"
    case HMACOutputLength => "HMACOutputLength"
    case SignatureMethod => "SignatureMethod"
    case CanonicalizationMethod => "CanonicalizationMethod"
    case SignedInfo => "SignedInfo"
    case SignatureValue => "SignatureValue"
    case Signature => "Signature"
  }

  /** A child entry is `(field, Type)` for one child or `(field, [Type])` for a list. */
  datatype Cardinality = Single | List

  /** The value side of a `c_children` entry. */
  datatype ChildSpec = ChildSpec(field: Name, cardinality: Cardinality, kind: Kind)

  /** `c_attributes[xmlName] = field` */
  datatype AttributeEntry = AttributeEntry(xmlName: string, field: Name)

  /** `c_children['{%s}localTag' % DS_NAMESPACE] = (field, kind)` or `(field, [kind])` */
  datatype ChildEntry = ChildEntry(localTag: string, field: Name, cardinality: Cardinality, kind: Kind)
  {
    function Key(): string
    {
      Qualified(localTag)
    }

    function Spec(): ChildSpec
    {
      ChildSpec(field, cardinality, kind)
    }
  }

  /** `childOrder` is None when the class declares no `c_child_order` and so
      inherits whatever SamlBase provides. */
  datatype Descriptor = Descriptor(
    tag: string,
    namespace: string,
    attributes: seq<AttributeEntry>,
    children: seq<ChildEntry>,
    childOrder: Option<seq<Name>>)
  {
    /** The class's `c_attributes` dictionary. */
    function AttributeMap(): map<string, Name>
    {
      AttributeDict(attributes)
    }

    /** The class's `c_children` dictionary. */
    function ChildMap(): map<string, ChildSpec>
    {
      ChildDict(children)
    }

    /** The native field names the child table declares. */
    function ChildFields(): set<Name>
    {
      set e | e in children :: e.field
    }

    /** The native field names the attribute table declares. */
    function AttributeFields(): set<Name>
    {
      set e | e in attributes :: e.field
    }

    /** Every native field an instance of this descriptor carries. */
    function FieldNames(): set<Name>
    {
      AttributeFields() + ChildFields()
    }

    /** The native fields declared as list children, `(field, [Type])`. */
    function ListFields(): set<Name>
    {
      set e | e in children && e.cardinality == List :: e.field
    }

    /** Whether `field` is declared as a list child. */
    predicate IsListField(field: Name)
    {
      field in ListFields()
    }
  }

  /** Replays `c_attributes[e.xmlName] = e.field` for each entry in turn. */
  function AttributeDict(entries: seq<AttributeEntry>): map<string, Name>
  {
    if entries == [] then map[]
    else
      var last := entries[|entries| - 1];
      AttributeDict(entries[..|entries| - 1])[last.xmlName := last.field]
  }

  /** Replays `c_children[e.Key()] = (e.field, e.kind)` for each entry in turn. */
  function ChildDict(entries: seq<ChildEntry>): map<string, ChildSpec>
  {
    if entries == [] then map[]
    else
      var last := entries[|entries| - 1];
      ChildDict(entries[..|entries| - 1])[last.Key() := last.Spec()]
  }

  /** What a class body writes: its `c_namespace`, what it inserts into the
      copies of DsBase's empty `c_children` and `c_attributes` (lines 55-59),
      and the `c_child_order` it declares. */
  datatype ClassBody = ClassBody(
    namespace: string,
    attributes: seq<AttributeEntry>,
    children: seq<ChildEntry>,
    childOrder: Option<seq<Name>>)

  function Declare(namespace: string, attributes: seq<AttributeEntry> := [], children: seq<ChildEntry> := [],
                   childOrder: Option<seq<Name>> := None): ClassBody
  {
    ClassBody(namespace, attributes, children, childOrder)
  }

  /** The body of Object (lines 64-70). */
  const ObjectBody := Declare(DsNamespace,
      attributes := [AttributeEntry("Id", identifier), AttributeEntry("MimeType", mime_type), AttributeEntry("Encoding", encoding)])

  /** The body of SPKIData (lines 123-127). */
  const SPKIDataBody := Declare(DsNamespace,
      children := [
        ChildEntry("SPKISexp", spki_sexp, List, SPKISexp)])

  /** The body of PGPData (lines 177-184). */
  const PGPDataBody := Declare(DsNamespace,
      children := [
        ChildEntry("PGPKeyID", pgp_key_id, Single, PGPKeyID),
        ChildEntry("PGPKeyPacket", pgp_key_packet, Single, PGPKeyPacket)],
      childOrder := Some([pgp_key_id, pgp_key_packet]))

  /** The body of X509IssuerSerial (lines 236-244). */
  const X509IssuerSerialBody := Declare(DsNamespace,
      children := [
        ChildEntry("X509IssuerName", x509_issuer_name, Single, X509IssuerName),
        ChildEntry("X509IssuerNumber", x509_issuer_number, Single, X509IssuerNumber)],
      childOrder := Some([x509_issuer_name, x509_issuer_number]))

  /** The body of X509Data (lines 323-336). */
  const X509DataBody := Declare(DsNamespace,
      children := [
        ChildEntry("X509IssuerSerial", x509_issuer_serial, List, X509IssuerSerial),
        ChildEntry("X509SKI", x509_ski, List, X509SKI),
        ChildEntry("X509SubjectName", x509_subject_name, List, X509SubjectName),
        ChildEntry("X509Certificate", x509_certificate, List, X509Certificate),
        ChildEntry("X509CRL", x509_crl, List, X509CRL)],
      childOrder := Some([x509_issuer_serial, x509_ski, x509_subject_name, x509_certificate, x509_crl]))

  /** The body of Transform (lines 383-388). */
  const TransformBody := Declare(DsNamespace,
      attributes := [AttributeEntry("Algorithm", algorithm)],
      children := [
        ChildEntry("XPath", xpath, List, XPath)])

  /** The body of Transforms (lines 413-417). */
  const TransformsBody := Declare(DsNamespace,
      children := [
        ChildEntry("Transform", transform, List, Transform)])

  /** The body of RetrievalMethod (lines 440-446). Its `Type` attribute is renamed to `typ`. */
  const RetrievalMethodBody := Declare(DsNamespace,
      attributes := [AttributeEntry("URI", uri), AttributeEntry("Type", typ)],
      children := [
        ChildEntry("Transforms", transforms, List, Transforms)])

  /** The body of RSAKeyValue (lines 499-505). */
  const RSAKeyValueBody := Declare(DsNamespace,
      children := [
        ChildEntry("Modulus", modulus, Single, Modulus),
        ChildEntry("Exponent", exponent, Single, Exponent)],
      childOrder := Some([modulus, exponent]))

  /** The body of DSAKeyValue (lines 621-633). Its first five children are tagged `P` .. `J`; their classes are `DsP` .. `DsJ`. */
  const DSAKeyValueBody := Declare(DsNamespace,
      children := [
        ChildEntry("P", p, Single, DsP),
        ChildEntry("Q", q, Single, DsQ),
        ChildEntry("G", g, Single, DsG),
        ChildEntry("Y", y, Single, DsY),
        ChildEntry("J", j, Single, DsJ),
        ChildEntry("Seed", seed, Single, Seed),
        ChildEntry("PgenCounter", pgen_counter, Single, PgenCounter)],
      childOrder := Some([p, q, g, y, j, seed, pgen_counter]))

  /** The body of KeyValue (lines 669-678). */
  const KeyValueBody := Declare(DsNamespace,
      children := [
        ChildEntry("RSAKeyValue", rsa_key_value, Single, RSAKeyValue),
        ChildEntry("DSAKeyValue", dsa_key_value, Single, DSAKeyValue)],
      childOrder := Some([rsa_key_value, dsa_key_value]))

  /** The body of KeyInfo (lines 716-731). */
  const KeyInfoBody := Declare(DsNamespace,
      attributes := [AttributeEntry("Id", identifier)],
      children := [
        ChildEntry("KeyName", key_name, List, KeyName),
        ChildEntry("KeyValue", key_value, List, KeyValue),
        ChildEntry("RetrievalMethod", retrieval_method, List, RetrievalMethod),
        ChildEntry("X509Data", x509_data, List, X509Data),
        ChildEntry("PGPData", pgp_data, List, PGPData),
        ChildEntry("SPKIData", spki_data, List, SPKIData),
        ChildEntry("MgmtData", mgmt_data, List, MgmtData)],
      childOrder := Some([key_name, key_value, retrieval_method, x509_data, pgp_data, spki_data, mgmt_data]))

  /** The body of DigestMethod (lines 783-787). */
  const DigestMethodBody := Declare(DsNamespace,
      attributes := [AttributeEntry("Algorithm", algorithm)])

  /** The body of Reference (lines 810-822). Its `Type` attribute is renamed to `type`. */
  const ReferenceBody := Declare(DsNamespace,
      attributes := [AttributeEntry("Id", identifier), AttributeEntry("URI", uri), AttributeEntry("Type", type_)],
      children := [
        ChildEntry("Transforms", transforms, List, Transforms),
        ChildEntry("DigestMethod", digest_method, List, DigestMethod),
        ChildEntry("DigestValue", digest_value, List, DigestValue)],
      childOrder := Some([transforms, digest_method, digest_value]))

  /** The body of SignatureMethod (lines 870-876). */
  const SignatureMethodBody := Declare(DsNamespace,
      attributes := [AttributeEntry("Algorithm", algorithm)],
      children := [
        ChildEntry("HMACOutputLength", hmac_output_length, Single, HMACOutputLength)])

  /** The body of CanonicalizationMethod (lines 901-905). */
  const CanonicalizationMethodBody := Declare(DsNamespace,
      attributes := [AttributeEntry("Algorithm", algorithm)])

  /** The body of SignedInfo (lines 928-939). */
  const SignedInfoBody := Declare(DsNamespace,
      attributes := [AttributeEntry("Id", identifier)],
      children := [
        ChildEntry("CanonicalizationMethod", canonicalization_method, Single, CanonicalizationMethod),
        ChildEntry("SignatureMethod", signature_method, Single, SignatureMethod),
        ChildEntry("Reference", reference, List, Reference)],
      childOrder := Some([canonicalization_method, signature_method, reference]))

  /** The body of SignatureValue (lines 969-973). */
  const SignatureValueBody := Declare(DsNamespace,
      attributes := [AttributeEntry("Id", identifier)])

  /** The body of Signature (lines 997-1007). Its `Object` children go to the field `object`. */
  const SignatureBody := Declare(DsNamespace,
      attributes := [AttributeEntry("Id", identifier)],
      children := [
        ChildEntry("SignedInfo", signed_info, Single, SignedInfo),
        ChildEntry("SignatureValue", signature_value, Single, SignatureValue),
        ChildEntry("KeyInfo", key_info, Single, KeyInfo),
        ChildEntry("Object", object_, List, Object)],
      childOrder := Some([signed_info, signature_value, key_info, object_]))

  /** The body of each class; the leaf classes, which hold only text, declare
      no attribute, no child and no child order. */
  function BodyOf(k: Kind): ClassBody
  {
    match k
    case Object => ObjectBody
    case SPKIData => SPKIDataBody
    case PGPData => PGPDataBody
    case X509IssuerSerial => X509IssuerSerialBody
    case X509Data => X509DataBody
    case Transform => TransformBody
    case Transforms => TransformsBody
    case RetrievalMethod => RetrievalMethodBody
    case RSAKeyValue => RSAKeyValueBody
    case DSAKeyValue => DSAKeyValueBody
    case KeyValue => KeyValueBody
    case KeyInfo => KeyInfoBody
    case DigestMethod => DigestMethodBody
    case Reference => ReferenceBody
    case SignatureMethod => SignatureMethodBody
    case CanonicalizationMethod => CanonicalizationMethodBody
    case SignedInfo => SignedInfoBody
    case SignatureValue => SignatureValueBody
    case Signature => SignatureBody
    case _ => Declare(DsNamespace)
  }

  /** The descriptor of each class: its tag, and the namespace and tables its
      body writes. */
  function DescriptorOf(k: Kind): Descriptor
  {
    var b := BodyOf(k);
    Descriptor(Tag(k), b.namespace, b.attributes, b.children, b.childOrder)
  }
}
