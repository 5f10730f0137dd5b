/** The checks of DescriptorProperties, run on the body of every class in
    src/xmldsig/__init__.py:55-1029. Each check is run on the entries of one
    body, and `TablesWellWritten` gathers the results for every class. */
module TableChecks {
  import opened Wrappers
  import opened Constants
  import opened Names
  import opened Descriptors
  import opened DescriptorProperties

  // ---- the checks pass on every class body ----------------------------------
  // Object

  lemma ObjectAttributes(k: Kind, attrs: seq<AttributeEntry>, cs: seq<ChildEntry>)
    requires k == Object && attrs == ObjectBody.attributes && cs == ObjectBody.children
    ensures AttributesFresh(k, attrs, 0, {}, FieldSet(cs, 0))
  {
  }

  lemma ObjectWellWritten(k: Kind)
    requires k == Object
    ensures WellWritten(k, BodyOf(k))
  {
    ObjectBodyWellWritten(k, BodyOf(k));
  }

  lemma ObjectBodyWellWritten(k: Kind, b: ClassBody)
    requires k == Object && b == ObjectBody
    ensures WellWritten(k, b)
  {
    ObjectAttributes(k, b.attributes, b.children);
  }

  // SPKIData

  lemma SPKIDataChildrenTyped(k: Kind, cs: seq<ChildEntry>)
    requires k == SPKIData && cs == SPKIDataBody.children
    ensures ChildrenTyped(k, cs)
  {
  }

  lemma SPKIDataChildrenFresh(cs: seq<ChildEntry>)
    requires cs == SPKIDataBody.children
    ensures ChildrenFresh(cs, 0, {}, {})
  {
  }

  lemma SPKIDataWellWritten(k: Kind)
    requires k == SPKIData
    ensures WellWritten(k, BodyOf(k))
  {
    SPKIDataBodyWellWritten(k, BodyOf(k));
  }

  lemma SPKIDataBodyWellWritten(k: Kind, b: ClassBody)
    requires k == SPKIData && b == SPKIDataBody
    ensures WellWritten(k, b)
  {
    SPKIDataChildrenTyped(k, b.children);
    SPKIDataChildrenFresh(b.children);
  }

  // PGPData

  lemma PGPDataChildrenTyped(k: Kind, cs: seq<ChildEntry>)
    requires k == PGPData && cs == PGPDataBody.children
    ensures ChildrenTyped(k, cs)
  {
  }

  lemma PGPDataChildrenFresh(cs: seq<ChildEntry>)
    requires cs == PGPDataBody.children
    ensures ChildrenFresh(cs, 0, {}, {})
  {
  }

  lemma PGPDataChildOrder(cs: seq<ChildEntry>, order: seq<Name>)
    requires cs == PGPDataBody.children && order == PGPDataBody.childOrder.value
    ensures OrderFollows(cs, order)
  {
  }

  lemma PGPDataWellWritten(k: Kind)
    requires k == PGPData
    ensures WellWritten(k, BodyOf(k))
  {
    PGPDataBodyWellWritten(k, BodyOf(k));
  }

  lemma PGPDataBodyWellWritten(k: Kind, b: ClassBody)
    requires k == PGPData && b == PGPDataBody
    ensures WellWritten(k, b)
  {
    PGPDataChildrenTyped(k, b.children);
    PGPDataChildrenFresh(b.children);
    PGPDataChildOrder(b.children, b.childOrder.value);
  }

  // X509IssuerSerial

  lemma X509IssuerSerialChildrenTyped(k: Kind, cs: seq<ChildEntry>)
    requires k == X509IssuerSerial && cs == X509IssuerSerialBody.children
    ensures ChildrenTyped(k, cs)
  {
  }

  lemma X509IssuerSerialChildrenFresh(cs: seq<ChildEntry>)
    requires cs == X509IssuerSerialBody.children
    ensures ChildrenFresh(cs, 0, {}, {})
  {
  }

  lemma X509IssuerSerialChildOrder(cs: seq<ChildEntry>, order: seq<Name>)
    requires cs == X509IssuerSerialBody.children && order == X509IssuerSerialBody.childOrder.value
    ensures OrderFollows(cs, order)
  {
  }

  lemma X509IssuerSerialWellWritten(k: Kind)
    requires k == X509IssuerSerial
    ensures WellWritten(k, BodyOf(k))
  {
    X509IssuerSerialBodyWellWritten(k, BodyOf(k));
  }

  lemma X509IssuerSerialBodyWellWritten(k: Kind, b: ClassBody)
    requires k == X509IssuerSerial && b == X509IssuerSerialBody
    ensures WellWritten(k, b)
  {
    X509IssuerSerialChildrenTyped(k, b.children);
    X509IssuerSerialChildrenFresh(b.children);
    X509IssuerSerialChildOrder(b.children, b.childOrder.value);
  }

  // X509Data

  lemma X509DataChildrenTyped(k: Kind, cs: seq<ChildEntry>)
    requires k == X509Data && cs == X509DataBody.children
    ensures ChildrenTyped(k, cs)
  {
  }

  lemma X509DataChildrenFresh(cs: seq<ChildEntry>)
    requires cs == X509DataBody.children
    ensures ChildrenFresh(cs, 0, {}, {})
  {
  }

  lemma X509DataChildOrder(cs: seq<ChildEntry>, order: seq<Name>)
    requires cs == X509DataBody.children && order == X509DataBody.childOrder.value
    ensures OrderFollows(cs, order)
  {
  }

  lemma X509DataWellWritten(k: Kind)
    requires k == X509Data
    ensures WellWritten(k, BodyOf(k))
  {
    X509DataBodyWellWritten(k, BodyOf(k));
  }

  lemma X509DataBodyWellWritten(k: Kind, b: ClassBody)
    requires k == X509Data && b == X509DataBody
    ensures WellWritten(k, b)
  {
    X509DataChildrenTyped(k, b.children);
    X509DataChildrenFresh(b.children);
    X509DataChildOrder(b.children, b.childOrder.value);
  }

  // Transform

  lemma TransformChildrenTyped(k: Kind, cs: seq<ChildEntry>)
    requires k == Transform && cs == TransformBody.children
    ensures ChildrenTyped(k, cs)
  {
  }

  lemma TransformChildrenFresh(cs: seq<ChildEntry>)
    requires cs == TransformBody.children
    ensures ChildrenFresh(cs, 0, {}, {})
  {
  }

  lemma TransformAttributes(k: Kind, attrs: seq<AttributeEntry>, cs: seq<ChildEntry>)
    requires k == Transform && attrs == TransformBody.attributes && cs == TransformBody.children
    ensures AttributesFresh(k, attrs, 0, {}, FieldSet(cs, 0))
  {
  }

  lemma TransformWellWritten(k: Kind)
    requires k == Transform
    ensures WellWritten(k, BodyOf(k))
  {
    TransformBodyWellWritten(k, BodyOf(k));
  }

  lemma TransformBodyWellWritten(k: Kind, b: ClassBody)
    requires k == Transform && b == TransformBody
    ensures WellWritten(k, b)
  {
    TransformChildrenTyped(k, b.children);
    TransformChildrenFresh(b.children);
    TransformAttributes(k, b.attributes, b.children);
  }

  // Transforms

  lemma TransformsChildrenTyped(k: Kind, cs: seq<ChildEntry>)
    requires k == Transforms && cs == TransformsBody.children
    ensures ChildrenTyped(k, cs)
  {
  }

  lemma TransformsChildrenFresh(cs: seq<ChildEntry>)
    requires cs == TransformsBody.children
    ensures ChildrenFresh(cs, 0, {}, {})
  {
  }

  lemma TransformsWellWritten(k: Kind)
    requires k == Transforms
    ensures WellWritten(k, BodyOf(k))
  {
    TransformsBodyWellWritten(k, BodyOf(k));
  }

  lemma TransformsBodyWellWritten(k: Kind, b: ClassBody)
    requires k == Transforms && b == TransformsBody
    ensures WellWritten(k, b)
  {
    TransformsChildrenTyped(k, b.children);
    TransformsChildrenFresh(b.children);
  }

  // RetrievalMethod

  lemma RetrievalMethodChildrenTyped(k: Kind, cs: seq<ChildEntry>)
    requires k == RetrievalMethod && cs == RetrievalMethodBody.children
    ensures ChildrenTyped(k, cs)
  {
  }

  lemma RetrievalMethodChildrenFresh(cs: seq<ChildEntry>)
    requires cs == RetrievalMethodBody.children
    ensures ChildrenFresh(cs, 0, {}, {})
  {
  }

  lemma RetrievalMethodAttributes(k: Kind, attrs: seq<AttributeEntry>, cs: seq<ChildEntry>)
    requires k == RetrievalMethod && attrs == RetrievalMethodBody.attributes && cs == RetrievalMethodBody.children
    ensures AttributesFresh(k, attrs, 0, {}, FieldSet(cs, 0))
  {
  }

  lemma RetrievalMethodWellWritten(k: Kind)
    requires k == RetrievalMethod
    ensures WellWritten(k, BodyOf(k))
  {
    RetrievalMethodBodyWellWritten(k, BodyOf(k));
  }

  lemma RetrievalMethodBodyWellWritten(k: Kind, b: ClassBody)
    requires k == RetrievalMethod && b == RetrievalMethodBody
    ensures WellWritten(k, b)
  {
    RetrievalMethodChildrenTyped(k, b.children);
    RetrievalMethodChildrenFresh(b.children);
    RetrievalMethodAttributes(k, b.attributes, b.children);
  }

  // RSAKeyValue

  lemma RSAKeyValueChildrenTyped(k: Kind, cs: seq<ChildEntry>)
    requires k == RSAKeyValue && cs == RSAKeyValueBody.children
    ensures ChildrenTyped(k, cs)
  {
  }

  lemma RSAKeyValueChildrenFresh(cs: seq<ChildEntry>)
    requires cs == RSAKeyValueBody.children
    ensures ChildrenFresh(cs, 0, {}, {})
  {
  }

  lemma RSAKeyValueChildOrder(cs: seq<ChildEntry>, order: seq<Name>)
    requires cs == RSAKeyValueBody.children && order == RSAKeyValueBody.childOrder.value
    ensures OrderFollows(cs, order)
  {
  }

  lemma RSAKeyValueWellWritten(k: Kind)
    requires k == RSAKeyValue
    ensures WellWritten(k, BodyOf(k))
  {
    RSAKeyValueBodyWellWritten(k, BodyOf(k));
  }

  lemma RSAKeyValueBodyWellWritten(k: Kind, b: ClassBody)
    requires k == RSAKeyValue && b == RSAKeyValueBody
    ensures WellWritten(k, b)
  {
    RSAKeyValueChildrenTyped(k, b.children);
    RSAKeyValueChildrenFresh(b.children);
    RSAKeyValueChildOrder(b.children, b.childOrder.value);
  }

  // DSAKeyValue

  lemma DSAKeyValueChildrenTyped(k: Kind, cs: seq<ChildEntry>)
    requires k == DSAKeyValue && cs == DSAKeyValueBody.children
    ensures ChildrenTyped(k, cs)
  {
    DSAKeyValueMiddleChildrenTyped(k, cs);
  }

  lemma DSAKeyValueMiddleChildrenTyped(k: Kind, cs: seq<ChildEntry>)
    requires k == DSAKeyValue && cs == DSAKeyValueBody.children
    ensures ChildrenTyped(k, cs, 2)
  {
    DSAKeyValueLaterChildrenTyped(k, cs);
  }

  lemma DSAKeyValueLaterChildrenTyped(k: Kind, cs: seq<ChildEntry>)
    requires k == DSAKeyValue && cs == DSAKeyValueBody.children
    ensures ChildrenTyped(k, cs, 4)
  {
  }

  lemma DSAKeyValueChildrenFresh(cs: seq<ChildEntry>)
    requires cs == DSAKeyValueBody.children
    ensures ChildrenFresh(cs, 0, {}, {})
  {
  }

  lemma DSAKeyValueChildOrder(cs: seq<ChildEntry>, order: seq<Name>)
    requires cs == DSAKeyValueBody.children && order == DSAKeyValueBody.childOrder.value
    ensures OrderFollows(cs, order)
  {
  }

  lemma DSAKeyValueWellWritten(k: Kind)
    requires k == DSAKeyValue
    ensures WellWritten(k, BodyOf(k))
  {
    DSAKeyValueBodyWellWritten(k, BodyOf(k));
  }

  lemma DSAKeyValueBodyWellWritten(k: Kind, b: ClassBody)
    requires k == DSAKeyValue && b == DSAKeyValueBody
    ensures WellWritten(k, b)
  {
    DSAKeyValueChildrenTyped(k, b.children);
    DSAKeyValueChildrenFresh(b.children);
    DSAKeyValueChildOrder(b.children, b.childOrder.value);
  }

  // KeyValue

  lemma KeyValueChildrenTyped(k: Kind, cs: seq<ChildEntry>)
    requires k == KeyValue && cs == KeyValueBody.children
    ensures ChildrenTyped(k, cs)
  {
  }

  lemma KeyValueChildrenFresh(cs: seq<ChildEntry>)
    requires cs == KeyValueBody.children
    ensures ChildrenFresh(cs, 0, {}, {})
  {
  }

  lemma KeyValueChildOrder(cs: seq<ChildEntry>, order: seq<Name>)
    requires cs == KeyValueBody.children && order == KeyValueBody.childOrder.value
    ensures OrderFollows(cs, order)
  {
  }

  lemma KeyValueWellWritten(k: Kind)
    requires k == KeyValue
    ensures WellWritten(k, BodyOf(k))
  {
    KeyValueBodyWellWritten(k, BodyOf(k));
  }

  lemma KeyValueBodyWellWritten(k: Kind, b: ClassBody)
    requires k == KeyValue && b == KeyValueBody
    ensures WellWritten(k, b)
  {
    KeyValueChildrenTyped(k, b.children);
    KeyValueChildrenFresh(b.children);
    KeyValueChildOrder(b.children, b.childOrder.value);
  }

  // KeyInfo

  lemma KeyInfoChildrenTyped(k: Kind, cs: seq<ChildEntry>)
    requires k == KeyInfo && cs == KeyInfoBody.children
    ensures ChildrenTyped(k, cs)
  {
    KeyInfoLaterChildrenTyped(k, cs);
  }

  lemma KeyInfoLaterChildrenTyped(k: Kind, cs: seq<ChildEntry>)
    requires k == KeyInfo && cs == KeyInfoBody.children
    ensures ChildrenTyped(k, cs, 4)
  {
  }

  lemma KeyInfoChildrenFresh(cs: seq<ChildEntry>)
    requires cs == KeyInfoBody.children
    ensures ChildrenFresh(cs, 0, {}, {})
  {
  }

  lemma KeyInfoChildOrder(cs: seq<ChildEntry>, order: seq<Name>)
    requires cs == KeyInfoBody.children && order == KeyInfoBody.childOrder.value
    ensures OrderFollows(cs, order)
  {
  }

  lemma KeyInfoAttributes(k: Kind, attrs: seq<AttributeEntry>, cs: seq<ChildEntry>)
    requires k == KeyInfo && attrs == KeyInfoBody.attributes && cs == KeyInfoBody.children
    ensures AttributesFresh(k, attrs, 0, {}, FieldSet(cs, 0))
  {
  }

  lemma KeyInfoWellWritten(k: Kind)
    requires k == KeyInfo
    ensures WellWritten(k, BodyOf(k))
  {
    KeyInfoBodyWellWritten(k, BodyOf(k));
  }

  lemma KeyInfoBodyWellWritten(k: Kind, b: ClassBody)
    requires k == KeyInfo && b == KeyInfoBody
    ensures WellWritten(k, b)
  {
    KeyInfoChildrenTyped(k, b.children);
    KeyInfoChildrenFresh(b.children);
    KeyInfoChildOrder(b.children, b.childOrder.value);
    KeyInfoAttributes(k, b.attributes, b.children);
  }

  // DigestMethod

  lemma DigestMethodAttributes(k: Kind, attrs: seq<AttributeEntry>, cs: seq<ChildEntry>)
    requires k == DigestMethod && attrs == DigestMethodBody.attributes && cs == DigestMethodBody.children
    ensures AttributesFresh(k, attrs, 0, {}, FieldSet(cs, 0))
  {
  }

  lemma DigestMethodWellWritten(k: Kind)
    requires k == DigestMethod
    ensures WellWritten(k, BodyOf(k))
  {
    DigestMethodBodyWellWritten(k, BodyOf(k));
  }

  lemma DigestMethodBodyWellWritten(k: Kind, b: ClassBody)
    requires k == DigestMethod && b == DigestMethodBody
    ensures WellWritten(k, b)
  {
    DigestMethodAttributes(k, b.attributes, b.children);
  }

  // Reference

  lemma ReferenceChildrenTyped(k: Kind, cs: seq<ChildEntry>)
    requires k == Reference && cs == ReferenceBody.children
    ensures ChildrenTyped(k, cs)
  {
  }

  lemma ReferenceChildrenFresh(cs: seq<ChildEntry>)
    requires cs == ReferenceBody.children
    ensures ChildrenFresh(cs, 0, {}, {})
  {
  }

  lemma ReferenceChildOrder(cs: seq<ChildEntry>, order: seq<Name>)
    requires cs == ReferenceBody.children && order == ReferenceBody.childOrder.value
    ensures OrderFollows(cs, order)
  {
  }

  lemma ReferenceAttributes(k: Kind, attrs: seq<AttributeEntry>, cs: seq<ChildEntry>)
    requires k == Reference && attrs == ReferenceBody.attributes && cs == ReferenceBody.children
    ensures AttributesFresh(k, attrs, 0, {}, FieldSet(cs, 0))
  {
  }

  lemma ReferenceWellWritten(k: Kind)
    requires k == Reference
    ensures WellWritten(k, BodyOf(k))
  {
    ReferenceBodyWellWritten(k, BodyOf(k));
  }

  lemma ReferenceBodyWellWritten(k: Kind, b: ClassBody)
    requires k == Reference && b == ReferenceBody
    ensures WellWritten(k, b)
  {
    ReferenceChildrenTyped(k, b.children);
    ReferenceChildrenFresh(b.children);
    ReferenceChildOrder(b.children, b.childOrder.value);
    ReferenceAttributes(k, b.attributes, b.children);
  }

  // SignatureMethod

  lemma SignatureMethodChildrenTyped(k: Kind, cs: seq<ChildEntry>)
    requires k == SignatureMethod && cs == SignatureMethodBody.children
    ensures ChildrenTyped(k, cs)
  {
  }

  lemma SignatureMethodChildrenFresh(cs: seq<ChildEntry>)
    requires cs == SignatureMethodBody.children
    ensures ChildrenFresh(cs, 0, {}, {})
  {
  }

  lemma SignatureMethodAttributes(k: Kind, attrs: seq<AttributeEntry>, cs: seq<ChildEntry>)
    requires k == SignatureMethod && attrs == SignatureMethodBody.attributes && cs == SignatureMethodBody.children
    ensures AttributesFresh(k, attrs, 0, {}, FieldSet(cs, 0))
  {
  }

  lemma SignatureMethodWellWritten(k: Kind)
    requires k == SignatureMethod
    ensures WellWritten(k, BodyOf(k))
  {
    SignatureMethodBodyWellWritten(k, BodyOf(k));
  }

  lemma SignatureMethodBodyWellWritten(k: Kind, b: ClassBody)
    requires k == SignatureMethod && b == SignatureMethodBody
    ensures WellWritten(k, b)
  {
    SignatureMethodChildrenTyped(k, b.children);
    SignatureMethodChildrenFresh(b.children);
    SignatureMethodAttributes(k, b.attributes, b.children);
  }

  // CanonicalizationMethod

  lemma CanonicalizationMethodAttributes(k: Kind, attrs: seq<AttributeEntry>, cs: seq<ChildEntry>)
    requires k == CanonicalizationMethod && attrs == CanonicalizationMethodBody.attributes && cs == CanonicalizationMethodBody.children
    ensures AttributesFresh(k, attrs, 0, {}, FieldSet(cs, 0))
  {
  }

  lemma CanonicalizationMethodWellWritten(k: Kind)
    requires k == CanonicalizationMethod
    ensures WellWritten(k, BodyOf(k))
  {
    CanonicalizationMethodBodyWellWritten(k, BodyOf(k));
  }

  lemma CanonicalizationMethodBodyWellWritten(k: Kind, b: ClassBody)
    requires k == CanonicalizationMethod && b == CanonicalizationMethodBody
    ensures WellWritten(k, b)
  {
    CanonicalizationMethodAttributes(k, b.attributes, b.children);
  }

  // SignedInfo

  lemma SignedInfoChildrenTyped(k: Kind, cs: seq<ChildEntry>)
    requires k == SignedInfo && cs == SignedInfoBody.children
    ensures ChildrenTyped(k, cs)
  {
    SignedInfoLaterChildrenTyped(k, cs);
  }

  lemma SignedInfoLaterChildrenTyped(k: Kind, cs: seq<ChildEntry>)
    requires k == SignedInfo && cs == SignedInfoBody.children
    ensures ChildrenTyped(k, cs, 1)
  {
  }

  lemma SignedInfoChildrenFresh(cs: seq<ChildEntry>)
    requires cs == SignedInfoBody.children
    ensures ChildrenFresh(cs, 0, {}, {})
  {
  }

  lemma SignedInfoChildOrder(cs: seq<ChildEntry>, order: seq<Name>)
    requires cs == SignedInfoBody.children && order == SignedInfoBody.childOrder.value
    ensures OrderFollows(cs, order)
  {
  }

  lemma SignedInfoAttributes(k: Kind, attrs: seq<AttributeEntry>, cs: seq<ChildEntry>)
    requires k == SignedInfo && attrs == SignedInfoBody.attributes && cs == SignedInfoBody.children
    ensures AttributesFresh(k, attrs, 0, {}, FieldSet(cs, 0))
  {
  }

  lemma SignedInfoWellWritten(k: Kind)
    requires k == SignedInfo
    ensures WellWritten(k, BodyOf(k))
  {
    SignedInfoBodyWellWritten(k, BodyOf(k));
  }

  lemma SignedInfoBodyWellWritten(k: Kind, b: ClassBody)
    requires k == SignedInfo && b == SignedInfoBody
    ensures WellWritten(k, b)
  {
    SignedInfoChildrenTyped(k, b.children);
    SignedInfoChildrenFresh(b.children);
    SignedInfoChildOrder(b.children, b.childOrder.value);
    SignedInfoAttributes(k, b.attributes, b.children);
  }

  // SignatureValue

  lemma SignatureValueAttributes(k: Kind, attrs: seq<AttributeEntry>, cs: seq<ChildEntry>)
    requires k == SignatureValue && attrs == SignatureValueBody.attributes && cs == SignatureValueBody.children
    ensures AttributesFresh(k, attrs, 0, {}, FieldSet(cs, 0))
  {
  }

  lemma SignatureValueWellWritten(k: Kind)
    requires k == SignatureValue
    ensures WellWritten(k, BodyOf(k))
  {
    SignatureValueBodyWellWritten(k, BodyOf(k));
  }

  lemma SignatureValueBodyWellWritten(k: Kind, b: ClassBody)
    requires k == SignatureValue && b == SignatureValueBody
    ensures WellWritten(k, b)
  {
    SignatureValueAttributes(k, b.attributes, b.children);
  }

  // Signature

  lemma SignatureChildrenTyped(k: Kind, cs: seq<ChildEntry>)
    requires k == Signature && cs == SignatureBody.children
    ensures ChildrenTyped(k, cs)
  {
  }

  lemma SignatureChildrenFresh(cs: seq<ChildEntry>)
    requires cs == SignatureBody.children
    ensures ChildrenFresh(cs, 0, {}, {})
  {
  }

  lemma SignatureChildOrder(cs: seq<ChildEntry>, order: seq<Name>)
    requires cs == SignatureBody.children && order == SignatureBody.childOrder.value
    ensures OrderFollows(cs, order)
  {
  }

  lemma SignatureAttributes(k: Kind, attrs: seq<AttributeEntry>, cs: seq<ChildEntry>)
    requires k == Signature && attrs == SignatureBody.attributes && cs == SignatureBody.children
    ensures AttributesFresh(k, attrs, 0, {}, FieldSet(cs, 0))
  {
  }

  lemma SignatureWellWritten(k: Kind)
    requires k == Signature
    ensures WellWritten(k, BodyOf(k))
  {
    SignatureBodyWellWritten(k, BodyOf(k));
  }

  lemma SignatureBodyWellWritten(k: Kind, b: ClassBody)
    requires k == Signature && b == SignatureBody
    ensures WellWritten(k, b)
  {
    SignatureChildrenTyped(k, b.children);
    SignatureChildrenFresh(b.children);
    SignatureChildOrder(b.children, b.childOrder.value);
    SignatureAttributes(k, b.attributes, b.children);
  }

  /** The classes that describe keys. */
  predicate KeyClass(k: Kind)
  {
    k in {Object, SPKIData, PGPData, X509IssuerSerial, X509Data, RSAKeyValue, DSAKeyValue, KeyValue, KeyInfo, RetrievalMethod}
  }

  /** The classes that describe a reference and how its digest is taken. */
  predicate ReferenceClass(k: Kind)
  {
    k in {Transform, Transforms, DigestMethod, Reference}
  }

  /** The classes that make up the signature around its references. */
  predicate SignatureClass(k: Kind)
  {
    k in {SignatureMethod, CanonicalizationMethod, SignedInfo, SignatureValue, Signature}
  }

  lemma KeyTablesWellWritten(k: Kind)
    ensures KeyClass(k) ==> WellWritten(k, BodyOf(k))
  {
    if k == Object {
      ObjectWellWritten(k);
    } else if k == SPKIData {
      SPKIDataWellWritten(k);
    } else if k == PGPData {
      PGPDataWellWritten(k);
    } else if k == X509IssuerSerial {
      X509IssuerSerialWellWritten(k);
    } else if k == X509Data {
      X509DataWellWritten(k);
    } else if k == RetrievalMethod {
      RetrievalMethodWellWritten(k);
    } else if k == RSAKeyValue {
      RSAKeyValueWellWritten(k);
    } else if k == DSAKeyValue {
      DSAKeyValueWellWritten(k);
    } else if k == KeyValue {
      KeyValueWellWritten(k);
    } else if k == KeyInfo {
      KeyInfoWellWritten(k);
    }
  }

  lemma ReferenceTablesWellWritten(k: Kind)
    ensures ReferenceClass(k) ==> WellWritten(k, BodyOf(k))
  {
    if k == Transform {
      TransformWellWritten(k);
    } else if k == Transforms {
      TransformsWellWritten(k);
    } else if k == DigestMethod {
      DigestMethodWellWritten(k);
    } else if k == Reference {
      ReferenceWellWritten(k);
    }
  }

  lemma SignatureTablesWellWritten(k: Kind)
    ensures SignatureClass(k) ==> WellWritten(k, BodyOf(k))
  {
    if k == SignatureMethod {
      SignatureMethodWellWritten(k);
    } else if k == CanonicalizationMethod {
      CanonicalizationMethodWellWritten(k);
    } else if k == SignedInfo {
      SignedInfoWellWritten(k);
    } else if k == SignatureValue {
      SignatureValueWellWritten(k);
    } else if k == Signature {
      SignatureWellWritten(k);
    }
  }

  /** Every class body, as written, passes every check. */
  lemma TablesWellWritten(k: Kind)
    ensures WellWritten(k, BodyOf(k))
  {
    KeyTablesWellWritten(k);
    ReferenceTablesWellWritten(k);
    SignatureTablesWellWritten(k);
    if !KeyClass(k) && !ReferenceClass(k) && !SignatureClass(k) {
      LeafWellWritten(k);
    }
  }

  /** A leaf class declares nothing, so there is nothing to check. */
  lemma LeafWellWritten(k: Kind)
    requires BodyOf(k) == Declare(DsNamespace)
    ensures WellWritten(k, BodyOf(k))
  {
  }
}
