/** The checks of InitAgreement, run on the `__init__` of every class in
    src/xmldsig/__init__.py:72-1029 against that class's body, and gathered
    for every class by `InitTablesAgree`. */
module InitChecks {
  import opened Constants
  import opened Names
  import opened Descriptors
  import opened DescriptorProperties
  import opened Elements
  import opened InitAgreement

  // Object

  lemma ObjectParamsFresh(ps: seq<Param>)
    requires ps == ObjectInit
    ensures ParamsFresh(ps, 0, BaseNames, {})
  {
  }

  lemma ObjectParamsNamed(k: Kind, ps: seq<Param>)
    requires k == Object && ps == ObjectInit
    ensures ParamsNamed(k, ps, 0)
  {
  }

  lemma ObjectParamsDeclared(ps: seq<Param>, cs: seq<ChildEntry>, attrs: seq<AttributeEntry>)
    requires ps == ObjectInit && cs == ObjectBody.children && attrs == ObjectBody.attributes
    ensures ParamsDeclared(ps, 0, FieldSet(cs, 0) + AttributeFieldSet(attrs, 0))
  {
  }

  lemma ObjectRulesFit(k: Kind, ps: seq<Param>, cs: seq<ChildEntry>)
    requires k == Object && ps == ObjectInit && cs == ObjectBody.children
    ensures RulesFit(k, ps, 0, ListFieldSet(cs, 0))
  {
  }

  lemma ObjectFieldsCovered(ps: seq<Param>, cs: seq<ChildEntry>, attrs: seq<AttributeEntry>)
    requires ps == ObjectInit && cs == ObjectBody.children && attrs == ObjectBody.attributes
    ensures ChildrenCovered(cs, 0, ParamFieldSet(ps, 0)) && AttributesCovered(attrs, 0, ParamFieldSet(ps, 0))
  {
  }

  lemma ObjectInitAgrees(k: Kind)
    requires k == Object
    ensures InitAgrees(k, InitParams(k), BodyOf(k))
  {
    var ps, b := InitParams(k), BodyOf(k);
    assert ps == ObjectInit;
    assert b == ObjectBody;
    ObjectParamsFresh(ps);
    ObjectParamsNamed(k, ps);
    ObjectParamsDeclared(ps, b.children, b.attributes);
    ObjectRulesFit(k, ps, b.children);
    ObjectFieldsCovered(ps, b.children, b.attributes);
  }

  // SPKIData

  lemma SPKIDataParamsFresh(ps: seq<Param>)
    requires ps == SPKIDataInit
    ensures ParamsFresh(ps, 0, BaseNames, {})
  {
  }

  lemma SPKIDataParamsNamed(k: Kind, ps: seq<Param>)
    requires k == SPKIData && ps == SPKIDataInit
    ensures ParamsNamed(k, ps, 0)
  {
  }

  lemma SPKIDataParamsDeclared(ps: seq<Param>, cs: seq<ChildEntry>, attrs: seq<AttributeEntry>)
    requires ps == SPKIDataInit && cs == SPKIDataBody.children && attrs == SPKIDataBody.attributes
    ensures ParamsDeclared(ps, 0, FieldSet(cs, 0) + AttributeFieldSet(attrs, 0))
  {
  }

  lemma SPKIDataRulesFit(k: Kind, ps: seq<Param>, cs: seq<ChildEntry>)
    requires k == SPKIData && ps == SPKIDataInit && cs == SPKIDataBody.children
    ensures RulesFit(k, ps, 0, ListFieldSet(cs, 0))
  {
  }

  lemma SPKIDataFieldsCovered(ps: seq<Param>, cs: seq<ChildEntry>, attrs: seq<AttributeEntry>)
    requires ps == SPKIDataInit && cs == SPKIDataBody.children && attrs == SPKIDataBody.attributes
    ensures ChildrenCovered(cs, 0, ParamFieldSet(ps, 0)) && AttributesCovered(attrs, 0, ParamFieldSet(ps, 0))
  {
  }

  lemma SPKIDataInitAgrees(k: Kind)
    requires k == SPKIData
    ensures InitAgrees(k, InitParams(k), BodyOf(k))
  {
    var ps, b := InitParams(k), BodyOf(k);
    assert ps == SPKIDataInit;
    assert b == SPKIDataBody;
    SPKIDataParamsFresh(ps);
    SPKIDataParamsNamed(k, ps);
    SPKIDataParamsDeclared(ps, b.children, b.attributes);
    SPKIDataRulesFit(k, ps, b.children);
    SPKIDataFieldsCovered(ps, b.children, b.attributes);
  }

  // PGPData

  lemma PGPDataParamsFresh(ps: seq<Param>)
    requires ps == PGPDataInit
    ensures ParamsFresh(ps, 0, BaseNames, {})
  {
  }

  lemma PGPDataParamsNamed(k: Kind, ps: seq<Param>)
    requires k == PGPData && ps == PGPDataInit
    ensures ParamsNamed(k, ps, 0)
  {
  }

  lemma PGPDataParamsDeclared(ps: seq<Param>, cs: seq<ChildEntry>, attrs: seq<AttributeEntry>)
    requires ps == PGPDataInit && cs == PGPDataBody.children && attrs == PGPDataBody.attributes
    ensures ParamsDeclared(ps, 0, FieldSet(cs, 0) + AttributeFieldSet(attrs, 0))
  {
  }

  lemma PGPDataRulesFit(k: Kind, ps: seq<Param>, cs: seq<ChildEntry>)
    requires k == PGPData && ps == PGPDataInit && cs == PGPDataBody.children
    ensures RulesFit(k, ps, 0, ListFieldSet(cs, 0))
  {
  }

  lemma PGPDataFieldsCovered(ps: seq<Param>, cs: seq<ChildEntry>, attrs: seq<AttributeEntry>)
    requires ps == PGPDataInit && cs == PGPDataBody.children && attrs == PGPDataBody.attributes
    ensures ChildrenCovered(cs, 0, ParamFieldSet(ps, 0)) && AttributesCovered(attrs, 0, ParamFieldSet(ps, 0))
  {
  }

  lemma PGPDataInitAgrees(k: Kind)
    requires k == PGPData
    ensures InitAgrees(k, InitParams(k), BodyOf(k))
  {
    var ps, b := InitParams(k), BodyOf(k);
    assert ps == PGPDataInit;
    assert b == PGPDataBody;
    PGPDataParamsFresh(ps);
    PGPDataParamsNamed(k, ps);
    PGPDataParamsDeclared(ps, b.children, b.attributes);
    PGPDataRulesFit(k, ps, b.children);
    PGPDataFieldsCovered(ps, b.children, b.attributes);
  }

  // X509IssuerSerial

  lemma X509IssuerSerialParamsFresh(ps: seq<Param>)
    requires ps == X509IssuerSerialInit
    ensures ParamsFresh(ps, 0, BaseNames, {})
  {
  }

  lemma X509IssuerSerialParamsNamed(k: Kind, ps: seq<Param>)
    requires k == X509IssuerSerial && ps == X509IssuerSerialInit
    ensures ParamsNamed(k, ps, 0)
  {
  }

  lemma X509IssuerSerialParamsDeclared(ps: seq<Param>, cs: seq<ChildEntry>, attrs: seq<AttributeEntry>)
    requires ps == X509IssuerSerialInit && cs == X509IssuerSerialBody.children && attrs == X509IssuerSerialBody.attributes
    ensures ParamsDeclared(ps, 0, FieldSet(cs, 0) + AttributeFieldSet(attrs, 0))
  {
  }

  lemma X509IssuerSerialRulesFit(k: Kind, ps: seq<Param>, cs: seq<ChildEntry>)
    requires k == X509IssuerSerial && ps == X509IssuerSerialInit && cs == X509IssuerSerialBody.children
    ensures RulesFit(k, ps, 0, ListFieldSet(cs, 0))
  {
  }

  lemma X509IssuerSerialFieldsCovered(ps: seq<Param>, cs: seq<ChildEntry>, attrs: seq<AttributeEntry>)
    requires ps == X509IssuerSerialInit && cs == X509IssuerSerialBody.children && attrs == X509IssuerSerialBody.attributes
    ensures ChildrenCovered(cs, 0, ParamFieldSet(ps, 0)) && AttributesCovered(attrs, 0, ParamFieldSet(ps, 0))
  {
  }

  lemma X509IssuerSerialInitAgrees(k: Kind)
    requires k == X509IssuerSerial
    ensures InitAgrees(k, InitParams(k), BodyOf(k))
  {
    var ps, b := InitParams(k), BodyOf(k);
    assert ps == X509IssuerSerialInit;
    assert b == X509IssuerSerialBody;
    X509IssuerSerialParamsFresh(ps);
    X509IssuerSerialParamsNamed(k, ps);
    X509IssuerSerialParamsDeclared(ps, b.children, b.attributes);
    X509IssuerSerialRulesFit(k, ps, b.children);
    X509IssuerSerialFieldsCovered(ps, b.children, b.attributes);
  }

  // X509Data

  lemma X509DataParamsFresh(ps: seq<Param>)
    requires ps == X509DataInit
    ensures ParamsFresh(ps, 0, BaseNames, {})
  {
  }

  lemma X509DataParamsNamed(k: Kind, ps: seq<Param>)
    requires k == X509Data && ps == X509DataInit
    ensures ParamsNamed(k, ps, 0)
  {
  }

  lemma X509DataParamsDeclared(ps: seq<Param>, cs: seq<ChildEntry>, attrs: seq<AttributeEntry>)
    requires ps == X509DataInit && cs == X509DataBody.children && attrs == X509DataBody.attributes
    ensures ParamsDeclared(ps, 0, FieldSet(cs, 0) + AttributeFieldSet(attrs, 0))
  {
  }

  lemma X509DataRulesFit(k: Kind, ps: seq<Param>, cs: seq<ChildEntry>)
    requires k == X509Data && ps == X509DataInit && cs == X509DataBody.children
    ensures RulesFit(k, ps, 0, ListFieldSet(cs, 0))
  {
  }

  lemma X509DataFieldsCovered(ps: seq<Param>, cs: seq<ChildEntry>, attrs: seq<AttributeEntry>)
    requires ps == X509DataInit && cs == X509DataBody.children && attrs == X509DataBody.attributes
    ensures ChildrenCovered(cs, 0, ParamFieldSet(ps, 0)) && AttributesCovered(attrs, 0, ParamFieldSet(ps, 0))
  {
  }

  lemma X509DataInitAgrees(k: Kind)
    requires k == X509Data
    ensures InitAgrees(k, InitParams(k), BodyOf(k))
  {
    var ps, b := InitParams(k), BodyOf(k);
    assert ps == X509DataInit;
    assert b == X509DataBody;
    X509DataParamsFresh(ps);
    X509DataParamsNamed(k, ps);
    X509DataParamsDeclared(ps, b.children, b.attributes);
    X509DataRulesFit(k, ps, b.children);
    X509DataFieldsCovered(ps, b.children, b.attributes);
  }

  // Transform

  lemma TransformParamsFresh(ps: seq<Param>)
    requires ps == TransformInit
    ensures ParamsFresh(ps, 0, BaseNames, {})
  {
  }

  lemma TransformParamsNamed(k: Kind, ps: seq<Param>)
    requires k == Transform && ps == TransformInit
    ensures ParamsNamed(k, ps, 0)
  {
  }

  lemma TransformParamsDeclared(ps: seq<Param>, cs: seq<ChildEntry>, attrs: seq<AttributeEntry>)
    requires ps == TransformInit && cs == TransformBody.children && attrs == TransformBody.attributes
    ensures ParamsDeclared(ps, 0, FieldSet(cs, 0) + AttributeFieldSet(attrs, 0))
  {
  }

  lemma TransformRulesFit(k: Kind, ps: seq<Param>, cs: seq<ChildEntry>)
    requires k == Transform && ps == TransformInit && cs == TransformBody.children
    ensures RulesFit(k, ps, 0, ListFieldSet(cs, 0))
  {
  }

  lemma TransformFieldsCovered(ps: seq<Param>, cs: seq<ChildEntry>, attrs: seq<AttributeEntry>)
    requires ps == TransformInit && cs == TransformBody.children && attrs == TransformBody.attributes
    ensures ChildrenCovered(cs, 0, ParamFieldSet(ps, 0)) && AttributesCovered(attrs, 0, ParamFieldSet(ps, 0))
  {
  }

  lemma TransformInitAgrees(k: Kind)
    requires k == Transform
    ensures InitAgrees(k, InitParams(k), BodyOf(k))
  {
    var ps, b := InitParams(k), BodyOf(k);
    assert ps == TransformInit;
    assert b == TransformBody;
    TransformParamsFresh(ps);
    TransformParamsNamed(k, ps);
    TransformParamsDeclared(ps, b.children, b.attributes);
    TransformRulesFit(k, ps, b.children);
    TransformFieldsCovered(ps, b.children, b.attributes);
  }

  // Transforms

  lemma TransformsParamsFresh(ps: seq<Param>)
    requires ps == TransformsInit
    ensures ParamsFresh(ps, 0, BaseNames, {})
  {
  }

  lemma TransformsParamsNamed(k: Kind, ps: seq<Param>)
    requires k == Transforms && ps == TransformsInit
    ensures ParamsNamed(k, ps, 0)
  {
  }

  lemma TransformsParamsDeclared(ps: seq<Param>, cs: seq<ChildEntry>, attrs: seq<AttributeEntry>)
    requires ps == TransformsInit && cs == TransformsBody.children && attrs == TransformsBody.attributes
    ensures ParamsDeclared(ps, 0, FieldSet(cs, 0) + AttributeFieldSet(attrs, 0))
  {
  }

  lemma TransformsRulesFit(k: Kind, ps: seq<Param>, cs: seq<ChildEntry>)
    requires k == Transforms && ps == TransformsInit && cs == TransformsBody.children
    ensures RulesFit(k, ps, 0, ListFieldSet(cs, 0))
  {
  }

  lemma TransformsFieldsCovered(ps: seq<Param>, cs: seq<ChildEntry>, attrs: seq<AttributeEntry>)
    requires ps == TransformsInit && cs == TransformsBody.children && attrs == TransformsBody.attributes
    ensures ChildrenCovered(cs, 0, ParamFieldSet(ps, 0)) && AttributesCovered(attrs, 0, ParamFieldSet(ps, 0))
  {
  }

  lemma TransformsInitAgrees(k: Kind)
    requires k == Transforms
    ensures InitAgrees(k, InitParams(k), BodyOf(k))
  {
    var ps, b := InitParams(k), BodyOf(k);
    assert ps == TransformsInit;
    assert b == TransformsBody;
    TransformsParamsFresh(ps);
    TransformsParamsNamed(k, ps);
    TransformsParamsDeclared(ps, b.children, b.attributes);
    TransformsRulesFit(k, ps, b.children);
    TransformsFieldsCovered(ps, b.children, b.attributes);
  }

  // RetrievalMethod

  lemma RetrievalMethodParamsFresh(ps: seq<Param>)
    requires ps == RetrievalMethodInit
    ensures ParamsFresh(ps, 0, BaseNames, {})
  {
  }

  lemma RetrievalMethodParamsNamed(k: Kind, ps: seq<Param>)
    requires k == RetrievalMethod && ps == RetrievalMethodInit
    ensures ParamsNamed(k, ps, 0)
  {
  }

  lemma RetrievalMethodParamsDeclared(ps: seq<Param>, cs: seq<ChildEntry>, attrs: seq<AttributeEntry>)
    requires ps == RetrievalMethodInit && cs == RetrievalMethodBody.children && attrs == RetrievalMethodBody.attributes
    ensures ParamsDeclared(ps, 0, FieldSet(cs, 0) + AttributeFieldSet(attrs, 0))
  {
  }

  lemma RetrievalMethodRulesFit(k: Kind, ps: seq<Param>, cs: seq<ChildEntry>)
    requires k == RetrievalMethod && ps == RetrievalMethodInit && cs == RetrievalMethodBody.children
    ensures RulesFit(k, ps, 0, ListFieldSet(cs, 0))
  {
  }

  lemma RetrievalMethodFieldsCovered(ps: seq<Param>, cs: seq<ChildEntry>, attrs: seq<AttributeEntry>)
    requires ps == RetrievalMethodInit && cs == RetrievalMethodBody.children && attrs == RetrievalMethodBody.attributes
    ensures ChildrenCovered(cs, 0, ParamFieldSet(ps, 0)) && AttributesCovered(attrs, 0, ParamFieldSet(ps, 0))
  {
  }

  lemma RetrievalMethodInitAgrees(k: Kind)
    requires k == RetrievalMethod
    ensures InitAgrees(k, InitParams(k), BodyOf(k))
  {
    var ps, b := InitParams(k), BodyOf(k);
    assert ps == RetrievalMethodInit;
    assert b == RetrievalMethodBody;
    RetrievalMethodParamsFresh(ps);
    RetrievalMethodParamsNamed(k, ps);
    RetrievalMethodParamsDeclared(ps, b.children, b.attributes);
    RetrievalMethodRulesFit(k, ps, b.children);
    RetrievalMethodFieldsCovered(ps, b.children, b.attributes);
  }

  // RSAKeyValue

  lemma RSAKeyValueParamsFresh(ps: seq<Param>)
    requires ps == RSAKeyValueInit
    ensures ParamsFresh(ps, 0, BaseNames, {})
  {
  }

  lemma RSAKeyValueParamsNamed(k: Kind, ps: seq<Param>)
    requires k == RSAKeyValue && ps == RSAKeyValueInit
    ensures ParamsNamed(k, ps, 0)
  {
  }

  lemma RSAKeyValueParamsDeclared(ps: seq<Param>, cs: seq<ChildEntry>, attrs: seq<AttributeEntry>)
    requires ps == RSAKeyValueInit && cs == RSAKeyValueBody.children && attrs == RSAKeyValueBody.attributes
    ensures ParamsDeclared(ps, 0, FieldSet(cs, 0) + AttributeFieldSet(attrs, 0))
  {
  }

  lemma RSAKeyValueRulesFit(k: Kind, ps: seq<Param>, cs: seq<ChildEntry>)
    requires k == RSAKeyValue && ps == RSAKeyValueInit && cs == RSAKeyValueBody.children
    ensures RulesFit(k, ps, 0, ListFieldSet(cs, 0))
  {
  }

  lemma RSAKeyValueFieldsCovered(ps: seq<Param>, cs: seq<ChildEntry>, attrs: seq<AttributeEntry>)
    requires ps == RSAKeyValueInit && cs == RSAKeyValueBody.children && attrs == RSAKeyValueBody.attributes
    ensures ChildrenCovered(cs, 0, ParamFieldSet(ps, 0)) && AttributesCovered(attrs, 0, ParamFieldSet(ps, 0))
  {
  }

  lemma RSAKeyValueInitAgrees(k: Kind)
    requires k == RSAKeyValue
    ensures InitAgrees(k, InitParams(k), BodyOf(k))
  {
    var ps, b := InitParams(k), BodyOf(k);
    assert ps == RSAKeyValueInit;
    assert b == RSAKeyValueBody;
    RSAKeyValueParamsFresh(ps);
    RSAKeyValueParamsNamed(k, ps);
    RSAKeyValueParamsDeclared(ps, b.children, b.attributes);
    RSAKeyValueRulesFit(k, ps, b.children);
    RSAKeyValueFieldsCovered(ps, b.children, b.attributes);
  }

  // DSAKeyValue

  lemma DSAKeyValueParamsFresh(ps: seq<Param>)
    requires ps == DSAKeyValueInit
    ensures ParamsFresh(ps, 0, BaseNames, {})
  {
  }

  lemma DSAKeyValueParamsNamed(k: Kind, ps: seq<Param>)
    requires k == DSAKeyValue && ps == DSAKeyValueInit
    ensures ParamsNamed(k, ps, 0)
  {
  }

  lemma DSAKeyValueParamsDeclared(ps: seq<Param>, cs: seq<ChildEntry>, attrs: seq<AttributeEntry>)
    requires ps == DSAKeyValueInit && cs == DSAKeyValueBody.children && attrs == DSAKeyValueBody.attributes
    ensures ParamsDeclared(ps, 0, FieldSet(cs, 0) + AttributeFieldSet(attrs, 0))
  {
  }

  lemma DSAKeyValueRulesFit(k: Kind, ps: seq<Param>, cs: seq<ChildEntry>)
    requires k == DSAKeyValue && ps == DSAKeyValueInit && cs == DSAKeyValueBody.children
    ensures RulesFit(k, ps, 0, ListFieldSet(cs, 0))
  {
  }

  lemma DSAKeyValueFieldsCovered(ps: seq<Param>, cs: seq<ChildEntry>, attrs: seq<AttributeEntry>)
    requires ps == DSAKeyValueInit && cs == DSAKeyValueBody.children && attrs == DSAKeyValueBody.attributes
    ensures ChildrenCovered(cs, 0, ParamFieldSet(ps, 0)) && AttributesCovered(attrs, 0, ParamFieldSet(ps, 0))
  {
  }

  lemma DSAKeyValueInitAgrees(k: Kind)
    requires k == DSAKeyValue
    ensures InitAgrees(k, InitParams(k), BodyOf(k))
  {
    var ps, b := InitParams(k), BodyOf(k);
    assert ps == DSAKeyValueInit;
    assert b == DSAKeyValueBody;
    DSAKeyValueParamsFresh(ps);
    DSAKeyValueParamsNamed(k, ps);
    DSAKeyValueParamsDeclared(ps, b.children, b.attributes);
    DSAKeyValueRulesFit(k, ps, b.children);
    DSAKeyValueFieldsCovered(ps, b.children, b.attributes);
  }

  // KeyValue

  lemma KeyValueParamsFresh(ps: seq<Param>)
    requires ps == KeyValueInit
    ensures ParamsFresh(ps, 0, BaseNames, {})
  {
  }

  lemma KeyValueParamsNamed(k: Kind, ps: seq<Param>)
    requires k == KeyValue && ps == KeyValueInit
    ensures ParamsNamed(k, ps, 0)
  {
  }

  lemma KeyValueParamsDeclared(ps: seq<Param>, cs: seq<ChildEntry>, attrs: seq<AttributeEntry>)
    requires ps == KeyValueInit && cs == KeyValueBody.children && attrs == KeyValueBody.attributes
    ensures ParamsDeclared(ps, 0, FieldSet(cs, 0) + AttributeFieldSet(attrs, 0))
  {
  }

  lemma KeyValueRulesFit(k: Kind, ps: seq<Param>, cs: seq<ChildEntry>)
    requires k == KeyValue && ps == KeyValueInit && cs == KeyValueBody.children
    ensures RulesFit(k, ps, 0, ListFieldSet(cs, 0))
  {
  }

  lemma KeyValueFieldsCovered(ps: seq<Param>, cs: seq<ChildEntry>, attrs: seq<AttributeEntry>)
    requires ps == KeyValueInit && cs == KeyValueBody.children && attrs == KeyValueBody.attributes
    ensures ChildrenCovered(cs, 0, ParamFieldSet(ps, 0)) && AttributesCovered(attrs, 0, ParamFieldSet(ps, 0))
  {
  }

  lemma KeyValueInitAgrees(k: Kind)
    requires k == KeyValue
    ensures InitAgrees(k, InitParams(k), BodyOf(k))
  {
    var ps, b := InitParams(k), BodyOf(k);
    assert ps == KeyValueInit;
    assert b == KeyValueBody;
    KeyValueParamsFresh(ps);
    KeyValueParamsNamed(k, ps);
    KeyValueParamsDeclared(ps, b.children, b.attributes);
    KeyValueRulesFit(k, ps, b.children);
    KeyValueFieldsCovered(ps, b.children, b.attributes);
  }

  // KeyInfo

  lemma KeyInfoParamsFresh(ps: seq<Param>)
    requires ps == KeyInfoInit
    ensures ParamsFresh(ps, 0, BaseNames, {})
  {
  }

  lemma KeyInfoParamsNamed(k: Kind, ps: seq<Param>)
    requires k == KeyInfo && ps == KeyInfoInit
    ensures ParamsNamed(k, ps, 0)
  {
  }

  lemma KeyInfoParamsDeclared(ps: seq<Param>, cs: seq<ChildEntry>, attrs: seq<AttributeEntry>)
    requires ps == KeyInfoInit && cs == KeyInfoBody.children && attrs == KeyInfoBody.attributes
    ensures ParamsDeclared(ps, 0, FieldSet(cs, 0) + AttributeFieldSet(attrs, 0))
  {
  }

  lemma KeyInfoRulesFit(k: Kind, ps: seq<Param>, cs: seq<ChildEntry>)
    requires k == KeyInfo && ps == KeyInfoInit && cs == KeyInfoBody.children
    ensures RulesFit(k, ps, 0, ListFieldSet(cs, 0))
  {
  }

  lemma KeyInfoFieldsCovered(ps: seq<Param>, cs: seq<ChildEntry>, attrs: seq<AttributeEntry>)
    requires ps == KeyInfoInit && cs == KeyInfoBody.children && attrs == KeyInfoBody.attributes
    ensures ChildrenCovered(cs, 0, ParamFieldSet(ps, 0)) && AttributesCovered(attrs, 0, ParamFieldSet(ps, 0))
  {
  }

  lemma KeyInfoInitAgrees(k: Kind)
    requires k == KeyInfo
    ensures InitAgrees(k, InitParams(k), BodyOf(k))
  {
    var ps, b := InitParams(k), BodyOf(k);
    assert ps == KeyInfoInit;
    assert b == KeyInfoBody;
    KeyInfoParamsFresh(ps);
    KeyInfoParamsNamed(k, ps);
    KeyInfoParamsDeclared(ps, b.children, b.attributes);
    KeyInfoRulesFit(k, ps, b.children);
    KeyInfoFieldsCovered(ps, b.children, b.attributes);
  }

  // DigestMethod

  lemma DigestMethodParamsFresh(ps: seq<Param>)
    requires ps == DigestMethodInit
    ensures ParamsFresh(ps, 0, BaseNames, {})
  {
  }

  lemma DigestMethodParamsNamed(k: Kind, ps: seq<Param>)
    requires k == DigestMethod && ps == DigestMethodInit
    ensures ParamsNamed(k, ps, 0)
  {
  }

  lemma DigestMethodParamsDeclared(ps: seq<Param>, cs: seq<ChildEntry>, attrs: seq<AttributeEntry>)
    requires ps == DigestMethodInit && cs == DigestMethodBody.children && attrs == DigestMethodBody.attributes
    ensures ParamsDeclared(ps, 0, FieldSet(cs, 0) + AttributeFieldSet(attrs, 0))
  {
  }

  lemma DigestMethodRulesFit(k: Kind, ps: seq<Param>, cs: seq<ChildEntry>)
    requires k == DigestMethod && ps == DigestMethodInit && cs == DigestMethodBody.children
    ensures RulesFit(k, ps, 0, ListFieldSet(cs, 0))
  {
  }

  lemma DigestMethodFieldsCovered(ps: seq<Param>, cs: seq<ChildEntry>, attrs: seq<AttributeEntry>)
    requires ps == DigestMethodInit && cs == DigestMethodBody.children && attrs == DigestMethodBody.attributes
    ensures ChildrenCovered(cs, 0, ParamFieldSet(ps, 0)) && AttributesCovered(attrs, 0, ParamFieldSet(ps, 0))
  {
  }

  lemma DigestMethodInitAgrees(k: Kind)
    requires k == DigestMethod
    ensures InitAgrees(k, InitParams(k), BodyOf(k))
  {
    var ps, b := InitParams(k), BodyOf(k);
    assert ps == DigestMethodInit;
    assert b == DigestMethodBody;
    DigestMethodParamsFresh(ps);
    DigestMethodParamsNamed(k, ps);
    DigestMethodParamsDeclared(ps, b.children, b.attributes);
    DigestMethodRulesFit(k, ps, b.children);
    DigestMethodFieldsCovered(ps, b.children, b.attributes);
  }

  // Reference

  lemma ReferenceParamsFresh(ps: seq<Param>)
    requires ps == ReferenceInit
    ensures ParamsFresh(ps, 0, BaseNames, {})
  {
  }

  lemma ReferenceParamsNamed(k: Kind, ps: seq<Param>)
    requires k == Reference && ps == ReferenceInit
    ensures ParamsNamed(k, ps, 0)
  {
  }

  lemma ReferenceParamsDeclared(ps: seq<Param>, cs: seq<ChildEntry>, attrs: seq<AttributeEntry>)
    requires ps == ReferenceInit && cs == ReferenceBody.children && attrs == ReferenceBody.attributes
    ensures ParamsDeclared(ps, 0, FieldSet(cs, 0) + AttributeFieldSet(attrs, 0))
  {
  }

  lemma ReferenceRulesFit(k: Kind, ps: seq<Param>, cs: seq<ChildEntry>)
    requires k == Reference && ps == ReferenceInit && cs == ReferenceBody.children
    ensures RulesFit(k, ps, 0, ListFieldSet(cs, 0))
  {
  }

  lemma ReferenceFieldsCovered(ps: seq<Param>, cs: seq<ChildEntry>, attrs: seq<AttributeEntry>)
    requires ps == ReferenceInit && cs == ReferenceBody.children && attrs == ReferenceBody.attributes
    ensures ChildrenCovered(cs, 0, ParamFieldSet(ps, 0)) && AttributesCovered(attrs, 0, ParamFieldSet(ps, 0))
  {
  }

  lemma ReferenceInitAgrees(k: Kind)
    requires k == Reference
    ensures InitAgrees(k, InitParams(k), BodyOf(k))
  {
    var ps, b := InitParams(k), BodyOf(k);
    assert ps == ReferenceInit;
    assert b == ReferenceBody;
    ReferenceParamsFresh(ps);
    ReferenceParamsNamed(k, ps);
    ReferenceParamsDeclared(ps, b.children, b.attributes);
    ReferenceRulesFit(k, ps, b.children);
    ReferenceFieldsCovered(ps, b.children, b.attributes);
  }

  // SignatureMethod

  lemma SignatureMethodParamsFresh(ps: seq<Param>)
    requires ps == SignatureMethodInit
    ensures ParamsFresh(ps, 0, BaseNames, {})
  {
  }

  lemma SignatureMethodParamsNamed(k: Kind, ps: seq<Param>)
    requires k == SignatureMethod && ps == SignatureMethodInit
    ensures ParamsNamed(k, ps, 0)
  {
  }

  lemma SignatureMethodParamsDeclared(ps: seq<Param>, cs: seq<ChildEntry>, attrs: seq<AttributeEntry>)
    requires ps == SignatureMethodInit && cs == SignatureMethodBody.children && attrs == SignatureMethodBody.attributes
    ensures ParamsDeclared(ps, 0, FieldSet(cs, 0) + AttributeFieldSet(attrs, 0))
  {
  }

  lemma SignatureMethodRulesFit(k: Kind, ps: seq<Param>, cs: seq<ChildEntry>)
    requires k == SignatureMethod && ps == SignatureMethodInit && cs == SignatureMethodBody.children
    ensures RulesFit(k, ps, 0, ListFieldSet(cs, 0))
  {
  }

  lemma SignatureMethodFieldsCovered(ps: seq<Param>, cs: seq<ChildEntry>, attrs: seq<AttributeEntry>)
    requires ps == SignatureMethodInit && cs == SignatureMethodBody.children && attrs == SignatureMethodBody.attributes
    ensures ChildrenCovered(cs, 0, ParamFieldSet(ps, 0)) && AttributesCovered(attrs, 0, ParamFieldSet(ps, 0))
  {
  }

  lemma SignatureMethodInitAgrees(k: Kind)
    requires k == SignatureMethod
    ensures InitAgrees(k, InitParams(k), BodyOf(k))
  {
    var ps, b := InitParams(k), BodyOf(k);
    assert ps == SignatureMethodInit;
    assert b == SignatureMethodBody;
    SignatureMethodParamsFresh(ps);
    SignatureMethodParamsNamed(k, ps);
    SignatureMethodParamsDeclared(ps, b.children, b.attributes);
    SignatureMethodRulesFit(k, ps, b.children);
    SignatureMethodFieldsCovered(ps, b.children, b.attributes);
  }

  // CanonicalizationMethod

  lemma CanonicalizationMethodParamsFresh(ps: seq<Param>)
    requires ps == CanonicalizationMethodInit
    ensures ParamsFresh(ps, 0, BaseNames, {})
  {
  }

  lemma CanonicalizationMethodParamsNamed(k: Kind, ps: seq<Param>)
    requires k == CanonicalizationMethod && ps == CanonicalizationMethodInit
    ensures ParamsNamed(k, ps, 0)
  {
  }

  lemma CanonicalizationMethodParamsDeclared(ps: seq<Param>, cs: seq<ChildEntry>, attrs: seq<AttributeEntry>)
    requires ps == CanonicalizationMethodInit && cs == CanonicalizationMethodBody.children && attrs == CanonicalizationMethodBody.attributes
    ensures ParamsDeclared(ps, 0, FieldSet(cs, 0) + AttributeFieldSet(attrs, 0))
  {
  }

  lemma CanonicalizationMethodRulesFit(k: Kind, ps: seq<Param>, cs: seq<ChildEntry>)
    requires k == CanonicalizationMethod && ps == CanonicalizationMethodInit && cs == CanonicalizationMethodBody.children
    ensures RulesFit(k, ps, 0, ListFieldSet(cs, 0))
  {
  }

  lemma CanonicalizationMethodFieldsCovered(ps: seq<Param>, cs: seq<ChildEntry>, attrs: seq<AttributeEntry>)
    requires ps == CanonicalizationMethodInit && cs == CanonicalizationMethodBody.children && attrs == CanonicalizationMethodBody.attributes
    ensures ChildrenCovered(cs, 0, ParamFieldSet(ps, 0)) && AttributesCovered(attrs, 0, ParamFieldSet(ps, 0))
  {
  }

  lemma CanonicalizationMethodInitAgrees(k: Kind)
    requires k == CanonicalizationMethod
    ensures InitAgrees(k, InitParams(k), BodyOf(k))
  {
    var ps, b := InitParams(k), BodyOf(k);
    assert ps == CanonicalizationMethodInit;
    assert b == CanonicalizationMethodBody;
    CanonicalizationMethodParamsFresh(ps);
    CanonicalizationMethodParamsNamed(k, ps);
    CanonicalizationMethodParamsDeclared(ps, b.children, b.attributes);
    CanonicalizationMethodRulesFit(k, ps, b.children);
    CanonicalizationMethodFieldsCovered(ps, b.children, b.attributes);
  }

  // SignedInfo

  lemma SignedInfoParamsFresh(ps: seq<Param>)
    requires ps == SignedInfoInit
    ensures ParamsFresh(ps, 0, BaseNames, {})
  {
  }

  lemma SignedInfoParamsNamed(k: Kind, ps: seq<Param>)
    requires k == SignedInfo && ps == SignedInfoInit
    ensures ParamsNamed(k, ps, 0)
  {
  }

  lemma SignedInfoParamsDeclared(ps: seq<Param>, cs: seq<ChildEntry>, attrs: seq<AttributeEntry>)
    requires ps == SignedInfoInit && cs == SignedInfoBody.children && attrs == SignedInfoBody.attributes
    ensures ParamsDeclared(ps, 0, FieldSet(cs, 0) + AttributeFieldSet(attrs, 0))
  {
  }

  lemma SignedInfoRulesFit(k: Kind, ps: seq<Param>, cs: seq<ChildEntry>)
    requires k == SignedInfo && ps == SignedInfoInit && cs == SignedInfoBody.children
    ensures RulesFit(k, ps, 0, ListFieldSet(cs, 0))
  {
  }

  lemma SignedInfoFieldsCovered(ps: seq<Param>, cs: seq<ChildEntry>, attrs: seq<AttributeEntry>)
    requires ps == SignedInfoInit && cs == SignedInfoBody.children && attrs == SignedInfoBody.attributes
    ensures ChildrenCovered(cs, 0, ParamFieldSet(ps, 0)) && AttributesCovered(attrs, 0, ParamFieldSet(ps, 0))
  {
  }

  lemma SignedInfoInitAgrees(k: Kind)
    requires k == SignedInfo
    ensures InitAgrees(k, InitParams(k), BodyOf(k))
  {
    var ps, b := InitParams(k), BodyOf(k);
    assert ps == SignedInfoInit;
    assert b == SignedInfoBody;
    SignedInfoParamsFresh(ps);
    SignedInfoParamsNamed(k, ps);
    SignedInfoParamsDeclared(ps, b.children, b.attributes);
    SignedInfoRulesFit(k, ps, b.children);
    SignedInfoFieldsCovered(ps, b.children, b.attributes);
  }

  // SignatureValue

  lemma SignatureValueParamsFresh(ps: seq<Param>)
    requires ps == SignatureValueInit
    ensures ParamsFresh(ps, 0, BaseNames, {})
  {
  }

  lemma SignatureValueParamsNamed(k: Kind, ps: seq<Param>)
    requires k == SignatureValue && ps == SignatureValueInit
    ensures ParamsNamed(k, ps, 0)
  {
  }

  lemma SignatureValueParamsDeclared(ps: seq<Param>, cs: seq<ChildEntry>, attrs: seq<AttributeEntry>)
    requires ps == SignatureValueInit && cs == SignatureValueBody.children && attrs == SignatureValueBody.attributes
    ensures ParamsDeclared(ps, 0, FieldSet(cs, 0) + AttributeFieldSet(attrs, 0))
  {
  }

  lemma SignatureValueRulesFit(k: Kind, ps: seq<Param>, cs: seq<ChildEntry>)
    requires k == SignatureValue && ps == SignatureValueInit && cs == SignatureValueBody.children
    ensures RulesFit(k, ps, 0, ListFieldSet(cs, 0))
  {
  }

  lemma SignatureValueFieldsCovered(ps: seq<Param>, cs: seq<ChildEntry>, attrs: seq<AttributeEntry>)
    requires ps == SignatureValueInit && cs == SignatureValueBody.children && attrs == SignatureValueBody.attributes
    ensures ChildrenCovered(cs, 0, ParamFieldSet(ps, 0)) && AttributesCovered(attrs, 0, ParamFieldSet(ps, 0))
  {
  }

  lemma SignatureValueInitAgrees(k: Kind)
    requires k == SignatureValue
    ensures InitAgrees(k, InitParams(k), BodyOf(k))
  {
    var ps, b := InitParams(k), BodyOf(k);
    assert ps == SignatureValueInit;
    assert b == SignatureValueBody;
    SignatureValueParamsFresh(ps);
    SignatureValueParamsNamed(k, ps);
    SignatureValueParamsDeclared(ps, b.children, b.attributes);
    SignatureValueRulesFit(k, ps, b.children);
    SignatureValueFieldsCovered(ps, b.children, b.attributes);
  }

  // Signature

  lemma SignatureParamsFresh(ps: seq<Param>)
    requires ps == SignatureInit
    ensures ParamsFresh(ps, 0, BaseNames, {})
  {
  }

  lemma SignatureParamsNamed(k: Kind, ps: seq<Param>)
    requires k == Signature && ps == SignatureInit
    ensures ParamsNamed(k, ps, 0)
  {
  }

  lemma SignatureParamsDeclared(ps: seq<Param>, cs: seq<ChildEntry>, attrs: seq<AttributeEntry>)
    requires ps == SignatureInit && cs == SignatureBody.children && attrs == SignatureBody.attributes
    ensures ParamsDeclared(ps, 0, FieldSet(cs, 0) + AttributeFieldSet(attrs, 0))
  {
  }

  lemma SignatureRulesFit(k: Kind, ps: seq<Param>, cs: seq<ChildEntry>)
    requires k == Signature && ps == SignatureInit && cs == SignatureBody.children
    ensures RulesFit(k, ps, 0, ListFieldSet(cs, 0))
  {
  }

  lemma SignatureFieldsCovered(ps: seq<Param>, cs: seq<ChildEntry>, attrs: seq<AttributeEntry>)
    requires ps == SignatureInit && cs == SignatureBody.children && attrs == SignatureBody.attributes
    ensures ChildrenCovered(cs, 0, ParamFieldSet(ps, 0)) && AttributesCovered(attrs, 0, ParamFieldSet(ps, 0))
  {
  }

  lemma SignatureInitAgrees(k: Kind)
    requires k == Signature
    ensures InitAgrees(k, InitParams(k), BodyOf(k))
  {
    var ps, b := InitParams(k), BodyOf(k);
    assert ps == SignatureInit;
    assert b == SignatureBody;
    SignatureParamsFresh(ps);
    SignatureParamsNamed(k, ps);
    SignatureParamsDeclared(ps, b.children, b.attributes);
    SignatureRulesFit(k, ps, b.children);
    SignatureFieldsCovered(ps, b.children, b.attributes);
  }

  /** Every `__init__` agrees with its class's tables. */
  lemma InitTablesAgree(k: Kind)
    ensures InitAgrees(k, InitParams(k), BodyOf(k))
  {
    // A leaf class runs SamlBase's `__init__` and declares nothing.
    if InitParams(k) != [] || BodyOf(k) != Declare(DsNamespace) {
      match k
      case Object => ObjectInitAgrees(k);
      case SPKIData => SPKIDataInitAgrees(k);
      case PGPData => PGPDataInitAgrees(k);
      case X509IssuerSerial => X509IssuerSerialInitAgrees(k);
      case X509Data => X509DataInitAgrees(k);
      case Transform => TransformInitAgrees(k);
      case Transforms => TransformsInitAgrees(k);
      case RetrievalMethod => RetrievalMethodInitAgrees(k);
      case RSAKeyValue => RSAKeyValueInitAgrees(k);
      case DSAKeyValue => DSAKeyValueInitAgrees(k);
      case KeyValue => KeyValueInitAgrees(k);
      case KeyInfo => KeyInfoInitAgrees(k);
      case DigestMethod => DigestMethodInitAgrees(k);
      case Reference => ReferenceInitAgrees(k);
      case SignatureMethod => SignatureMethodInitAgrees(k);
      case CanonicalizationMethod => CanonicalizationMethodInitAgrees(k);
      case SignedInfo => SignedInfoInitAgrees(k);
      case SignatureValue => SignatureValueInitAgrees(k);
      case Signature => SignatureInitAgrees(k);
      case _ =>
    }
  }
}
