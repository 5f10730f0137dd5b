/** What the descriptor tables of src/xmldsig/__init__.py:55-1029 promise of
    each class body, first written as checks that walk the body's entries by
    position, then, lemma by lemma, as the quantified statements the checks
    stand for. TableChecks runs the checks on every body. */
module DescriptorProperties {
  import opened Wrappers
  import opened Constants
  import opened Names
  import opened Descriptors

  /** The height of each element type in the schema tree. */
  function Height(k: Kind): nat
  {
    match k
    case Signature => 5
    case SignedInfo | KeyInfo => 4
    case Reference | RetrievalMethod => 3
    case Transforms | KeyValue | X509Data => 2
    case Transform | RSAKeyValue | DSAKeyValue | X509IssuerSerial | PGPData | SPKIData
      | SignatureMethod => 1
    case _ => 0
  }

  /** The native field an XML attribute name is renamed to on the class `k`: one
      fixed renaming for the whole registry, except `Type`, which only Reference
      (to `type`) and RetrievalMethod (to `typ`) carry. */
  function Renaming(k: Kind, xmlName: string): Option<Name>
  {
    if xmlName == "Algorithm" then Some(algorithm)
    else if xmlName == "Id" then Some(identifier)
    else if xmlName == "URI" then Some(uri)
    else if xmlName == "MimeType" then Some(mime_type)
    else if xmlName == "Encoding" then Some(encoding)
    else if xmlName == "Type" && k == Reference then Some(type_)
    else if xmlName == "Type" && k == RetrievalMethod then Some(typ)
    else None
  }

  // ---- checks on the entries of a class body --------------------------------

  /** From position `from` on, every child entry of the class `k` is keyed by
      its class's own `c_tag` and maps to a class lower in the schema. */
  predicate ChildrenTyped(k: Kind, cs: seq<ChildEntry>, from: nat := 0)
    decreases |cs| - from
  {
    from >= |cs| ||
    (&& cs[from].localTag == Tag(cs[from].kind)
     && Height(cs[from].kind) < Height(k)
     && ChildrenTyped(k, cs, from + 1))
  }

  /** From position `from` on, no child entry repeats a local tag or a field
      seen before: one of `tags` and `fields`, or one of an earlier entry. */
  predicate ChildrenFresh(cs: seq<ChildEntry>, from: nat, tags: set<string>, fields: set<Name>)
    decreases |cs| - from
  {
    from >= |cs| ||
    (&& cs[from].localTag !in tags
     && cs[from].field !in fields
     && ChildrenFresh(cs, from + 1, tags + {cs[from].localTag}, fields + {cs[from].field}))
  }

  /** From position `from` on, `order` names the child fields position by
      position, and it names nothing after the last child. */
  predicate OrderFollows(cs: seq<ChildEntry>, order: seq<Name>, from: nat := 0)
    decreases |cs| - from
  {
    if from >= |cs| then |order| == |cs|
    else from < |order| && order[from] == cs[from].field && OrderFollows(cs, order, from + 1)
  }

  /** The fields of the child entries from position `from` on. */
  function FieldSet(cs: seq<ChildEntry>, from: nat): set<Name>
    decreases |cs| - from
  {
    if from >= |cs| then {} else {cs[from].field} + FieldSet(cs, from + 1)
  }

  /** From position `from` on, no attribute entry of the class `k` repeats a
      name or a field seen before (one of `names` and `fields`, or one of an
      earlier entry), and each follows `Renaming`. */
  predicate AttributesFresh(k: Kind, attrs: seq<AttributeEntry>, from: nat, names: set<string>, fields: set<Name>)
    decreases |attrs| - from
  {
    from >= |attrs| ||
    (&& attrs[from].xmlName !in names
     && attrs[from].field !in fields
     && Renaming(k, attrs[from].xmlName) == Some(attrs[from].field)
     && AttributesFresh(k, attrs, from + 1, names + {attrs[from].xmlName}, fields + {attrs[from].field}))
  }

  /** Every check, on the body of the class `k`. The class writes the
      signature namespace as its `c_namespace`. A class declares a child order
      exactly when it has more than one child. Attributes are checked against
      the child fields, so no attribute takes a child's field. */
  predicate WellWritten(k: Kind, b: ClassBody)
  {
    && b.namespace == DsNamespace
    && ChildrenTyped(k, b.children)
    && ChildrenFresh(b.children, 0, {}, {})
    && (b.childOrder.Some? <==> |b.children| >= 2)
    && (b.childOrder.Some? ==> OrderFollows(b.children, b.childOrder.value))
    && AttributesFresh(k, b.attributes, 0, {}, FieldSet(b.children, 0))
  }

  // ---- what a passing check means -------------------------------------------

  lemma {:induction false} ChildrenTypedMeans(k: Kind, cs: seq<ChildEntry>, from: nat)
    requires ChildrenTyped(k, cs, from)
    ensures forall i :: from <= i < |cs| ==> cs[i].localTag == Tag(cs[i].kind) && Height(cs[i].kind) < Height(k)
    decreases |cs| - from
  {
    if from < |cs| {
      ChildrenTypedMeans(k, cs, from + 1);
    }
  }

  lemma {:induction false} ChildrenFreshMeans(cs: seq<ChildEntry>, from: nat, tags: set<string>, fields: set<Name>)
    requires ChildrenFresh(cs, from, tags, fields)
    ensures forall i :: from <= i < |cs| ==> cs[i].localTag !in tags && cs[i].field !in fields
    ensures forall i, j :: from <= i < j < |cs| ==> cs[i].localTag != cs[j].localTag && cs[i].field != cs[j].field
    decreases |cs| - from
  {
    if from < |cs| {
      ChildrenFreshMeans(cs, from + 1, tags + {cs[from].localTag}, fields + {cs[from].field});
    }
  }

  lemma {:induction false} OrderFollowsMeans(cs: seq<ChildEntry>, order: seq<Name>, from: nat)
    requires from <= |cs|
    requires OrderFollows(cs, order, from)
    ensures |order| == |cs| && forall i :: from <= i < |cs| ==> order[i] == cs[i].field
    decreases |cs| - from
  {
    if from < |cs| {
      OrderFollowsMeans(cs, order, from + 1);
    }
  }

  lemma {:induction false} FieldSetMeans(cs: seq<ChildEntry>, from: nat)
    ensures forall i :: from <= i < |cs| ==> cs[i].field in FieldSet(cs, from)
    decreases |cs| - from
  {
    if from < |cs| {
      FieldSetMeans(cs, from + 1);
    }
  }

  lemma {:induction false} AttributesFreshMeans(k: Kind, attrs: seq<AttributeEntry>, from: nat, names: set<string>, fields: set<Name>)
    requires AttributesFresh(k, attrs, from, names, fields)
    ensures forall i :: from <= i < |attrs| ==>
      && attrs[i].xmlName !in names
      && attrs[i].field !in fields
      && Renaming(k, attrs[i].xmlName) == Some(attrs[i].field)
    ensures forall i, j :: from <= i < j < |attrs| ==> attrs[i].xmlName != attrs[j].xmlName && attrs[i].field != attrs[j].field
    decreases |attrs| - from
  {
    if from < |attrs| {
      AttributesFreshMeans(k, attrs, from + 1, names + {attrs[from].xmlName}, fields + {attrs[from].field});
    }
  }

  /** A body that passes every check: it writes the signature namespace; its
      child entries are keyed by their classes' tags, lie lower in the schema
      and repeat no tag and no field; a
      declared child order lists the child fields in insertion order; its
      attributes repeat no name and no field, take no child's field and follow
      `Renaming`. */
  lemma WellWrittenMeans(k: Kind, b: ClassBody)
    requires WellWritten(k, b)
    ensures b.namespace == DsNamespace
    ensures forall i :: 0 <= i < |b.children| ==>
      b.children[i].localTag == Tag(b.children[i].kind) && Height(b.children[i].kind) < Height(k)
    ensures forall i, j :: 0 <= i < j < |b.children| ==>
      b.children[i].localTag != b.children[j].localTag && b.children[i].field != b.children[j].field
    ensures b.childOrder.Some? <==> |b.children| >= 2
    ensures b.childOrder.Some? ==>
      |b.childOrder.value| == |b.children| &&
      forall i :: 0 <= i < |b.children| ==> b.childOrder.value[i] == b.children[i].field
    ensures forall i, j :: 0 <= i < j < |b.attributes| ==>
      b.attributes[i].xmlName != b.attributes[j].xmlName && b.attributes[i].field != b.attributes[j].field
    ensures forall i, j :: 0 <= i < |b.attributes| && 0 <= j < |b.children| ==>
      b.attributes[i].field != b.children[j].field
    ensures forall i :: 0 <= i < |b.attributes| ==> Renaming(k, b.attributes[i].xmlName) == Some(b.attributes[i].field)
  {
    ChildrenTypedMeans(k, b.children, 0);
    ChildrenFreshMeans(b.children, 0, {}, {});
    if b.childOrder.Some? {
      OrderFollowsMeans(b.children, b.childOrder.value, 0);
    }
    FieldSetMeans(b.children, 0);
    AttributesFreshMeans(k, b.attributes, 0, {}, FieldSet(b.children, 0));
  }
}
