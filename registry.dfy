/** The dictionaries each class of src/xmldsig/__init__.py:55-1029 ends up
    with (`c_attributes`, `c_children`, `c_child_order`), stated over the
    dictionaries themselves rather than over the insertions that build them:
    the namespace, the form of the child keys, attribute renaming, distinct
    native fields and an acyclic schema. */
module Registry {
  import opened Wrappers
  import opened Constants
  import opened Names
  import opened Descriptors
  import opened DescriptorProperties
  import opened TableChecks

  // ---- the entries of each descriptor, as quantified statements ------------

  /** No child key is inserted twice and no two child entries share a field. */
  predicate ChildEntriesDistinct(d: Descriptor)
  {
    forall i, j :: 0 <= i < j < |d.children| ==>
      d.children[i].localTag != d.children[j].localTag && d.children[i].field != d.children[j].field
  }

  /** No attribute name is inserted twice and no two attributes share a field. */
  predicate AttributeEntriesDistinct(d: Descriptor)
  {
    forall i, j :: 0 <= i < j < |d.attributes| ==>
      d.attributes[i].xmlName != d.attributes[j].xmlName && d.attributes[i].field != d.attributes[j].field
  }

  /** No attribute is renamed to a field that a child also uses. */
  predicate AttributesApartFromChildren(d: Descriptor)
  {
    forall i, j :: 0 <= i < |d.attributes| && 0 <= j < |d.children| ==>
      d.attributes[i].field != d.children[j].field
  }

  /** A declared `c_child_order` names the child fields in the order the class
      body inserts them. */
  predicate OrderFollowsDeclarations(d: Descriptor)
  {
    d.childOrder.Some? ==>
      |d.childOrder.value| == |d.children| &&
      forall i :: 0 <= i < |d.children| ==> d.childOrder.value[i] == d.children[i].field
  }

  /** The four facts above, for one descriptor. */
  predicate EntriesConsistent(d: Descriptor)
  {
    && ChildEntriesDistinct(d)
    && AttributeEntriesDistinct(d)
    && AttributesApartFromChildren(d)
    && OrderFollowsDeclarations(d)
  }

  /** What the checks establish about the descriptor of every class: its
      entries are consistent, every child entry is written from the child
      class's own tag and maps to a class lower in the schema, and every
      attribute follows `Renaming`. */
  lemma EntryFacts(k: Kind)
    ensures DescriptorOf(k).namespace == DsNamespace
    ensures EntriesConsistent(DescriptorOf(k))
    ensures forall i :: 0 <= i < |DescriptorOf(k).children| ==>
      var e := DescriptorOf(k).children[i];
      e.localTag == Tag(e.kind) && Height(e.kind) < Height(k)
    ensures forall i :: 0 <= i < |DescriptorOf(k).attributes| ==>
      Renaming(k, DescriptorOf(k).attributes[i].xmlName) == Some(DescriptorOf(k).attributes[i].field)
    ensures DescriptorOf(k).childOrder.Some? <==> |DescriptorOf(k).children| >= 2
  {
    TablesWellWritten(k);
    DescriptorFacts(k, BodyOf(k), DescriptorOf(k));
  }

  /** The facts of `EntryFacts`, for a descriptor built from a body that
      passes every check. */
  lemma DescriptorFacts(k: Kind, b: ClassBody, d: Descriptor)
    requires WellWritten(k, b)
    requires d.namespace == b.namespace
    requires d.attributes == b.attributes && d.children == b.children && d.childOrder == b.childOrder
    ensures d.namespace == DsNamespace
    ensures EntriesConsistent(d)
    ensures forall i :: 0 <= i < |d.children| ==>
      d.children[i].localTag == Tag(d.children[i].kind) && Height(d.children[i].kind) < Height(k)
    ensures forall i :: 0 <= i < |d.attributes| ==>
      Renaming(k, d.attributes[i].xmlName) == Some(d.attributes[i].field)
    ensures d.childOrder.Some? <==> |d.children| >= 2
  {
    WellWrittenMeans(k, b);
  }

  // ---- the dictionaries the tables build ----------------------------------

  /** Replaying child entries yields a dictionary keyed by exactly their keys. */
  lemma {:induction false} ChildDictKeys(entries: seq<ChildEntry>)
    ensures ChildDict(entries).Keys == set e | e in entries :: e.Key()
  {
    if entries != [] {
      var n := |entries| - 1;
      ChildDictKeys(entries[..n]);
      assert entries == entries[..n] + [entries[n]];
    }
  }

  /** Child entries with distinct local tags have distinct keys. */
  lemma ChildKeysDistinct(entries: seq<ChildEntry>)
    requires forall i, j :: 0 <= i < j < |entries| ==> entries[i].localTag != entries[j].localTag
    ensures forall i, j :: 0 <= i < j < |entries| ==> entries[i].Key() != entries[j].Key()
  {
    forall i, j | 0 <= i < j < |entries|
      ensures entries[i].Key() != entries[j].Key()
    {
      QualifiedInjective(entries[i].localTag, entries[j].localTag);
    }
  }

  /** Replaying child entries with distinct keys stores each under its own key. */
  lemma {:induction false} ChildDictValues(entries: seq<ChildEntry>)
    requires forall i, j :: 0 <= i < j < |entries| ==> entries[i].Key() != entries[j].Key()
    ensures forall i :: 0 <= i < |entries| ==>
      entries[i].Key() in ChildDict(entries) && ChildDict(entries)[entries[i].Key()] == entries[i].Spec()
  {
    if entries != [] {
      var n := |entries| - 1;
      var prefix := entries[..n];
      ChildDictValues(prefix);
      assert forall i :: 0 <= i < n ==> entries[i] == prefix[i];
    }
  }

  /** Replaying child entries with distinct keys inserts a new key each time. */
  lemma {:induction false} ChildDictSize(entries: seq<ChildEntry>)
    requires forall i, j :: 0 <= i < j < |entries| ==> entries[i].Key() != entries[j].Key()
    ensures |ChildDict(entries)| == |entries|
  {
    if entries != [] {
      var n := |entries| - 1;
      var prefix := entries[..n];
      ChildDictSize(prefix);
      ChildDictKeys(prefix);
      assert entries[n].Key() !in ChildDict(prefix);
    }
  }

  /** Replaying attribute entries with distinct names yields a dictionary holding
      exactly those entries. */
  lemma {:induction false} AttributeDictHoldsEntries(entries: seq<AttributeEntry>)
    requires forall i, j :: 0 <= i < j < |entries| ==> entries[i].xmlName != entries[j].xmlName
    ensures AttributeDict(entries).Keys == set e | e in entries :: e.xmlName
    ensures forall i :: 0 <= i < |entries| ==> AttributeDict(entries)[entries[i].xmlName] == entries[i].field
  {
    if entries != [] {
      var n := |entries| - 1;
      var prefix := entries[..n];
      AttributeDictHoldsEntries(prefix);
      assert entries == prefix + [entries[n]];
      assert forall i :: 0 <= i < n ==> entries[i] == prefix[i];
    }
  }

  /** No two children of the dictionary share a native field. */
  predicate ChildFieldsApart(d: Descriptor)
  {
    var children := d.ChildMap();
    forall a, b :: a in children && b in children && a != b ==> children[a].field != children[b].field
  }

  /** No two attributes of the dictionary share a native field. */
  predicate AttributeFieldsApart(d: Descriptor)
  {
    var attributes := d.AttributeMap();
    forall a, b :: a in attributes && b in attributes && a != b ==> attributes[a] != attributes[b]
  }

  /** No attribute shares a native field with a child. */
  predicate AttributeAndChildFieldsApart(d: Descriptor)
  {
    var children := d.ChildMap();
    var attributes := d.AttributeMap();
    forall a, b :: a in attributes && b in children ==> attributes[a] != children[b].field
  }

  /** A declared child order lists every child field exactly once and nothing else. */
  predicate OrderListsChildFields(d: Descriptor)
  {
    d.childOrder.Some? ==>
      var order := d.childOrder.value;
      && (forall i, j :: 0 <= i < j < |order| ==> order[i] != order[j])
      && (set f | f in order) == d.ChildFields()
      && (forall key :: key in d.ChildMap() ==> d.ChildMap()[key].field in order)
  }

  /** The dictionaries of a class never give two names the same native field,
      and a declared child order lists exactly the child fields. */
  predicate ValidDescriptor(d: Descriptor)
  {
    && ChildFieldsApart(d)
    && AttributeFieldsApart(d)
    && AttributeAndChildFieldsApart(d)
    && OrderListsChildFields(d)
  }

  /** Every key of the child dictionary comes from one entry, stored under it. */
  lemma ChildKeyFromEntry(d: Descriptor, key: string)
    requires ChildEntriesDistinct(d)
    requires key in d.ChildMap()
    ensures exists i :: 0 <= i < |d.children| && key == d.children[i].Key() && d.ChildMap()[key] == d.children[i].Spec()
  {
    ChildDictKeys(d.children);
    ChildKeysDistinct(d.children);
    ChildDictValues(d.children);
    var e :| e in d.children && e.Key() == key;
    var i :| 0 <= i < |d.children| && d.children[i] == e;
  }

  /** Every key of the attribute dictionary comes from one entry, stored under it. */
  lemma AttributeKeyFromEntry(d: Descriptor, a: string)
    requires AttributeEntriesDistinct(d)
    requires a in d.AttributeMap()
    ensures exists i :: 0 <= i < |d.attributes| && a == d.attributes[i].xmlName && d.AttributeMap()[a] == d.attributes[i].field
  {
    AttributeDictHoldsEntries(d.attributes);
    var e :| e in d.attributes && e.xmlName == a;
    var i :| 0 <= i < |d.attributes| && d.attributes[i] == e;
  }

  lemma ChildFieldsApartFromEntries(d: Descriptor)
    requires ChildEntriesDistinct(d)
    ensures ChildFieldsApart(d)
  {
    forall a, b | a in d.ChildMap() && b in d.ChildMap() && a != b
      ensures d.ChildMap()[a].field != d.ChildMap()[b].field
    {
      ChildKeyFromEntry(d, a);
      ChildKeyFromEntry(d, b);
    }
  }

  lemma AttributeFieldsApartFromEntries(d: Descriptor)
    requires AttributeEntriesDistinct(d)
    ensures AttributeFieldsApart(d)
  {
    forall a, b | a in d.AttributeMap() && b in d.AttributeMap() && a != b
      ensures d.AttributeMap()[a] != d.AttributeMap()[b]
    {
      AttributeKeyFromEntry(d, a);
      AttributeKeyFromEntry(d, b);
    }
  }

  lemma AttributeAndChildFieldsApartFromEntries(d: Descriptor)
    requires ChildEntriesDistinct(d) && AttributeEntriesDistinct(d) && AttributesApartFromChildren(d)
    ensures AttributeAndChildFieldsApart(d)
  {
    forall a, b | a in d.AttributeMap() && b in d.ChildMap()
      ensures d.AttributeMap()[a] != d.ChildMap()[b].field
    {
      AttributeKeyFromEntry(d, a);
      ChildKeyFromEntry(d, b);
    }
  }

  lemma OrderListsChildFieldsFromEntries(d: Descriptor)
    requires ChildEntriesDistinct(d) && OrderFollowsDeclarations(d)
    ensures OrderListsChildFields(d)
  {
    if d.childOrder.Some? {
      var order := d.childOrder.value;
      forall f | f in order
        ensures f in d.ChildFields()
      {
        var i :| 0 <= i < |order| && order[i] == f;
        assert d.children[i] in d.children;
      }
      forall f | f in d.ChildFields()
        ensures f in order
      {
        var e :| e in d.children && e.field == f;
        var i :| 0 <= i < |d.children| && d.children[i] == e;
        assert order[i] == f;
      }
      forall key | key in d.ChildMap()
        ensures d.ChildMap()[key].field in order
      {
        ChildKeyFromEntry(d, key);
        var i :| 0 <= i < |d.children| && key == d.children[i].Key() && d.ChildMap()[key] == d.children[i].Spec();
        assert order[i] == d.children[i].field;
      }
    }
  }

  /** Consistent entries build dictionaries that pass the check. */
  lemma TablesAreValid(d: Descriptor)
    requires EntriesConsistent(d)
    ensures ValidDescriptor(d)
  {
    ChildFieldsApartFromEntries(d);
    AttributeFieldsApartFromEntries(d);
    AttributeAndChildFieldsApartFromEntries(d);
    OrderListsChildFieldsFromEntries(d);
  }

  /** Every class's dictionaries are valid: no two names of a class ever
      claim the same native field. */
  lemma RegistryValid(k: Kind)
    ensures ValidDescriptor(DescriptorOf(k))
  {
    EntryFacts(k);
    TablesAreValid(DescriptorOf(k));
  }

  // ---- namespaces, tags, renaming and the schema's shape -------------------

  /** Every element lives in the signature namespace, and every `c_children` key
      is `'{' + DS_NAMESPACE + '}'` followed by the `c_tag` of the class it maps to. */
  lemma ChildKeysNameChildTags(k: Kind)
    ensures DescriptorOf(k).namespace == DsNamespace
    ensures forall key :: key in DescriptorOf(k).ChildMap() ==>
      key == Qualified(Tag(DescriptorOf(k).ChildMap()[key].kind))
  {
    var d := DescriptorOf(k);
    EntryFacts(k);
    forall key | key in d.ChildMap()
      ensures key == Qualified(Tag(d.ChildMap()[key].kind))
    {
      ChildKeyFromEntry(d, key);
    }
  }

  /** Attribute renaming, read off the `c_attributes` dictionary of each class:
      every attribute a class declares is renamed as `Renaming` says. */
  lemma AttributeRenaming(k: Kind)
    ensures forall a :: a in DescriptorOf(k).AttributeMap() ==>
      Renaming(k, a) == Some(DescriptorOf(k).AttributeMap()[a])
  {
    var d := DescriptorOf(k);
    EntryFacts(k);
    forall a | a in d.AttributeMap()
      ensures Renaming(k, a) == Some(d.AttributeMap()[a])
    {
      AttributeKeyFromEntry(d, a);
    }
  }

  /** Exactly Reference and RetrievalMethod carry a `Type` attribute, and they
      map it to different fields. */
  lemma TypeAttributeFields(k: Kind)
    ensures "Type" in DescriptorOf(k).AttributeMap() <==> k == Reference || k == RetrievalMethod
    ensures k == Reference ==> DescriptorOf(k).AttributeMap()["Type"] == type_
    ensures k == RetrievalMethod ==> DescriptorOf(k).AttributeMap()["Type"] == typ
  {
    AttributeRenaming(k);
    if k == Reference {
      TypeAttributeAt(k, 2);
    } else if k == RetrievalMethod {
      TypeAttributeAt(k, 1);
    }
  }

  lemma TypeAttributeAt(k: Kind, i: nat)
    requires i < |DescriptorOf(k).attributes| && DescriptorOf(k).attributes[i].xmlName == "Type"
    ensures "Type" in DescriptorOf(k).AttributeMap()
  {
    EntryFacts(k);
    AttributeDictHoldsEntries(DescriptorOf(k).attributes);
  }

  /** A class declares its own `c_child_order` exactly when it has more than
      one child; the others inherit SamlBase's. */
  lemma DeclaredChildOrders(k: Kind)
    ensures DescriptorOf(k).childOrder.Some? <==> |DescriptorOf(k).ChildMap()| >= 2
  {
    var d := DescriptorOf(k);
    EntryFacts(k);
    ChildKeysDistinct(d.children);
    ChildDictSize(d.children);
  }

  /** Every child type sits strictly lower in the schema than its parent, so the
      schema has no cycles and every element tree it describes is finite. */
  lemma SchemaIsAcyclic(k: Kind)
    ensures forall key :: key in DescriptorOf(k).ChildMap() ==>
      Height(DescriptorOf(k).ChildMap()[key].kind) < Height(k)
  {
    var d := DescriptorOf(k);
    EntryFacts(k);
    forall key | key in d.ChildMap()
      ensures Height(d.ChildMap()[key].kind) < Height(k)
    {
      ChildKeyFromEntry(d, key);
    }
  }
}
