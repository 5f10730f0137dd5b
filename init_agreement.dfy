/** How each `__init__` (src/xmldsig/__init__.py:72-1029) agrees with its
    class's descriptor tables: it assigns every declared field and nothing
    else, each from the argument meant for it, and applies `or []` exactly to
    the list-cardinality children. As for the tables, each fact is written as
    a check that walks the statements by position, and a lemma turns a
    passing check into the statement it stands for; InitChecks runs the
    checks. */
module InitAgreement {
  import opened Names
  import opened Descriptors
  import opened DescriptorProperties
  import opened Elements

  /** The field the keyword argument `name` of the class `k` is meant for: the
      field of the same name, except that Signature's `objects` fills `object`
      and Reference's `typ` fills `type`. */
  function ParamField(k: Kind, name: Name): Name
  {
    if k == Signature && name == objects then object_
    else if k == Reference && name == typ then type_
    else name
  }

  /** The keyword argument meant for the field `f` of the class `k`: the
      argument of the same name, except that Signature's `object` is filled
      from `objects` and Reference's `type` from `typ`. */
  function ArgumentFor(k: Kind, f: Name): Name
  {
    if k == Signature && f == object_ then objects
    else if k == Reference && f == type_ then typ
    else f
  }

  /** What `__init__` stores in the field `f` of the class `k` when the
      argument meant for it has the value `v`: DSAKeyValue's `seed` holds the
      class Seed whatever is passed; otherwise a list child holds `v or []`
      and any other field `v` itself. */
  function Stored(k: Kind, f: Name, v: Value): Value
  {
    StoredIn(DescriptorOf(k), k, f, v)
  }

  /** `Stored`, for the class `k` described by `d`. */
  function StoredIn(d: Descriptor, k: Kind, f: Name, v: Value): Value
  {
    if k == DSAKeyValue && f == seed then ClassRef(Seed)
    else if d.IsListField(f) then OrEmpty(v)
    else v
  }

  // ---- checks on the statements of one `__init__` ---------------------------

  /** From position `from` on, no statement takes an argument of `names` (at
      first the three base names) or of an earlier statement, and none
      assigns a field of `fields` or of an earlier statement. */
  predicate ParamsFresh(ps: seq<Param>, from: nat, names: set<Name>, fields: set<Name>)
    decreases |ps| - from
  {
    from >= |ps| ||
    (&& ps[from].name !in names
     && ps[from].field !in fields
     && ParamsFresh(ps, from + 1, names + {ps[from].name}, fields + {ps[from].field}))
  }

  /** The right-hand side of `p` matches the field it assigns: `or []` exactly
      for a list child (one of `lists`), and a class object only for
      DSAKeyValue's `seed`, which gets Seed. */
  predicate RuleFits(k: Kind, p: Param, lists: set<Name>)
  {
    match p.rule
    case OrEmptyList => p.field in lists && !(k == DSAKeyValue && p.field == seed)
    case Store => p.field !in lists && !(k == DSAKeyValue && p.field == seed)
    case AssignClass(c) => k == DSAKeyValue && p.field == seed && c == Seed
  }

  /** From position `from` on, every statement of the class `k` assigns the
      field its argument is meant for, and takes the argument meant for the
      field. */
  predicate ParamsNamed(k: Kind, ps: seq<Param>, from: nat)
    decreases |ps| - from
  {
    from >= |ps| ||
    (&& ps[from].field == ParamField(k, ps[from].name)
     && ps[from].name == ArgumentFor(k, ps[from].field)
     && ParamsNamed(k, ps, from + 1))
  }

  /** From position `from` on, every statement assigns a declared field, one
      of `declared`. */
  predicate ParamsDeclared(ps: seq<Param>, from: nat, declared: set<Name>)
    decreases |ps| - from
  {
    from >= |ps| || (ps[from].field in declared && ParamsDeclared(ps, from + 1, declared))
  }

  /** From position `from` on, every statement's right-hand side fits the
      field it assigns. */
  predicate RulesFit(k: Kind, ps: seq<Param>, from: nat, lists: set<Name>)
    decreases |ps| - from
  {
    from >= |ps| || (RuleFits(k, ps[from], lists) && RulesFit(k, ps, from + 1, lists))
  }

  /** The fields the statements from position `from` on assign. */
  function ParamFieldSet(ps: seq<Param>, from: nat): set<Name>
    decreases |ps| - from
  {
    if from >= |ps| then {} else {ps[from].field} + ParamFieldSet(ps, from + 1)
  }

  /** The fields of the attribute entries from position `from` on. */
  function AttributeFieldSet(attrs: seq<AttributeEntry>, from: nat): set<Name>
    decreases |attrs| - from
  {
    if from >= |attrs| then {} else {attrs[from].field} + AttributeFieldSet(attrs, from + 1)
  }

  /** The fields of the list children from position `from` on. */
  function ListFieldSet(cs: seq<ChildEntry>, from: nat): set<Name>
    decreases |cs| - from
  {
    if from >= |cs| then {}
    else if cs[from].cardinality == List then {cs[from].field} + ListFieldSet(cs, from + 1)
    else ListFieldSet(cs, from + 1)
  }

  /** From position `from` on, every child field is one of `filled`. */
  predicate ChildrenCovered(cs: seq<ChildEntry>, from: nat, filled: set<Name>)
    decreases |cs| - from
  {
    from >= |cs| || (cs[from].field in filled && ChildrenCovered(cs, from + 1, filled))
  }

  /** From position `from` on, every attribute field is one of `filled`. */
  predicate AttributesCovered(attrs: seq<AttributeEntry>, from: nat, filled: set<Name>)
    decreases |attrs| - from
  {
    from >= |attrs| || (attrs[from].field in filled && AttributesCovered(attrs, from + 1, filled))
  }

  /** Every check, on the statements `ps` of the class `k` with body `b`. */
  predicate InitAgrees(k: Kind, ps: seq<Param>, b: ClassBody)
  {
    && ParamsFresh(ps, 0, BaseNames, {})
    && ParamsNamed(k, ps, 0)
    && ParamsDeclared(ps, 0, FieldSet(b.children, 0) + AttributeFieldSet(b.attributes, 0))
    && RulesFit(k, ps, 0, ListFieldSet(b.children, 0))
    && ChildrenCovered(b.children, 0, ParamFieldSet(ps, 0))
    && AttributesCovered(b.attributes, 0, ParamFieldSet(ps, 0))
  }

  // ---- what a passing check means -------------------------------------------

  lemma {:induction false} ParamsFreshMeans(ps: seq<Param>, from: nat, names: set<Name>, fields: set<Name>)
    requires ParamsFresh(ps, from, names, fields)
    ensures forall i :: from <= i < |ps| ==> ps[i].name !in names && ps[i].field !in fields
    ensures forall i, j :: from <= i < j < |ps| ==> ps[i].name != ps[j].name && ps[i].field != ps[j].field
    decreases |ps| - from
  {
    if from < |ps| {
      ParamsFreshMeans(ps, from + 1, names + {ps[from].name}, fields + {ps[from].field});
    }
  }

  lemma {:induction false} ParamsNamedMeans(k: Kind, ps: seq<Param>, from: nat)
    requires ParamsNamed(k, ps, from)
    ensures forall i :: from <= i < |ps| ==> ps[i].field == ParamField(k, ps[i].name) && ps[i].name == ArgumentFor(k, ps[i].field)
    decreases |ps| - from
  {
    if from < |ps| {
      ParamsNamedMeans(k, ps, from + 1);
    }
  }

  lemma {:induction false} ParamsDeclaredMeans(ps: seq<Param>, from: nat, declared: set<Name>)
    requires ParamsDeclared(ps, from, declared)
    ensures forall i :: from <= i < |ps| ==> ps[i].field in declared
    decreases |ps| - from
  {
    if from < |ps| {
      ParamsDeclaredMeans(ps, from + 1, declared);
    }
  }

  lemma {:induction false} RulesFitMeans(k: Kind, ps: seq<Param>, from: nat, lists: set<Name>)
    requires RulesFit(k, ps, from, lists)
    ensures forall i :: from <= i < |ps| ==> RuleFits(k, ps[i], lists)
    decreases |ps| - from
  {
    if from < |ps| {
      RulesFitMeans(k, ps, from + 1, lists);
    }
  }

  lemma {:induction false} ParamFieldSetIs(ps: seq<Param>, from: nat)
    requires from <= |ps|
    ensures ParamFieldSet(ps, from) == set i | from <= i < |ps| :: ps[i].field
    decreases |ps| - from
  {
    if from < |ps| {
      ParamFieldSetIs(ps, from + 1);
    }
  }

  lemma {:induction false} AttributeFieldSetIs(attrs: seq<AttributeEntry>, from: nat)
    requires from <= |attrs|
    ensures AttributeFieldSet(attrs, from) == set i | from <= i < |attrs| :: attrs[i].field
    decreases |attrs| - from
  {
    if from < |attrs| {
      AttributeFieldSetIs(attrs, from + 1);
    }
  }

  lemma {:induction false} ChildFieldSetIs(cs: seq<ChildEntry>, from: nat)
    requires from <= |cs|
    ensures FieldSet(cs, from) == set i | from <= i < |cs| :: cs[i].field
    decreases |cs| - from
  {
    if from < |cs| {
      ChildFieldSetIs(cs, from + 1);
    }
  }

  lemma {:induction false} ListFieldSetIs(cs: seq<ChildEntry>, from: nat)
    requires from <= |cs|
    ensures ListFieldSet(cs, from) == set i | from <= i < |cs| && cs[i].cardinality == List :: cs[i].field
    decreases |cs| - from
  {
    if from < |cs| {
      ListFieldSetIs(cs, from + 1);
    }
  }

  lemma {:induction false} ChildrenCoveredMeans(cs: seq<ChildEntry>, from: nat, filled: set<Name>)
    requires ChildrenCovered(cs, from, filled)
    ensures forall i :: from <= i < |cs| ==> cs[i].field in filled
    decreases |cs| - from
  {
    if from < |cs| {
      ChildrenCoveredMeans(cs, from + 1, filled);
    }
  }

  lemma {:induction false} AttributesCoveredMeans(attrs: seq<AttributeEntry>, from: nat, filled: set<Name>)
    requires AttributesCovered(attrs, from, filled)
    ensures forall i :: from <= i < |attrs| ==> attrs[i].field in filled
    decreases |attrs| - from
  {
    if from < |attrs| {
      AttributesCoveredMeans(attrs, from + 1, filled);
    }
  }

  /** The walked field sets are the field sets the descriptor `d` declares. */
  lemma FieldSetsAre(ps: seq<Param>, d: Descriptor)
    ensures ParamFieldSet(ps, 0) == Assigned(ps)
    ensures FieldSet(d.children, 0) == d.ChildFields()
    ensures AttributeFieldSet(d.attributes, 0) == d.AttributeFields()
    ensures ListFieldSet(d.children, 0) == d.ListFields()
  {
    var cs, attrs := d.children, d.attributes;
    ParamFieldSetIs(ps, 0);
    ChildFieldSetIs(cs, 0);
    AttributeFieldSetIs(attrs, 0);
    ListFieldSetIs(cs, 0);
    forall f | f in Assigned(ps)
      ensures f in ParamFieldSet(ps, 0)
    {
      var p :| p in ps && p.field == f;
      var i :| 0 <= i < |ps| && ps[i] == p;
    }
    forall f | f in d.ChildFields()
      ensures f in FieldSet(cs, 0)
    {
      var e :| e in cs && e.field == f;
      var i :| 0 <= i < |cs| && cs[i] == e;
    }
    forall f | f in d.AttributeFields()
      ensures f in AttributeFieldSet(attrs, 0)
    {
      var e :| e in attrs && e.field == f;
      var i :| 0 <= i < |attrs| && attrs[i] == e;
    }
    forall f | f in d.ListFields()
      ensures f in ListFieldSet(cs, 0)
    {
      var e :| e in cs && e.cardinality == List && e.field == f;
      var i :| 0 <= i < |cs| && cs[i] == e;
    }
  }

  /** What a passing `__init__` of the class `k`, with statements `ps` and
      descriptor `d`, guarantees: its statements take distinct arguments, none
      of them a base name, and assign distinct fields, each the one its
      argument is meant for; together they assign exactly the declared
      fields; and each right-hand side fits its field. */
  predicate InitFacts(k: Kind, ps: seq<Param>, d: Descriptor)
  {
    && ParamsDistinct(ps)
    && ParamsLand(k, ps)
    && Assigned(ps) == d.FieldNames()
    && ParamsFit(k, ps, d)
  }

  /** No two statements take the same argument or assign the same field. */
  predicate ParamsDistinct(ps: seq<Param>)
  {
    forall i, j :: 0 <= i < j < |ps| ==> ps[i].name != ps[j].name && ps[i].field != ps[j].field
  }

  /** No statement takes a base name, each assigns the field its argument is
      meant for, and each takes the argument meant for its field. */
  predicate ParamsLand(k: Kind, ps: seq<Param>)
  {
    forall i :: 0 <= i < |ps| ==>
      && ps[i].name !in BaseNames
      && ps[i].field == ParamField(k, ps[i].name)
      && ps[i].name == ArgumentFor(k, ps[i].field)
  }

  /** Each right-hand side fits its field. */
  predicate ParamsFit(k: Kind, ps: seq<Param>, d: Descriptor)
  {
    forall i :: 0 <= i < |ps| ==> RuleFits(k, ps[i], d.ListFields())
  }

  /** The first check leaves the statements distinct. */
  lemma DistinctFromChecks(ps: seq<Param>)
    requires ParamsFresh(ps, 0, BaseNames, {})
    ensures ParamsDistinct(ps)
  {
    ParamsFreshMeans(ps, 0, BaseNames, {});
  }

  /** The first two checks land every argument where it is meant to go. */
  lemma LandFromChecks(k: Kind, ps: seq<Param>)
    requires ParamsFresh(ps, 0, BaseNames, {})
    requires ParamsNamed(k, ps, 0)
    ensures ParamsLand(k, ps)
  {
    ParamsFreshMeans(ps, 0, BaseNames, {});
    ParamsNamedMeans(k, ps, 0);
  }

  /** The declared and covered checks make the assigned fields the declared
      ones. */
  lemma CoverFromChecks(ps: seq<Param>, b: ClassBody, d: Descriptor)
    requires d.children == b.children && d.attributes == b.attributes
    requires ParamsDeclared(ps, 0, FieldSet(b.children, 0) + AttributeFieldSet(b.attributes, 0))
    requires ChildrenCovered(b.children, 0, ParamFieldSet(ps, 0))
    requires AttributesCovered(b.attributes, 0, ParamFieldSet(ps, 0))
    ensures Assigned(ps) == d.FieldNames()
  {
    FieldSetsAre(ps, d);
    ParamsDeclaredMeans(ps, 0, FieldSet(b.children, 0) + AttributeFieldSet(b.attributes, 0));
    ChildrenCoveredMeans(d.children, 0, Assigned(ps));
    AttributesCoveredMeans(d.attributes, 0, Assigned(ps));
    forall f | f in Assigned(ps)
      ensures f in d.FieldNames()
    {
      var p :| p in ps && p.field == f;
      var i :| 0 <= i < |ps| && ps[i] == p;
    }
    forall f | f in d.FieldNames()
      ensures f in Assigned(ps)
    {
      if f in d.ChildFields() {
        var e :| e in d.children && e.field == f;
        var j :| 0 <= j < |d.children| && d.children[j] == e;
      } else {
        var e :| e in d.attributes && e.field == f;
        var j :| 0 <= j < |d.attributes| && d.attributes[j] == e;
      }
    }
  }

  /** The rules check makes every right-hand side fit. */
  lemma FitFromChecks(k: Kind, ps: seq<Param>, b: ClassBody, d: Descriptor)
    requires d.children == b.children
    requires RulesFit(k, ps, 0, ListFieldSet(b.children, 0))
    ensures ParamsFit(k, ps, d)
  {
    FieldSetsAre(ps, d);
    RulesFitMeans(k, ps, 0, d.ListFields());
  }

  /** A passing check gives the facts, for the descriptor `d` of the body `b`. */
  lemma InitFactsFromChecks(k: Kind, ps: seq<Param>, b: ClassBody, d: Descriptor)
    requires d.children == b.children && d.attributes == b.attributes
    requires InitAgrees(k, ps, b)
    ensures InitFacts(k, ps, d)
  {
    DistinctFromChecks(ps);
    LandFromChecks(k, ps);
    CoverFromChecks(ps, b, d);
    FitFromChecks(k, ps, b, d);
  }

  /** A fitting right-hand side stores what `StoredIn` says, whatever the call. */
  lemma RuleFitsMeans(k: Kind, p: Param, d: Descriptor, kw: map<Name, Value>)
    requires RuleFits(k, p, d.ListFields())
    ensures Rhs(p, kw) == StoredIn(d, k, p.field, Arg(kw, p.name))
  {
  }
}
