/** What a constructor call builds (src/xmldsig/__init__.py:72-1029): each
    argument lands in the field meant for it, list children default to `[]`
    and every other field to `None`, nothing outside the descriptor is set,
    and DSAKeyValue ignores its `seed` argument.

    Each fact is first proved for any statements `ps` and descriptor `d` that
    satisfy `InitFacts`, and then, through `InitFactsHold`, for the class `k`
    itself. */
module Constructors {
  import opened Names
  import opened Descriptors
  import opened Elements
  import opened InitAgreement
  import opened InitChecks
  import opened Registry

  /** The value of the field `f` of the class `k` (described by `d`) when its
      argument is omitted: the class Seed for DSAKeyValue's `seed`, `[]` for a
      list child and `None` for any other field. */
  function DefaultIn(d: Descriptor, k: Kind, f: Name): Value
  {
    if k == DSAKeyValue && f == seed then ClassRef(Seed)
    else if d.IsListField(f) then Nodes([])
    else NoValue
  }

  /** `DefaultIn`, for the class `k`'s own descriptor. */
  function Default(k: Kind, f: Name): Value
  {
    DefaultIn(DescriptorOf(k), k, f)
  }

  // ---- for any statements that pass the checks -------------------------------

  /** Running statements that assign distinct fields stores each statement's
      value in its field and leaves every other field as it was. */
  lemma {:induction false} AssignStores(ps: seq<Param>, kw: map<Name, Value>, fields: map<Name, Value>)
    requires forall i, j :: 0 <= i < j < |ps| ==> ps[i].field != ps[j].field
    ensures forall i :: 0 <= i < |ps| ==> Assign(ps, kw, fields)[ps[i].field] == Rhs(ps[i], kw)
    ensures forall f :: f in fields && f !in Assigned(ps) ==> Assign(ps, kw, fields)[f] == fields[f]
  {
    if ps != [] {
      var rest := ps[1..];
      var next := fields[ps[0].field := Rhs(ps[0], kw)];
      assert forall i :: 0 <= i < |rest| ==> rest[i] == ps[i + 1];
      AssignStores(rest, kw, next);
      assert ps[0].field !in Assigned(rest);
      assert Assigned(ps) == {ps[0].field} + Assigned(rest);
    }
  }

  /** The dictionary `fields` holds exactly the declared fields, each with the
      value `StoredIn` gives for the argument meant for it. */
  predicate Fills(k: Kind, d: Descriptor, kw: map<Name, Value>, fields: map<Name, Value>)
  {
    && fields.Keys == d.FieldNames()
    && forall f :: f in fields ==> fields[f] == StoredIn(d, k, f, Arg(kw, ArgumentFor(k, f)))
  }

  /** On an empty dictionary, passing statements fill it as `Fills` says. */
  lemma AssignFills(k: Kind, ps: seq<Param>, d: Descriptor, kw: map<Name, Value>)
    requires InitFacts(k, ps, d)
    ensures Fills(k, d, kw, Assign(ps, kw, map[]))
  {
    var a := Assign(ps, kw, map[]);
    AssignStores(ps, kw, map[]);
    forall f | f in a
      ensures a[f] == StoredIn(d, k, f, Arg(kw, ArgumentFor(k, f)))
    {
      var p :| p in ps && p.field == f;
      var i :| 0 <= i < |ps| && ps[i] == p;
      RuleFitsMeans(k, p, d, kw);
    }
  }

  /** The arguments of passing statements are exactly the ones meant for the
      declared fields; none is a base name, and each lands in the field it is
      meant for. */
  lemma ArgumentsMatchFields(k: Kind, ps: seq<Param>, d: Descriptor)
    requires InitFacts(k, ps, d)
    ensures ArgumentNames(ps) !! BaseNames
    ensures forall n :: n in ArgumentNames(ps) ==> ParamField(k, n) in d.FieldNames() && ArgumentFor(k, ParamField(k, n)) == n
    ensures forall f :: f in d.FieldNames() ==> ArgumentFor(k, f) in ArgumentNames(ps) && ParamField(k, ArgumentFor(k, f)) == f
  {
    forall n | n in ArgumentNames(ps)
      ensures n !in BaseNames && ParamField(k, n) in d.FieldNames() && ArgumentFor(k, ParamField(k, n)) == n
    {
      var p :| p in ps && p.name == n;
      var i :| 0 <= i < |ps| && ps[i] == p;
      assert p.field in Assigned(ps);
    }
    forall f | f in d.FieldNames()
      ensures ArgumentFor(k, f) in ArgumentNames(ps) && ParamField(k, ArgumentFor(k, f)) == f
    {
      assert f in Assigned(ps);
      var p :| p in ps && p.field == f;
      var i :| 0 <= i < |ps| && ps[i] == p;
    }
  }

  /** No statement of a passing `__init__` assigns a base name. */
  lemma BaseNamesUnassigned(k: Kind, ps: seq<Param>)
    requires ParamsLand(k, ps)
    ensures BaseNames !! Assigned(ps)
  {
    forall f | f in Assigned(ps)
      ensures f !in BaseNames
    {
      var p :| p in ps && p.field == f;
      var i :| 0 <= i < |ps| && ps[i] == p;
      FieldOfNonBase(k, p.name);
    }
  }

  /** An argument that is no base name is meant for a field that is none. */
  lemma FieldOfNonBase(k: Kind, n: Name)
    requires n !in BaseNames
    ensures ParamField(k, n) !in BaseNames
  {
  }

  /** In a dictionary filled for a call, a field whose argument the call
      omits holds its default. */
  lemma OmittedDefaults(k: Kind, d: Descriptor, kw: map<Name, Value>, fields: map<Name, Value>)
    requires Fills(k, d, kw, fields)
    ensures forall f :: f in fields && ArgumentFor(k, f) !in kw ==> fields[f] == DefaultIn(d, k, f)
  {
    forall f | f in fields && ArgumentFor(k, f) !in kw
      ensures fields[f] == DefaultIn(d, k, f)
    {
      assert Arg(kw, ArgumentFor(k, f)) == NoValue;
    }
  }

  /** Statement `i` stores its right-hand side in its field. */
  lemma StatementStores(ps: seq<Param>, kw: map<Name, Value>, i: nat)
    requires ParamsDistinct(ps)
    requires i < |ps|
    ensures ps[i].field in Assign(ps, kw, map[])
    ensures Assign(ps, kw, map[])[ps[i].field] == Rhs(ps[i], kw)
  {
    AssignStores(ps, kw, map[]);
    assert ps[i] in ps;
  }

  /** Two dictionaries over the fields the statements assign agree when they
      agree on the field of every statement. */
  lemma SameOnAssigned(ps: seq<Param>, a: map<Name, Value>, b: map<Name, Value>)
    requires a.Keys == Assigned(ps) && b.Keys == Assigned(ps)
    requires forall j :: 0 <= j < |ps| ==> a[ps[j].field] == b[ps[j].field]
    ensures a == b
  {
    forall f | f in a
      ensures a[f] == b[f]
    {
      var p :| p in ps && p.field == f;
      var j :| 0 <= j < |ps| && ps[j] == p;
    }
  }

  /** Dictionaries filled by the same distinct statements from two calls that
      differ only in the argument of statement `i` differ only in its field. */
  lemma RebuiltFields(ps: seq<Param>, kw: map<Name, Value>, i: nat, v: Value, a: map<Name, Value>, b: map<Name, Value>)
    requires ParamsDistinct(ps)
    requires i < |ps|
    requires a.Keys == Assigned(ps) && b.Keys == Assigned(ps)
    requires forall j :: 0 <= j < |ps| ==> a[ps[j].field] == Rhs(ps[j], kw)
    requires forall j :: 0 <= j < |ps| ==> b[ps[j].field] == Rhs(ps[j], kw[ps[i].name := v])
    ensures b == a[ps[i].field := Rhs(ps[i], kw[ps[i].name := v])]
  {
    var a' := a[ps[i].field := Rhs(ps[i], kw[ps[i].name := v])];
    assert ps[i] in ps;
    forall j | 0 <= j < |ps|
      ensures b[ps[j].field] == a'[ps[j].field]
    {
      if j != i {
        assert Arg(kw[ps[i].name := v], ps[j].name) == Arg(kw, ps[j].name);
      }
    }
    SameOnAssigned(ps, b, a');
  }

  /** Passing a new value for the argument of statement `i` changes only the
      field that statement assigns. */
  lemma AssignRebuilt(ps: seq<Param>, kw: map<Name, Value>, i: nat, v: Value)
    requires ParamsDistinct(ps)
    requires i < |ps|
    ensures Assign(ps, kw[ps[i].name := v], map[]) == Assign(ps, kw, map[])[ps[i].field := Rhs(ps[i], kw[ps[i].name := v])]
  {
    AssignStores(ps, kw, map[]);
    AssignStores(ps, kw[ps[i].name := v], map[]);
    RebuiltFields(ps, kw, i, v, Assign(ps, kw, map[]), Assign(ps, kw[ps[i].name := v], map[]));
  }

  // ---- for every class --------------------------------------------------------

  /** The class `k`'s `__init__` passes the checks against its descriptor. */
  lemma InitFactsHold(k: Kind)
    ensures InitFacts(k, InitParams(k), DescriptorOf(k))
  {
    InitTablesAgree(k);
    InitFactsFromChecks(k, InitParams(k), BodyOf(k), DescriptorOf(k));
  }

  /** A call sets exactly the fields the class's descriptor declares, each to
      what `Stored` gives for the argument meant for it. */
  lemma NewFields(k: Kind, kw: map<Name, Value>)
    ensures New(k, kw).fields.Keys == DescriptorOf(k).FieldNames()
    ensures forall f :: f in New(k, kw).fields ==>
      New(k, kw).fields[f] == Stored(k, f, Arg(kw, ArgumentFor(k, f)))
  {
    InitFactsHold(k);
    AssignFills(k, InitParams(k), DescriptorOf(k), kw);
  }

  /** The keyword arguments a class declares match its declared fields one to
      one: none is a base name, each lands in a declared field meant for it,
      and each declared field is filled from an argument the class declares. */
  lemma ArgumentsLandApart(k: Kind)
    ensures Arguments(k) !! BaseNames
    ensures forall n :: n in Arguments(k) ==>
      ParamField(k, n) in DescriptorOf(k).FieldNames() && ArgumentFor(k, ParamField(k, n)) == n
    ensures forall f :: f in DescriptorOf(k).FieldNames() ==>
      ArgumentFor(k, f) in Arguments(k) && ParamField(k, ArgumentFor(k, f)) == f
  {
    InitFactsHold(k);
    ArgumentsMatchFields(k, InitParams(k), DescriptorOf(k));
  }

  /** The keywords a constructor accepts, read off its descriptor: the three
      base names and the argument meant for each declared field. */
  function AcceptedKeywords(k: Kind): set<Name>
  {
    BaseNames + FieldArguments(k, DescriptorOf(k).FieldNames())
  }

  /** The arguments meant for the given fields of the class `k`. */
  function FieldArguments(k: Kind, fields: set<Name>): set<Name>
  {
    set f | f in fields :: ArgumentFor(k, f)
  }

  /** A call succeeds exactly when every keyword is a base name or the
      argument of a declared field; otherwise the TypeError names the other
      keywords. */
  lemma ConstructAccepts(k: Kind, kw: map<Name, Value>)
    ensures Construct(k, kw).Success? <==> kw.Keys <= AcceptedKeywords(k)
    ensures Construct(k, kw).Failure? ==> Construct(k, kw).error.names == kw.Keys - AcceptedKeywords(k)
  {
    AcceptedAreParameters(k);
  }

  lemma AcceptedAreParameters(k: Kind)
    ensures ParamNames(k) == AcceptedKeywords(k)
  {
    InitFactsHold(k);
    ParametersFromFacts(k, InitParams(k), DescriptorOf(k));
  }

  lemma ParametersFromFacts(k: Kind, ps: seq<Param>, d: Descriptor)
    requires InitFacts(k, ps, d)
    ensures ArgumentNames(ps) + BaseNames == BaseNames + FieldArguments(k, d.FieldNames())
  {
    ArgumentsMatchFields(k, ps, d);
    ArgumentsOfFields(k, ArgumentNames(ps), d.FieldNames());
  }

  /** Arguments and fields in one-to-one correspondence: the arguments are
      exactly the arguments meant for the fields. */
  lemma ArgumentsOfFields(k: Kind, args: set<Name>, fields: set<Name>)
    requires forall n :: n in args ==> ParamField(k, n) in fields && ArgumentFor(k, ParamField(k, n)) == n
    requires forall f :: f in fields ==> ArgumentFor(k, f) in args
    ensures args == FieldArguments(k, fields)
  {
    forall n | n in args
      ensures n in FieldArguments(k, fields)
    {
      assert n == ArgumentFor(k, ParamField(k, n));
    }
  }

  /** A field whose argument is omitted holds its default. */
  lemma OmittedArguments(k: Kind, kw: map<Name, Value>)
    ensures forall f :: f in New(k, kw).fields && ArgumentFor(k, f) !in kw ==>
      New(k, kw).fields[f] == Default(k, f)
  {
    NewFills(k, kw);
    OmittedDefaults(k, DescriptorOf(k), kw, New(k, kw).fields);
  }

  /** With no arguments at all, every declared field holds its default. */
  lemma NoArguments(k: Kind)
    ensures New(k, map[]).fields.Keys == DescriptorOf(k).FieldNames()
    ensures forall f :: f in New(k, map[]).fields ==> New(k, map[]).fields[f] == Default(k, f)
  {
    NewFills(k, map[]);
    OmittedDefaults(k, DescriptorOf(k), map[], New(k, map[]).fields);
  }

  /** The base values go to `DsBase.__init__` untouched, and are not fields. */
  lemma BaseValuesPassedOn(k: Kind, kw: map<Name, Value>)
    ensures New(k, kw).kind == k
    ensures New(k, kw).base == Base(Arg(kw, text), Arg(kw, extension_elements), Arg(kw, extension_attributes))
    ensures BaseNames !! New(k, kw).fields.Keys
  {
    InitFactsHold(k);
    BaseNamesUnassigned(k, InitParams(k));
  }

  /** A call fills its instance dictionary as `Fills` says. */
  lemma NewFills(k: Kind, kw: map<Name, Value>)
    ensures Fills(k, DescriptorOf(k), kw, New(k, kw).fields)
  {
    InitFactsHold(k);
    AssignFills(k, InitParams(k), DescriptorOf(k), kw);
  }

  /** DSAKeyValue's `seed` holds the class Seed, so two calls that differ
      only in `seed` build the same instance. */
  lemma SeedArgumentIgnored(kw: map<Name, Value>, v: Value)
    ensures New(DSAKeyValue, kw[seed := v]) == New(DSAKeyValue, kw)
  {
    SeedArgumentIgnoredIn(DSAKeyValue, kw, v);
  }

  lemma SeedArgumentIgnoredIn(k: Kind, kw: map<Name, Value>, v: Value)
    requires k == DSAKeyValue
    ensures New(k, kw[seed := v]) == New(k, kw)
  {
    assert InitParams(k)[5] == Param(seed, seed, AssignClass(Seed));
    StatementRebuilt(k, kw, 5, v);
    StatementHolds(k, kw, 5);
    SetSameField(New(k, kw), seed);
  }

  /** Setting a field to the value it holds changes nothing. */
  lemma SetSameField(e: Element, f: Name)
    requires f in e.fields
    ensures SetField(e, f, e.fields[f]) == e
  {
    assert e.fields[f := e.fields[f]] == e.fields;
  }

  lemma SeedStoredIn(k: Kind, kw: map<Name, Value>)
    requires k == DSAKeyValue
    ensures seed in ParamNames(k)
    ensures seed in New(k, kw).fields
    ensures New(k, kw).fields[seed] == ClassRef(Seed)
  {
    assert InitParams(k)[5] == Param(seed, seed, AssignClass(Seed));
    StatementHolds(k, kw, 5);
  }

  /** DSAKeyValue accepts `seed`, and its `seed` field holds the class Seed. */
  lemma SeedStored(kw: map<Name, Value>)
    ensures seed in ParamNames(DSAKeyValue)
    ensures seed in New(DSAKeyValue, kw).fields
    ensures New(DSAKeyValue, kw).fields[seed] == ClassRef(Seed)
  {
    SeedStoredIn(DSAKeyValue, kw);
  }

  lemma SignatureObjectsIn(k: Kind, kw: map<Name, Value>)
    requires k == Signature
    ensures objects in ParamNames(k)
    ensures object_ in New(k, kw).fields
    ensures New(k, kw).fields[object_] == OrEmpty(Arg(kw, objects))
  {
    assert InitParams(k)[4] == Param(objects, object_, OrEmptyList);
    StatementHolds(k, kw, 4);
  }

  /** Signature accepts `objects` and stores it, or `[]`, in its `object` list. */
  lemma SignatureObjects(kw: map<Name, Value>)
    ensures objects in ParamNames(Signature)
    ensures object_ in New(Signature, kw).fields
    ensures New(Signature, kw).fields[object_] == OrEmpty(Arg(kw, objects))
  {
    SignatureObjectsIn(Signature, kw);
  }

  lemma ReferenceTypeIn(k: Kind, kw: map<Name, Value>)
    requires k == Reference
    ensures typ in ParamNames(k)
    ensures type_ in New(k, kw).fields
    ensures New(k, kw).fields[type_] == Arg(kw, typ)
  {
    assert InitParams(k)[2] == Param(typ, type_, Store);
    StatementHolds(k, kw, 2);
  }

  /** Reference accepts `typ` and stores it in `type`. */
  lemma ReferenceType(kw: map<Name, Value>)
    ensures typ in ParamNames(Reference)
    ensures type_ in New(Reference, kw).fields
    ensures New(Reference, kw).fields[type_] == Arg(kw, typ)
  {
    ReferenceTypeIn(Reference, kw);
  }

  lemma RetrievalMethodTypeIn(k: Kind, kw: map<Name, Value>)
    requires k == RetrievalMethod
    ensures typ in ParamNames(k)
    ensures typ in New(k, kw).fields
    ensures New(k, kw).fields[typ] == Arg(kw, typ)
  {
    assert InitParams(k)[2] == Param(typ, typ, Store);
    StatementHolds(k, kw, 2);
  }

  /** RetrievalMethod accepts `typ` and stores it in `typ`. */
  lemma RetrievalMethodType(kw: map<Name, Value>)
    ensures typ in ParamNames(RetrievalMethod)
    ensures typ in New(RetrievalMethod, kw).fields
    ensures New(RetrievalMethod, kw).fields[typ] == Arg(kw, typ)
  {
    RetrievalMethodTypeIn(RetrievalMethod, kw);
  }

  /** Statement `i` of the class `k` takes an argument the class accepts and
      stores its right-hand side in its field. */
  lemma StatementHolds(k: Kind, kw: map<Name, Value>, i: nat)
    requires i < |InitParams(k)|
    ensures InitParams(k)[i].name in ParamNames(k)
    ensures InitParams(k)[i].field in New(k, kw).fields
    ensures New(k, kw).fields[InitParams(k)[i].field] == Rhs(InitParams(k)[i], kw)
  {
    StatementsApart(k);
    StatementStores(InitParams(k), kw, i);
    assert InitParams(k)[i] in InitParams(k);
  }

  /** A statement that stores its argument `or []` assigns a list field. */
  lemma OrEmptyFieldListed(k: Kind, i: nat)
    requires i < |InitParams(k)| && InitParams(k)[i].rule == OrEmptyList
    ensures InitParams(k)[i].field in DescriptorOf(k).ListFields()
  {
    InitFactsHold(k);
  }

  /** Calling the class `k` with a new value for the argument of statement `i`
      builds the instance whose field for that statement is reassigned, and
      nothing else changes. */
  lemma StatementRebuilt(k: Kind, kw: map<Name, Value>, i: nat, v: Value)
    requires i < |InitParams(k)|
    ensures New(k, kw[InitParams(k)[i].name := v])
      == SetField(New(k, kw), InitParams(k)[i].field, Rhs(InitParams(k)[i], kw[InitParams(k)[i].name := v]))
  {
    var ps := InitParams(k);
    StatementsApart(k);
    AssignRebuilt(ps, kw, i, v);
    BaseArgumentsKept(kw, ps[i].name, v);
  }

  /** The statements of every `__init__` take distinct arguments, none of them
      a base name, and assign distinct fields. */
  lemma StatementsApart(k: Kind)
    ensures ParamsDistinct(InitParams(k))
    ensures forall i :: 0 <= i < |InitParams(k)| ==> InitParams(k)[i].name !in BaseNames
  {
    InitFactsHold(k);
  }

  /** A new value for an argument that is no base name leaves the base values
      as they were. */
  lemma BaseArgumentsKept(kw: map<Name, Value>, n: Name, v: Value)
    requires n !in BaseNames
    ensures Arg(kw[n := v], text) == Arg(kw, text)
    ensures Arg(kw[n := v], extension_elements) == Arg(kw, extension_elements)
    ensures Arg(kw[n := v], extension_attributes) == Arg(kw, extension_attributes)
  {
  }
}
