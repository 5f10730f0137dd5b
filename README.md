# xmldsig object model, in Dafny

This is a model of the XML-Signature object model in pysaml2's
`src/xmldsig/__init__.py`, with proofs about it. One Python class stands for
each element of the W3C XML-Signature schema (`Signature`, `SignedInfo`,
`Reference`, `KeyInfo`, …). Every class is a subclass of `DsBase`. Each
class is made of two things:

- **Descriptor tables.** These are class attributes built by copying the
  parent's dictionaries and inserting entries:
  - `c_children` maps a qualified child tag to a native field name and the
    child's class. The class is wrapped in a list when the child may repeat.
  - `c_attributes` maps an XML attribute name to a native field.
  - `c_child_order` is the list of child fields, in order.
- **`__init__`.** It passes `text`, `extension_elements` and
  `extension_attributes` on to `DsBase.__init__`, then assigns one
  `self.<field>` per declared child and attribute. A repeating child gets
  `argument or []`.

`get_empty_signature` builds the skeleton of an enveloped signature from
these constructors.

How the model represents these:

- **Descriptor tables.** Each class body is a list of `Declare` entries.
  `Declare` replays the Python dictionary insertions (module `Descriptors`).
- **Constants.** The namespace, the tag template and the algorithm
  identifiers are module `Constants`.
- **Constructors.** Each `__init__` is a table of its `self.<field> = …`
  statements (`Elements.InitParams`).
  - `New` runs that table on a fresh instance dictionary.
  - `Construct` adds Python's keyword check. A call with an undeclared
    keyword is a `TypeError`.
- **`get_empty_signature`.** It is `Skeleton.EmptySignature`, built from the
  same `New` calls the function makes. `Get` and `Put` read and write along
  a path of fields, so properties of the result can be stated.

What is proved:

- **The tables are well written.** For every class:
  - child keys are the children's own qualified tags;
  - no two names claim one field;
  - a class declares a child order exactly when it has at least two
    children, and that order lists exactly the child fields;
  - attributes follow one fixed renaming;
  - the schema is acyclic.
- **Every `__init__` agrees with its class's tables.** For every class:
  - it assigns exactly the declared fields, each from the argument meant
    for it;
  - `or []` is used exactly on the list children;
  - the base arguments are passed on untouched;
  - omitted arguments leave the defaults.
- **The template.** `get_empty_signature`:
  - raises no `TypeError`;
  - places each of its four algorithm arguments in one spot, and two
    templates differ only there;
  - gives the default identifiers when called without arguments;
  - holds fixed parts (an empty `URI` and argument-less value elements).

Places where the source does something surprising. Each is modelled as
written:

- `DSAKeyValue.__init__` stores the class `Seed` in `self.seed`, whatever the
  `seed` argument is (`src/xmldsig/__init__.py:658`). Two calls that differ
  only in `seed` build the same instance (`Constructors.SeedArgumentIgnored`).
- Two keyword arguments fill a field of a different name:
  - Signature's keyword `objects` fills the field `object` (line 1029);
  - Reference's keyword `typ` fills the field `type`, which its `Type`
    attribute names (lines 816, 844).

  RetrievalMethod, by contrast, keeps `typ` as its field, and its `Type`
  attribute names `typ` too (lines 445, 463).
- `get_empty_signature` passes single instances for six fields that the
  tables declare as lists: `transform`, `transforms`, `digest_method`,
  `digest_value`, `reference` and `key_value`. Because an element is truthy,
  `x or []` keeps the bare element, so each of those fields holds one element
  rather than a list (`Skeleton.ListChildrenHoldOneElement`).
- The classes `DsP`, `DsQ`, `DsG`, `DsY` and `DsJ` carry the tags `P`, `Q`,
  `G`, `Y` and `J` (lines 530-582).

## Model

| member | source | states |
|---|---|---|
| Constants.QualifiedInjective | src/xmldsig/__init__.py:37-38 | Distinct local tags give distinct `{DS_NAMESPACE}tag` keys, so qualified child keys never collide. |
| Constants.DsTemplate | src/xmldsig/__init__.py:38 | `DS_TEMPLATE % tag` is the tag qualified by `DS_NAMESPACE`. |
| DescriptorProperties.WellWrittenMeans | src/xmldsig/__init__.py:55-1007 | A body that passes the checks writes `DS_NAMESPACE` as its namespace and has four further properties. First, every child entry is keyed by its class's own tag and lies lower in the schema. Second, no two entries share a tag or a field. Third, a child order is declared if and only if there are at least two children, and it lists the child fields in insertion order. Fourth, attributes repeat no name or field, take no child field, and follow the renaming. |
| TableChecks.ObjectWellWritten | src/xmldsig/__init__.py:64-70 | The Object tables pass every check. |
| TableChecks.SPKIDataWellWritten | src/xmldsig/__init__.py:123-127 | The SPKIData tables pass every check. |
| TableChecks.PGPDataWellWritten | src/xmldsig/__init__.py:177-184 | The PGPData tables pass every check. |
| TableChecks.X509IssuerSerialWellWritten | src/xmldsig/__init__.py:236-244 | The X509IssuerSerial tables pass every check. |
| TableChecks.X509DataWellWritten | src/xmldsig/__init__.py:323-336 | The X509Data tables pass every check. |
| TableChecks.TransformWellWritten | src/xmldsig/__init__.py:383-388 | The Transform tables pass every check. |
| TableChecks.TransformsWellWritten | src/xmldsig/__init__.py:413-417 | The Transforms tables pass every check. |
| TableChecks.RetrievalMethodWellWritten | src/xmldsig/__init__.py:440-446 | The RetrievalMethod tables pass every check. |
| TableChecks.RSAKeyValueWellWritten | src/xmldsig/__init__.py:499-505 | The RSAKeyValue tables pass every check. |
| TableChecks.DSAKeyValueWellWritten | src/xmldsig/__init__.py:621-633 | The DSAKeyValue tables pass every check. |
| TableChecks.KeyValueWellWritten | src/xmldsig/__init__.py:669-678 | The KeyValue tables pass every check. |
| TableChecks.KeyInfoWellWritten | src/xmldsig/__init__.py:716-731 | The KeyInfo tables pass every check. |
| TableChecks.DigestMethodWellWritten | src/xmldsig/__init__.py:783-787 | The DigestMethod tables pass every check. |
| TableChecks.ReferenceWellWritten | src/xmldsig/__init__.py:810-822 | The Reference tables pass every check. |
| TableChecks.SignatureMethodWellWritten | src/xmldsig/__init__.py:870-876 | The SignatureMethod tables pass every check. |
| TableChecks.CanonicalizationMethodWellWritten | src/xmldsig/__init__.py:901-905 | The CanonicalizationMethod tables pass every check. |
| TableChecks.SignedInfoWellWritten | src/xmldsig/__init__.py:928-939 | The SignedInfo tables pass every check. |
| TableChecks.SignatureValueWellWritten | src/xmldsig/__init__.py:969-973 | The SignatureValue tables pass every check. |
| TableChecks.SignatureWellWritten | src/xmldsig/__init__.py:997-1007 | The Signature tables pass every check. |
| TableChecks.TablesWellWritten | src/xmldsig/__init__.py:55-1007 | Every class body passes every check. The leaf classes declare nothing of their own. |
| Registry.EntryFacts | src/xmldsig/__init__.py:55-1007 | Every class's entries are consistent. Each child entry is written from the child class's own tag and names a lower class. Each attribute follows the renaming. A child order is declared if and only if there are at least two children. |
| Registry.ChildDictKeys | src/xmldsig/__init__.py:812-821 | Replaying `c_children[key] = …` insertions gives a dictionary keyed by exactly the inserted keys. |
| Registry.ChildKeysDistinct | src/xmldsig/__init__.py:37-1007 | Child entries with distinct local tags have distinct qualified keys. |
| Registry.ChildDictValues | src/xmldsig/__init__.py:812-821 | When the inserted keys are distinct, each entry is stored under its own key. |
| Registry.ChildDictSize | src/xmldsig/__init__.py:812-821 | Insertions with distinct keys give a dictionary with one key per entry. |
| Registry.AttributeDictHoldsEntries | src/xmldsig/__init__.py:813-816 | Replaying `c_attributes[name] = field` insertions with distinct names gives a dictionary holding every entry. |
| Registry.TablesAreValid | src/xmldsig/__init__.py:55-1007 | Consistent entries build dictionaries that satisfy four conditions: no two children share a field, no two attributes share a field, no attribute takes a child's field, and a child order lists exactly the child fields, each once. |
| Registry.RegistryValid | src/xmldsig/__init__.py:55-1007 | The dictionaries of every class are valid in that sense. |
| Registry.ChildKeysNameChildTags | src/xmldsig/__init__.py:37-1007 | Every class's `c_namespace`, as its body writes it, is `DS_NAMESPACE`. Every `c_children` key is the qualified `c_tag` of the class it maps to. |
| Registry.AttributeRenaming | src/xmldsig/__init__.py:55-1007 | Every `c_attributes` entry of every class is renamed as the one fixed renaming says (`Algorithm`→`algorithm`, `Id`→`identifier`, `URI`→`uri`, …). |
| Registry.TypeAttributeFields | src/xmldsig/__init__.py:440-822 | Exactly Reference and RetrievalMethod carry `Type`. Reference maps it to `type` and RetrievalMethod maps it to `typ`. |
| Registry.DeclaredChildOrders | src/xmldsig/__init__.py:55-1007 | A class declares its own `c_child_order` if and only if its `c_children` has at least two keys. |
| Registry.SchemaIsAcyclic | src/xmldsig/__init__.py:55-1007 | Every child class sits strictly lower in the schema than its parent. |
| InitChecks.ObjectInitAgrees | src/xmldsig/__init__.py:72-88 | Object's `__init__` agrees with its tables. |
| InitChecks.SPKIDataInitAgrees | src/xmldsig/__init__.py:129-141 | SPKIData's `__init__` agrees with its tables. |
| InitChecks.PGPDataInitAgrees | src/xmldsig/__init__.py:186-200 | PGPData's `__init__` agrees with its tables. |
| InitChecks.X509IssuerSerialInitAgrees | src/xmldsig/__init__.py:246-260 | X509IssuerSerial's `__init__` agrees with its tables. |
| InitChecks.X509DataInitAgrees | src/xmldsig/__init__.py:338-359 | X509Data's `__init__` agrees with its tables. |
| InitChecks.TransformInitAgrees | src/xmldsig/__init__.py:390-403 | Transform's `__init__` agrees with its tables. |
| InitChecks.TransformsInitAgrees | src/xmldsig/__init__.py:419-430 | Transforms' `__init__` agrees with its tables. |
| InitChecks.RetrievalMethodInitAgrees | src/xmldsig/__init__.py:448-463 | RetrievalMethod's `__init__` agrees with its tables. |
| InitChecks.RSAKeyValueInitAgrees | src/xmldsig/__init__.py:507-520 | RSAKeyValue's `__init__` agrees with its tables. |
| InitChecks.DSAKeyValueInitAgrees | src/xmldsig/__init__.py:635-659 | DSAKeyValue's `__init__` agrees with its tables, where `seed` holds the class Seed. |
| InitChecks.KeyValueInitAgrees | src/xmldsig/__init__.py:680-693 | KeyValue's `__init__` agrees with its tables. |
| InitChecks.KeyInfoInitAgrees | src/xmldsig/__init__.py:733-760 | KeyInfo's `__init__` agrees with its tables. |
| InitChecks.DigestMethodInitAgrees | src/xmldsig/__init__.py:789-800 | DigestMethod's `__init__` agrees with its tables. |
| InitChecks.ReferenceInitAgrees | src/xmldsig/__init__.py:824-847 | Reference's `__init__` agrees with its tables, with `typ` landing in `type`. |
| InitChecks.SignatureMethodInitAgrees | src/xmldsig/__init__.py:878-891 | SignatureMethod's `__init__` agrees with its tables. |
| InitChecks.CanonicalizationMethodInitAgrees | src/xmldsig/__init__.py:907-918 | CanonicalizationMethod's `__init__` agrees with its tables. |
| InitChecks.SignedInfoInitAgrees | src/xmldsig/__init__.py:941-959 | SignedInfo's `__init__` agrees with its tables. |
| InitChecks.SignatureValueInitAgrees | src/xmldsig/__init__.py:975-987 | SignatureValue's `__init__` agrees with its tables. |
| InitChecks.SignatureInitAgrees | src/xmldsig/__init__.py:1009-1029 | Signature's `__init__` agrees with its tables, with `objects` landing in `object`. |
| InitChecks.InitTablesAgree | src/xmldsig/__init__.py:72-1029 | Every class's `__init__` agrees with its tables. A leaf class runs SamlBase's `__init__` and declares nothing. |
| InitAgreement.InitFactsFromChecks | src/xmldsig/__init__.py:72-1029 | An `__init__` that agrees with its tables has five properties. Its statements take distinct arguments, none of them a base name, and assign distinct fields. Each statement assigns the field its argument is meant for. Together they assign exactly the declared fields. `or []` appears exactly on list children. Only `self.seed = Seed` assigns a class. |
| Constructors.NewFields | src/xmldsig/__init__.py:72-1029 | A call sets exactly the declared fields of its class. Each field gets the argument meant for it, as `v or []` on a list child, as the class Seed on DSAKeyValue's `seed`, and as `v` otherwise. |
| Constructors.ArgumentsLandApart | src/xmldsig/__init__.py:72-1029 | A class's own keyword arguments are disjoint from the base names and match its declared fields one to one. |
| Constructors.ConstructAccepts | src/xmldsig/__init__.py:72-1029 | The keywords a constructor accepts, read off the class's tables: a call succeeds if and only if every keyword is `text`, `extension_elements`, `extension_attributes` or the argument meant for one of the declared fields. Otherwise the TypeError names exactly the other keywords. |
| Constructors.OmittedArguments | src/xmldsig/__init__.py:72-1029 | A field whose argument is omitted holds its default: `[]` for a list child, the class Seed for `seed`, `None` otherwise. |
| Constructors.NoArguments | src/xmldsig/__init__.py:72-1029 | A call without arguments gives every declared field its default. |
| Constructors.BaseValuesPassedOn | src/xmldsig/__init__.py:72-1029 | No field of any class takes the name `text`, `extension_elements` or `extension_attributes`, so those three values go only to `DsBase.__init__`. Its other two clauses, the instance's class and its base values, read directly off `New`. |
| Constructors.SeedArgumentIgnored | src/xmldsig/__init__.py:635-659 | Two DSAKeyValue calls that differ only in `seed` build equal instances. |
| Constructors.SeedStored | src/xmldsig/__init__.py:658 | DSAKeyValue accepts `seed`, and its `seed` field holds the class Seed. |
| Constructors.SignatureObjects | src/xmldsig/__init__.py:1029 | Signature accepts `objects` and stores `objects or []` in `object`. |
| Constructors.ReferenceType | src/xmldsig/__init__.py:844 | Reference accepts `typ` and stores it in `type`. |
| Constructors.RetrievalMethodType | src/xmldsig/__init__.py:463 | RetrievalMethod accepts `typ` and stores it in `typ`. |
| Constructors.StatementHolds | src/xmldsig/__init__.py:72-1029 | The argument each `self.<field> = …` statement reads is one the constructor accepts. After a call, that statement's field holds its right-hand side. No later statement overwrites it. |
| Constructors.OrEmptyFieldListed | src/xmldsig/__init__.py:72-1029 | Every statement written `x or []` assigns a field that the tables declare as a list child. |
| Constructors.StatementRebuilt | src/xmldsig/__init__.py:72-1029 | Changing one statement's argument changes exactly that statement's field of the built instance, and nothing else. |
| Skeleton.GetPut | src/xmldsig/__init__.py:1037-1057 | Writing a value at a path that exists and reading it back gives that value. |
| Skeleton.PutGet | src/xmldsig/__init__.py:1037-1057 | Writing back the value read at a path leaves the instance unchanged. |
| Skeleton.CallsAccepted | src/xmldsig/__init__.py:1042-1056 | Every one of the twelve constructor calls accepts its keywords. None raises TypeError, and each builds its part of the template. |
| Skeleton.CanonicalizationPlaced | src/xmldsig/__init__.py:1042-1054 | The first argument is the `Algorithm` of the template's CanonicalizationMethod. Replacing it there gives the template built with the new argument. |
| Skeleton.SignatureMethodPlaced | src/xmldsig/__init__.py:1044-1054 | The second argument is the SignatureMethod's `Algorithm`. Replacing it there gives the template built with the new argument. |
| Skeleton.TransformPlaced | src/xmldsig/__init__.py:1045-1054 | The third argument is the `Algorithm` of the Transform inside the Reference's Transforms. Replacing it there gives the template built with the new argument. |
| Skeleton.DigestPlaced | src/xmldsig/__init__.py:1046-1054 | The fourth argument is the Reference's DigestMethod `Algorithm`. Replacing it there gives the template built with the new argument. |
| Skeleton.OnlyAlgorithmsDiffer | src/xmldsig/__init__.py:1037-1057 | Any two templates differ only in the four algorithms. Setting those four in one gives the other. |
| Skeleton.DefaultAlgorithms | src/xmldsig/__init__.py:1037-1040 | Called without arguments, the template carries C14N_WITH_C, SIG_RSA_SHA1, TRANSFORM_ENVELOPED and DIGEST_SHA1 in those four spots. |
| Skeleton.FixedParts | src/xmldsig/__init__.py:1047-1056 | The Reference's `uri` is `""`. The DigestValue, the SignatureValue and the KeyValue are instances built without arguments. |
| Skeleton.ListChildrenHoldOneElement | src/xmldsig/__init__.py:1045-1056 | `transform`, `transforms`, `digest_method`, `digest_value`, `reference` and `key_value` are list children of their classes. In the template, each holds the single element passed, not a list. |

## Left out

- The `*_from_string` helpers (for example lines 90-92 and 1032-1034) and all
  XML parsing and serialization are not modelled. The helpers call
  `create_class_from_xml_string` of the `saml2` module (imported at line 35),
  which is not part of this model, and parsing is ElementTree's.
- The ElementTree import fallback (lines 27-33) is not modelled. It is module
  loading and has no behaviour to model.
- SamlBase behaviour is not modelled: how it stores text and extensions, its
  own `c_children` and `c_attributes`, the inherited default child order,
  and the leaf classes' inherited `__init__`. The model records only that the
  three base values reach `DsBase.__init__`, and that a leaf sets no field of
  its own.
- The algorithm identifiers are opaque strings. No canonicalization,
  digest or signature algorithm is modelled.
- Object identity and aliasing are not modelled. Instances are values, and a
  shared instance would be two equal copies.
- Positional arguments are not modelled. A constructor call is its
  dictionary of keyword arguments.
- Elements.Construct: the leaf classes (those with no `__init__` of their
  own) run the `__init__` they inherit from SamlBase, which is not part of
  this model. The model assumes that it accepts exactly `text`,
  `extension_elements` and `extension_attributes`, the keywords every
  `__init__` in this file passes on to `DsBase.__init__`.
- Elements.Construct: Python's TypeError reports only the first unexpected
  keyword. The model reports all of them.
- Elements.Construct: only keywords from the model's vocabulary of
  parameter names (`Names.Name`) can be passed. A call with an arbitrary
  other string is not expressible.
- `x or []` follows Python truthiness for the values the model knows:
  `None`, strings, elements, lists, classes, extensions and attribute maps.
  Objects with their own `__bool__` are not modelled.
- Elements.Construct: its ensures only unfold its definition. Which keywords
  a call accepts, read off the tables, is stated by
  `Constructors.ConstructAccepts`.
- Elements.New: carries no ensures of its own. What a call builds is stated
  by `Constructors.NewFields`, `OmittedArguments`, `BaseValuesPassedOn`,
  `StatementHolds` and `StatementRebuilt`.
