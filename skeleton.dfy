/** `get_empty_signature` (src/xmldsig/__init__.py:1037-1057): the Signature
    template a signer fills in, built from four algorithm identifiers. Each
    part is the constructor call the function makes, named after the local
    variable that holds it. */
module Skeleton {
  import opened Wrappers
  import opened Constants
  import opened Names
  import opened Descriptors
  import opened Elements
  import opened Constructors

  // ---- the calls the function makes -----------------------------------------

  /** The keywords of `CanonicalizationMethod(algorithm=a)` and of the
      SignatureMethod, Transform and DigestMethod calls, all `algorithm=a`. */
  function AlgorithmCall(a: Value): map<Name, Value>
  {
    map[algorithm := a]
  }

  /** `Transforms(transform=transform)`: a single Transform, not a list of one,
      is passed to the list child. */
  function TransformsCall(tr: Element): map<Name, Value>
  {
    map[transform := Node(tr)]
  }

  /** `Reference(uri="", transforms=transforms, digest_method=digest_method,
      digest_value=DigestValue())` */
  function ReferenceCall(ts: Element, dm: Element, dv: Element): map<Name, Value>
  {
    map[
      uri := Str(""),
      transforms := Node(ts),
      digest_method := Node(dm),
      digest_value := Node(dv)]
  }

  /** `SignedInfo(canonicalization_method=..., signature_method=..., reference=reference)` */
  function SignedInfoCall(cm: Element, sm: Element, r: Element): map<Name, Value>
  {
    map[
      canonicalization_method := Node(cm),
      signature_method := Node(sm),
      reference := Node(r)]
  }

  /** `KeyInfo(key_value=KeyValue())` */
  function KeyInfoCall(kv: Element): map<Name, Value>
  {
    map[key_value := Node(kv)]
  }

  /** `Signature(signed_info=signed_info, signature_value=SignatureValue(),
      key_info=KeyInfo(key_value=KeyValue()))` */
  function SignatureCall(si: Element, sv: Element, ki: Element): map<Name, Value>
  {
    map[
      signed_info := Node(si),
      signature_value := Node(sv),
      key_info := Node(ki)]
  }

  // ---- the parts, as the function builds them --------------------------------

  function CanonicalizationMethodPart(c: Value): Element
  {
    New(CanonicalizationMethod, AlgorithmCall(c))
  }

  function SignatureMethodPart(s: Value): Element
  {
    New(SignatureMethod, AlgorithmCall(s))
  }

  function TransformPart(t: Value): Element
  {
    New(Transform, AlgorithmCall(t))
  }

  function TransformsPart(t: Value): Element
  {
    New(Transforms, TransformsCall(TransformPart(t)))
  }

  function DigestMethodPart(d: Value): Element
  {
    New(DigestMethod, AlgorithmCall(d))
  }

  function ReferencePart(t: Value, d: Value): Element
  {
    New(Reference, ReferenceCall(TransformsPart(t), DigestMethodPart(d), New(DigestValue, map[])))
  }

  function KeyInfoPart(): Element
  {
    New(KeyInfo, KeyInfoCall(New(KeyValue, map[])))
  }

  function SignedInfoPart(c: Value, s: Value, t: Value, d: Value): Element
  {
    New(SignedInfo, SignedInfoCall(CanonicalizationMethodPart(c), SignatureMethodPart(s), ReferencePart(t, d)))
  }

  /** `get_empty_signature(c, s, t, d)`, each algorithm an argument that
      defaults to the identifier the function's signature names. */
  function EmptySignature(c: Value := Str(C14nWithComments), s: Value := Str(SigRsaSha1),
                          t: Value := Str(TransformEnveloped), d: Value := Str(DigestSha1)): Element
  {
    New(Signature, SignatureCall(SignedInfoPart(c, s, t, d), New(SignatureValue, map[]), KeyInfoPart()))
  }

  // ---- paths into an instance ------------------------------------------------

  /** The value at `path[from..]` below `e`: each name but the last is a field
      holding a single element, the last names the field read. */
  function Get(e: Element, path: seq<Name>, from: nat := 0): Option<Value>
    decreases |path| - from
  {
    if from >= |path| || path[from] !in e.fields then None
    else if from + 1 == |path| then Some(e.fields[path[from]])
    else match e.fields[path[from]]
      case Node(child) => Get(child, path, from + 1)
      case _ => None
  }

  /** `e` with the value at `path[from..]` replaced by `v`, when `Get` finds
      one there; `e` itself otherwise. */
  function Put(e: Element, path: seq<Name>, v: Value, from: nat := 0): Element
    decreases |path| - from
  {
    if from >= |path| || path[from] !in e.fields then e
    else if from + 1 == |path| then SetField(e, path[from], v)
    else match e.fields[path[from]]
      case Node(child) => SetField(e, path[from], Node(Put(child, path, v, from + 1)))
      case _ => e
  }

  /** Writing a value where one is found and reading it back gives that value. */
  lemma {:induction false} GetPut(e: Element, path: seq<Name>, v: Value, from: nat)
    requires Get(e, path, from).Some?
    ensures Get(Put(e, path, v, from), path, from) == Some(v)
    decreases |path| - from
  {
    if from + 1 < |path| {
      GetPut(e.fields[path[from]].element, path, v, from + 1);
    }
  }

  /** Writing back the value read leaves the instance as it was. */
  lemma {:induction false} PutGet(e: Element, path: seq<Name>, from: nat)
    requires Get(e, path, from).Some?
    ensures Put(e, path, Get(e, path, from).value, from) == e
    decreases |path| - from
  {
    if from + 1 < |path| {
      PutGet(e.fields[path[from]].element, path, from + 1);
    }
  }

  /** `Get` descends through a field holding a single element ... */
  lemma GetThrough(e: Element, path: seq<Name>, from: nat, child: Element)
    requires from + 1 < |path| && path[from] in e.fields && e.fields[path[from]] == Node(child)
    ensures Get(e, path, from) == Get(child, path, from + 1)
  {
  }

  /** ... and reads the field the path ends with. */
  lemma GetLast(e: Element, path: seq<Name>, from: nat)
    requires from + 1 == |path| && path[from] in e.fields
    ensures Get(e, path, from) == Some(e.fields[path[from]])
  {
  }

  /** `Put` descends through a field holding a single element ... */
  lemma PutThrough(e: Element, path: seq<Name>, v: Value, from: nat, child: Element)
    requires from + 1 < |path| && path[from] in e.fields && e.fields[path[from]] == Node(child)
    ensures Put(e, path, v, from) == SetField(e, path[from], Node(Put(child, path, v, from + 1)))
  {
  }

  /** ... and sets the field the path ends with. */
  lemma PutLast(e: Element, path: seq<Name>, v: Value, from: nat)
    requires from + 1 == |path| && path[from] in e.fields
    ensures Put(e, path, v, from) == SetField(e, path[from], v)
  {
  }

  /** Where each algorithm sits below the Signature. */
  const CanonicalizationPath := [signed_info, canonicalization_method, algorithm]
  const SignaturePath := [signed_info, signature_method, algorithm]
  const TransformPath := [signed_info, reference, transforms, transform, algorithm]
  const DigestPath := [signed_info, reference, digest_method, algorithm]

  /** Where the other parts sit. */
  const UriPath := [signed_info, reference, uri]
  const DigestValuePath := [signed_info, reference, digest_value]
  const SignatureValuePath := [signature_value]
  const KeyValuePath := [key_info, key_value]
  const ReferencePath := [signed_info, reference]
  const TransformsPath := [signed_info, reference, transforms]
  const TransformElementPath := [signed_info, reference, transforms, transform]
  const DigestMethodElementPath := [signed_info, reference, digest_method]

  // ---- what each part holds --------------------------------------------------

  // Each `...In` or `...At` lemma reads the statements of one class's
  // `__init__` for the call's keywords; the lemma after it applies that to the
  // part.

  lemma AlgorithmHoldsIn(k: Kind, a: Value)
    requires k in {CanonicalizationMethod, SignatureMethod, Transform, DigestMethod}
    ensures algorithm in New(k, AlgorithmCall(a)).fields && New(k, AlgorithmCall(a)).fields[algorithm] == a
  {
    var i := if k == Transform then 1 else 0;
    assert InitParams(k)[i] == Param(algorithm, algorithm, Store);
    StatementHolds(k, AlgorithmCall(a), i);
  }

  lemma CanonicalizationMethodHolds(c: Value)
    ensures algorithm in CanonicalizationMethodPart(c).fields
    ensures CanonicalizationMethodPart(c).fields[algorithm] == c
  {
    AlgorithmHoldsIn(CanonicalizationMethod, c);
  }

  lemma SignatureMethodHolds(s: Value)
    ensures algorithm in SignatureMethodPart(s).fields
    ensures SignatureMethodPart(s).fields[algorithm] == s
  {
    AlgorithmHoldsIn(SignatureMethod, s);
  }

  lemma TransformHolds(t: Value)
    ensures algorithm in TransformPart(t).fields
    ensures TransformPart(t).fields[algorithm] == t
  {
    AlgorithmHoldsIn(Transform, t);
  }

  lemma DigestMethodHolds(d: Value)
    ensures algorithm in DigestMethodPart(d).fields
    ensures DigestMethodPart(d).fields[algorithm] == d
  {
    AlgorithmHoldsIn(DigestMethod, d);
  }

  // Transforms, Reference, SignedInfo and Signature take three layers: a
  // `...Statements` lemma reads the statements of the class's `__init__` that
  // the call sets, a `...HoldsIn` lemma reads the fields they fill knowing only
  // those statements, and `...HoldsAt` puts the two together for the call.

  /** A statement that stores its argument keeps the value passed for it. */
  lemma Stored(k: Kind, kw: map<Name, Value>, i: nat, f: Name, v: Value)
    requires i < |InitParams(k)| && InitParams(k)[i] == Param(f, f, Store)
    requires f in kw && kw[f] == v
    ensures f in New(k, kw).fields && New(k, kw).fields[f] == v
  {
    StatementHolds(k, kw, i);
  }

  /** A statement that stores its argument `or []` keeps an element passed for
      it. */
  lemma Listed(k: Kind, kw: map<Name, Value>, i: nat, f: Name, e: Element)
    requires i < |InitParams(k)| && InitParams(k)[i] == Param(f, f, OrEmptyList)
    requires f in kw && kw[f] == Node(e)
    ensures f in New(k, kw).fields && New(k, kw).fields[f] == Node(e)
  {
    StatementHolds(k, kw, i);
  }

  lemma TransformsStatements(k: Kind)
    requires k == Transforms
    ensures |InitParams(k)| == 1
    ensures InitParams(k)[0] == Param(transform, transform, OrEmptyList)
  {
  }

  lemma TransformsHoldsIn(k: Kind, kw: map<Name, Value>, tr: Element)
    requires |InitParams(k)| == 1
    requires InitParams(k)[0] == Param(transform, transform, OrEmptyList)
    requires transform in kw && kw[transform] == Node(tr)
    ensures transform in New(k, kw).fields && New(k, kw).fields[transform] == Node(tr)
  {
    Listed(k, kw, 0, transform, tr);
  }

  lemma TransformsHoldsAt(k: Kind, tr: Element)
    requires k == Transforms
    ensures transform in New(k, TransformsCall(tr)).fields
    ensures New(k, TransformsCall(tr)).fields[transform] == Node(tr)
  {
    TransformsStatements(k);
    TransformsHoldsIn(k, TransformsCall(tr), tr);
  }

  lemma TransformsHolds(t: Value)
    ensures transform in TransformsPart(t).fields
    ensures TransformsPart(t).fields[transform] == Node(TransformPart(t))
  {
    TransformsHoldsAt(Transforms, TransformPart(t));
  }

  lemma ReferenceStatements(k: Kind)
    requires k == Reference
    ensures |InitParams(k)| == 6
    ensures InitParams(k)[1] == Param(uri, uri, Store)
    ensures InitParams(k)[3] == Param(transforms, transforms, OrEmptyList)
    ensures InitParams(k)[4] == Param(digest_method, digest_method, OrEmptyList)
    ensures InitParams(k)[5] == Param(digest_value, digest_value, OrEmptyList)
  {
  }

  lemma ReferenceHoldsIn(k: Kind, kw: map<Name, Value>, ts: Element, dm: Element, dv: Element)
    requires |InitParams(k)| == 6
    requires InitParams(k)[1] == Param(uri, uri, Store)
    requires InitParams(k)[3] == Param(transforms, transforms, OrEmptyList)
    requires InitParams(k)[4] == Param(digest_method, digest_method, OrEmptyList)
    requires InitParams(k)[5] == Param(digest_value, digest_value, OrEmptyList)
    requires uri in kw && kw[uri] == Str("")
    requires transforms in kw && kw[transforms] == Node(ts)
    requires digest_method in kw && kw[digest_method] == Node(dm)
    requires digest_value in kw && kw[digest_value] == Node(dv)
    ensures uri in New(k, kw).fields && New(k, kw).fields[uri] == Str("")
    ensures transforms in New(k, kw).fields && New(k, kw).fields[transforms] == Node(ts)
    ensures digest_method in New(k, kw).fields && New(k, kw).fields[digest_method] == Node(dm)
    ensures digest_value in New(k, kw).fields && New(k, kw).fields[digest_value] == Node(dv)
  {
    Stored(k, kw, 1, uri, Str(""));
    Listed(k, kw, 3, transforms, ts);
    Listed(k, kw, 4, digest_method, dm);
    Listed(k, kw, 5, digest_value, dv);
  }

  lemma ReferenceHoldsAt(k: Kind, ts: Element, dm: Element, dv: Element)
    requires k == Reference
    ensures var fs := New(k, ReferenceCall(ts, dm, dv)).fields;
      && uri in fs && transforms in fs && digest_method in fs && digest_value in fs
      && fs[uri] == Str("")
      && fs[transforms] == Node(ts)
      && fs[digest_method] == Node(dm)
      && fs[digest_value] == Node(dv)
  {
    ReferenceStatements(k);
    ReferenceHoldsIn(k, ReferenceCall(ts, dm, dv), ts, dm, dv);
  }

  lemma ReferenceHolds(t: Value, d: Value)
    ensures var r := ReferencePart(t, d);
      && uri in r.fields && transforms in r.fields && digest_method in r.fields && digest_value in r.fields
      && r.fields[uri] == Str("")
      && r.fields[transforms] == Node(TransformsPart(t))
      && r.fields[digest_method] == Node(DigestMethodPart(d))
      && r.fields[digest_value] == Node(New(DigestValue, map[]))
  {
    ReferenceHoldsAt(Reference, TransformsPart(t), DigestMethodPart(d), New(DigestValue, map[]));
  }

  lemma SignedInfoStatements(k: Kind)
    requires k == SignedInfo
    ensures |InitParams(k)| == 4
    ensures InitParams(k)[1] == Param(canonicalization_method, canonicalization_method, Store)
    ensures InitParams(k)[2] == Param(signature_method, signature_method, Store)
    ensures InitParams(k)[3] == Param(reference, reference, OrEmptyList)
  {
  }

  lemma SignedInfoHoldsIn(k: Kind, kw: map<Name, Value>, cm: Element, sm: Element, r: Element)
    requires |InitParams(k)| == 4
    requires InitParams(k)[1] == Param(canonicalization_method, canonicalization_method, Store)
    requires InitParams(k)[2] == Param(signature_method, signature_method, Store)
    requires InitParams(k)[3] == Param(reference, reference, OrEmptyList)
    requires canonicalization_method in kw && kw[canonicalization_method] == Node(cm)
    requires signature_method in kw && kw[signature_method] == Node(sm)
    requires reference in kw && kw[reference] == Node(r)
    ensures var fs := New(k, kw).fields;
      && canonicalization_method in fs && signature_method in fs && reference in fs
      && fs[canonicalization_method] == Node(cm)
      && fs[signature_method] == Node(sm)
      && fs[reference] == Node(r)
  {
    Stored(k, kw, 1, canonicalization_method, Node(cm));
    Stored(k, kw, 2, signature_method, Node(sm));
    Listed(k, kw, 3, reference, r);
  }

  lemma SignedInfoHoldsAt(k: Kind, cm: Element, sm: Element, r: Element)
    requires k == SignedInfo
    ensures var fs := New(k, SignedInfoCall(cm, sm, r)).fields;
      && canonicalization_method in fs && signature_method in fs && reference in fs
      && fs[canonicalization_method] == Node(cm)
      && fs[signature_method] == Node(sm)
      && fs[reference] == Node(r)
  {
    SignedInfoStatements(k);
    SignedInfoHoldsIn(k, SignedInfoCall(cm, sm, r), cm, sm, r);
  }

  lemma SignedInfoHolds(c: Value, s: Value, t: Value, d: Value)
    ensures var si := SignedInfoPart(c, s, t, d);
      && canonicalization_method in si.fields && signature_method in si.fields && reference in si.fields
      && si.fields[canonicalization_method] == Node(CanonicalizationMethodPart(c))
      && si.fields[signature_method] == Node(SignatureMethodPart(s))
      && si.fields[reference] == Node(ReferencePart(t, d))
  {
    SignedInfoHoldsAt(SignedInfo, CanonicalizationMethodPart(c), SignatureMethodPart(s), ReferencePart(t, d));
  }

  lemma KeyInfoHoldsIn(k: Kind, kv: Element)
    requires k == KeyInfo
    ensures key_value in New(k, KeyInfoCall(kv)).fields
    ensures New(k, KeyInfoCall(kv)).fields[key_value] == Node(kv)
  {
    assert InitParams(k)[1] == Param(key_value, key_value, OrEmptyList);
    StatementHolds(k, KeyInfoCall(kv), 1);
  }

  lemma KeyInfoHolds()
    ensures key_value in KeyInfoPart().fields
    ensures KeyInfoPart().fields[key_value] == Node(New(KeyValue, map[]))
  {
    KeyInfoHoldsIn(KeyInfo, New(KeyValue, map[]));
  }

  lemma SignatureStatements(k: Kind)
    requires k == Signature
    ensures |InitParams(k)| == 5
    ensures InitParams(k)[1] == Param(signed_info, signed_info, Store)
    ensures InitParams(k)[2] == Param(signature_value, signature_value, Store)
    ensures InitParams(k)[3] == Param(key_info, key_info, Store)
  {
  }

  lemma SignatureHoldsIn(k: Kind, kw: map<Name, Value>, si: Element, sv: Element, ki: Element)
    requires |InitParams(k)| == 5
    requires InitParams(k)[1] == Param(signed_info, signed_info, Store)
    requires InitParams(k)[2] == Param(signature_value, signature_value, Store)
    requires InitParams(k)[3] == Param(key_info, key_info, Store)
    requires signed_info in kw && kw[signed_info] == Node(si)
    requires signature_value in kw && kw[signature_value] == Node(sv)
    requires key_info in kw && kw[key_info] == Node(ki)
    ensures var fs := New(k, kw).fields;
      && signed_info in fs && signature_value in fs && key_info in fs
      && fs[signed_info] == Node(si)
      && fs[signature_value] == Node(sv)
      && fs[key_info] == Node(ki)
  {
    Stored(k, kw, 1, signed_info, Node(si));
    Stored(k, kw, 2, signature_value, Node(sv));
    Stored(k, kw, 3, key_info, Node(ki));
  }

  lemma SignatureHoldsAt(k: Kind, si: Element, sv: Element, ki: Element)
    requires k == Signature
    ensures var fs := New(k, SignatureCall(si, sv, ki)).fields;
      && signed_info in fs && signature_value in fs && key_info in fs
      && fs[signed_info] == Node(si)
      && fs[signature_value] == Node(sv)
      && fs[key_info] == Node(ki)
  {
    SignatureStatements(k);
    SignatureHoldsIn(k, SignatureCall(si, sv, ki), si, sv, ki);
  }

  lemma SignatureHolds(c: Value, s: Value, t: Value, d: Value)
    ensures var e := EmptySignature(c, s, t, d);
      && signed_info in e.fields && signature_value in e.fields && key_info in e.fields
      && e.fields[signed_info] == Node(SignedInfoPart(c, s, t, d))
      && e.fields[signature_value] == Node(New(SignatureValue, map[]))
      && e.fields[key_info] == Node(KeyInfoPart())
  {
    SignatureHoldsAt(Signature, SignedInfoPart(c, s, t, d), New(SignatureValue, map[]), KeyInfoPart());
  }

  // ---- replacing one field of a part ---------------------------------------

  // Each `...RebuiltIn` lemma says that changing one keyword of a call changes
  // only the field that keyword's statement sets.

  lemma AlgorithmRebuiltIn(k: Kind, a: Value, a': Value)
    requires k in {CanonicalizationMethod, SignatureMethod, Transform, DigestMethod}
    ensures New(k, AlgorithmCall(a')) == SetField(New(k, AlgorithmCall(a)), algorithm, a')
  {
    var i := if k == Transform then 1 else 0;
    assert InitParams(k)[i] == Param(algorithm, algorithm, Store);
    assert AlgorithmCall(a)[algorithm := a'] == AlgorithmCall(a');
    StatementRebuilt(k, AlgorithmCall(a), i, a');
  }

  lemma TransformsRebuiltIn(k: Kind, tr: Element, tr': Element)
    requires k == Transforms
    ensures New(k, TransformsCall(tr')) == SetField(New(k, TransformsCall(tr)), transform, Node(tr'))
  {
    assert InitParams(k)[0] == Param(transform, transform, OrEmptyList);
    assert TransformsCall(tr)[transform := Node(tr')] == TransformsCall(tr');
    assert OrEmpty(Node(tr')) == Node(tr');
    StatementRebuilt(k, TransformsCall(tr), 0, Node(tr'));
  }

  lemma ReferenceTransformsRebuiltIn(k: Kind, ts: Element, dm: Element, dv: Element, ts': Element)
    requires k == Reference
    ensures New(k, ReferenceCall(ts', dm, dv)) == SetField(New(k, ReferenceCall(ts, dm, dv)), transforms, Node(ts'))
  {
    assert InitParams(k)[3] == Param(transforms, transforms, OrEmptyList);
    assert ReferenceCall(ts, dm, dv)[transforms := Node(ts')] == ReferenceCall(ts', dm, dv);
    assert OrEmpty(Node(ts')) == Node(ts');
    StatementRebuilt(k, ReferenceCall(ts, dm, dv), 3, Node(ts'));
  }

  lemma ReferenceDigestRebuiltIn(k: Kind, ts: Element, dm: Element, dv: Element, dm': Element)
    requires k == Reference
    ensures New(k, ReferenceCall(ts, dm', dv)) == SetField(New(k, ReferenceCall(ts, dm, dv)), digest_method, Node(dm'))
  {
    assert InitParams(k)[4] == Param(digest_method, digest_method, OrEmptyList);
    assert ReferenceCall(ts, dm, dv)[digest_method := Node(dm')] == ReferenceCall(ts, dm', dv);
    assert OrEmpty(Node(dm')) == Node(dm');
    StatementRebuilt(k, ReferenceCall(ts, dm, dv), 4, Node(dm'));
  }

  lemma SignedInfoCanonicalizationRebuiltIn(k: Kind, cm: Element, sm: Element, r: Element, cm': Element)
    requires k == SignedInfo
    ensures New(k, SignedInfoCall(cm', sm, r)) == SetField(New(k, SignedInfoCall(cm, sm, r)), canonicalization_method, Node(cm'))
  {
    assert InitParams(k)[1] == Param(canonicalization_method, canonicalization_method, Store);
    assert SignedInfoCall(cm, sm, r)[canonicalization_method := Node(cm')] == SignedInfoCall(cm', sm, r);
    StatementRebuilt(k, SignedInfoCall(cm, sm, r), 1, Node(cm'));
  }

  lemma SignedInfoSignatureMethodRebuiltIn(k: Kind, cm: Element, sm: Element, r: Element, sm': Element)
    requires k == SignedInfo
    ensures New(k, SignedInfoCall(cm, sm', r)) == SetField(New(k, SignedInfoCall(cm, sm, r)), signature_method, Node(sm'))
  {
    assert InitParams(k)[2] == Param(signature_method, signature_method, Store);
    assert SignedInfoCall(cm, sm, r)[signature_method := Node(sm')] == SignedInfoCall(cm, sm', r);
    StatementRebuilt(k, SignedInfoCall(cm, sm, r), 2, Node(sm'));
  }

  lemma SignedInfoReferenceRebuiltIn(k: Kind, cm: Element, sm: Element, r: Element, r': Element)
    requires k == SignedInfo
    ensures New(k, SignedInfoCall(cm, sm, r')) == SetField(New(k, SignedInfoCall(cm, sm, r)), reference, Node(r'))
  {
    assert InitParams(k)[3] == Param(reference, reference, OrEmptyList);
    assert SignedInfoCall(cm, sm, r)[reference := Node(r')] == SignedInfoCall(cm, sm, r');
    assert OrEmpty(Node(r')) == Node(r');
    StatementRebuilt(k, SignedInfoCall(cm, sm, r), 3, Node(r'));
  }

  lemma SignatureRebuiltIn(k: Kind, si: Element, sv: Element, ki: Element, si': Element)
    requires k == Signature
    ensures New(k, SignatureCall(si', sv, ki)) == SetField(New(k, SignatureCall(si, sv, ki)), signed_info, Node(si'))
  {
    assert InitParams(k)[1] == Param(signed_info, signed_info, Store);
    assert SignatureCall(si, sv, ki)[signed_info := Node(si')] == SignatureCall(si', sv, ki);
    StatementRebuilt(k, SignatureCall(si, sv, ki), 1, Node(si'));
  }

  // ---- one level of the template at a time ----------------------------------

  lemma SignatureGet(c: Value, s: Value, t: Value, d: Value, path: seq<Name>)
    requires |path| >= 2 && path[0] == signed_info
    ensures Get(EmptySignature(c, s, t, d), path) == Get(SignedInfoPart(c, s, t, d), path, 1)
  {
    SignatureHolds(c, s, t, d);
    GetThrough(EmptySignature(c, s, t, d), path, 0, SignedInfoPart(c, s, t, d));
  }

  lemma SignaturePut(c: Value, s: Value, t: Value, d: Value, c': Value, s': Value, t': Value, d': Value,
                     path: seq<Name>, v: Value)
    requires |path| >= 2 && path[0] == signed_info
    requires Put(SignedInfoPart(c, s, t, d), path, v, 1) == SignedInfoPart(c', s', t', d')
    ensures Put(EmptySignature(c, s, t, d), path, v) == EmptySignature(c', s', t', d')
  {
    SignatureHolds(c, s, t, d);
    PutThrough(EmptySignature(c, s, t, d), path, v, 0, SignedInfoPart(c, s, t, d));
    SignatureRebuiltIn(Signature, SignedInfoPart(c, s, t, d), New(SignatureValue, map[]), KeyInfoPart(),
      SignedInfoPart(c', s', t', d'));
  }

  lemma KeyInfoGet(c: Value, s: Value, t: Value, d: Value, path: seq<Name>)
    requires |path| >= 2 && path[0] == key_info
    ensures Get(EmptySignature(c, s, t, d), path) == Get(KeyInfoPart(), path, 1)
  {
    SignatureHolds(c, s, t, d);
    GetThrough(EmptySignature(c, s, t, d), path, 0, KeyInfoPart());
  }

  lemma CanonicalizationMethodGet(c: Value, s: Value, t: Value, d: Value, path: seq<Name>)
    requires |path| >= 3 && path[1] == canonicalization_method
    ensures Get(SignedInfoPart(c, s, t, d), path, 1) == Get(CanonicalizationMethodPart(c), path, 2)
  {
    SignedInfoHolds(c, s, t, d);
    GetThrough(SignedInfoPart(c, s, t, d), path, 1, CanonicalizationMethodPart(c));
  }

  lemma CanonicalizationMethodPut(c: Value, s: Value, t: Value, d: Value, c': Value, path: seq<Name>, v: Value)
    requires |path| >= 3 && path[1] == canonicalization_method
    requires Put(CanonicalizationMethodPart(c), path, v, 2) == CanonicalizationMethodPart(c')
    ensures Put(SignedInfoPart(c, s, t, d), path, v, 1) == SignedInfoPart(c', s, t, d)
  {
    SignedInfoHolds(c, s, t, d);
    PutThrough(SignedInfoPart(c, s, t, d), path, v, 1, CanonicalizationMethodPart(c));
    SignedInfoCanonicalizationRebuiltIn(SignedInfo, CanonicalizationMethodPart(c), SignatureMethodPart(s),
      ReferencePart(t, d), CanonicalizationMethodPart(c'));
  }

  lemma SignatureMethodGet(c: Value, s: Value, t: Value, d: Value, path: seq<Name>)
    requires |path| >= 3 && path[1] == signature_method
    ensures Get(SignedInfoPart(c, s, t, d), path, 1) == Get(SignatureMethodPart(s), path, 2)
  {
    SignedInfoHolds(c, s, t, d);
    GetThrough(SignedInfoPart(c, s, t, d), path, 1, SignatureMethodPart(s));
  }

  lemma SignatureMethodPut(c: Value, s: Value, t: Value, d: Value, s': Value, path: seq<Name>, v: Value)
    requires |path| >= 3 && path[1] == signature_method
    requires Put(SignatureMethodPart(s), path, v, 2) == SignatureMethodPart(s')
    ensures Put(SignedInfoPart(c, s, t, d), path, v, 1) == SignedInfoPart(c, s', t, d)
  {
    SignedInfoHolds(c, s, t, d);
    PutThrough(SignedInfoPart(c, s, t, d), path, v, 1, SignatureMethodPart(s));
    SignedInfoSignatureMethodRebuiltIn(SignedInfo, CanonicalizationMethodPart(c), SignatureMethodPart(s),
      ReferencePart(t, d), SignatureMethodPart(s'));
  }

  lemma ReferenceGet(c: Value, s: Value, t: Value, d: Value, path: seq<Name>)
    requires |path| >= 3 && path[1] == reference
    ensures Get(SignedInfoPart(c, s, t, d), path, 1) == Get(ReferencePart(t, d), path, 2)
  {
    SignedInfoHolds(c, s, t, d);
    GetThrough(SignedInfoPart(c, s, t, d), path, 1, ReferencePart(t, d));
  }

  lemma ReferencePut(c: Value, s: Value, t: Value, d: Value, t': Value, d': Value, path: seq<Name>, v: Value)
    requires |path| >= 3 && path[1] == reference
    requires Put(ReferencePart(t, d), path, v, 2) == ReferencePart(t', d')
    ensures Put(SignedInfoPart(c, s, t, d), path, v, 1) == SignedInfoPart(c, s, t', d')
  {
    SignedInfoHolds(c, s, t, d);
    PutThrough(SignedInfoPart(c, s, t, d), path, v, 1, ReferencePart(t, d));
    SignedInfoReferenceRebuiltIn(SignedInfo, CanonicalizationMethodPart(c), SignatureMethodPart(s),
      ReferencePart(t, d), ReferencePart(t', d'));
  }

  lemma TransformsGet(t: Value, d: Value, path: seq<Name>)
    requires |path| >= 4 && path[2] == transforms
    ensures Get(ReferencePart(t, d), path, 2) == Get(TransformsPart(t), path, 3)
  {
    ReferenceHolds(t, d);
    GetThrough(ReferencePart(t, d), path, 2, TransformsPart(t));
  }

  lemma TransformsPut(t: Value, d: Value, t': Value, path: seq<Name>, v: Value)
    requires |path| >= 4 && path[2] == transforms
    requires Put(TransformsPart(t), path, v, 3) == TransformsPart(t')
    ensures Put(ReferencePart(t, d), path, v, 2) == ReferencePart(t', d)
  {
    ReferenceHolds(t, d);
    PutThrough(ReferencePart(t, d), path, v, 2, TransformsPart(t));
    ReferenceTransformsRebuiltIn(Reference, TransformsPart(t), DigestMethodPart(d), New(DigestValue, map[]),
      TransformsPart(t'));
  }

  lemma DigestMethodGet(t: Value, d: Value, path: seq<Name>)
    requires |path| >= 4 && path[2] == digest_method
    ensures Get(ReferencePart(t, d), path, 2) == Get(DigestMethodPart(d), path, 3)
  {
    ReferenceHolds(t, d);
    GetThrough(ReferencePart(t, d), path, 2, DigestMethodPart(d));
  }

  lemma DigestMethodPut(t: Value, d: Value, d': Value, path: seq<Name>, v: Value)
    requires |path| >= 4 && path[2] == digest_method
    requires Put(DigestMethodPart(d), path, v, 3) == DigestMethodPart(d')
    ensures Put(ReferencePart(t, d), path, v, 2) == ReferencePart(t, d')
  {
    ReferenceHolds(t, d);
    PutThrough(ReferencePart(t, d), path, v, 2, DigestMethodPart(d));
    ReferenceDigestRebuiltIn(Reference, TransformsPart(t), DigestMethodPart(d), New(DigestValue, map[]),
      DigestMethodPart(d'));
  }

  lemma TransformGet(t: Value, path: seq<Name>)
    requires |path| >= 5 && path[3] == transform
    ensures Get(TransformsPart(t), path, 3) == Get(TransformPart(t), path, 4)
  {
    TransformsHolds(t);
    GetThrough(TransformsPart(t), path, 3, TransformPart(t));
  }

  lemma TransformPut(t: Value, t': Value, path: seq<Name>, v: Value)
    requires |path| >= 5 && path[3] == transform
    requires Put(TransformPart(t), path, v, 4) == TransformPart(t')
    ensures Put(TransformsPart(t), path, v, 3) == TransformsPart(t')
  {
    TransformsHolds(t);
    PutThrough(TransformsPart(t), path, v, 3, TransformPart(t));
    TransformsRebuiltIn(Transforms, TransformPart(t), TransformPart(t'));
  }

  /** At the end of a path, the `algorithm` of an algorithm element. */
  lemma AlgorithmAt(k: Kind, a: Value, path: seq<Name>, v: Value, from: nat)
    requires k in {CanonicalizationMethod, SignatureMethod, Transform, DigestMethod}
    requires from + 1 == |path| && path[from] == algorithm
    ensures Get(New(k, AlgorithmCall(a)), path, from) == Some(a)
    ensures Put(New(k, AlgorithmCall(a)), path, v, from) == New(k, AlgorithmCall(v))
  {
    AlgorithmHoldsIn(k, a);
    GetLast(New(k, AlgorithmCall(a)), path, from);
    PutLast(New(k, AlgorithmCall(a)), path, v, from);
    AlgorithmRebuiltIn(k, a, v);
  }

  // ---- what the template holds -----------------------------------------------

  /** The canonicalization algorithm is the `Algorithm` of the template's
      CanonicalizationMethod, and setting it there gives the template built
      with the new one. */
  lemma CanonicalizationPlaced(c: Value, s: Value, t: Value, d: Value, c': Value)
    ensures Get(EmptySignature(c, s, t, d), CanonicalizationPath) == Some(c)
    ensures Put(EmptySignature(c, s, t, d), CanonicalizationPath, c') == EmptySignature(c', s, t, d)
  {
    AlgorithmAt(CanonicalizationMethod, c, CanonicalizationPath, c', 2);
    CanonicalizationMethodGet(c, s, t, d, CanonicalizationPath);
    SignatureGet(c, s, t, d, CanonicalizationPath);
    CanonicalizationMethodPut(c, s, t, d, c', CanonicalizationPath, c');
    SignaturePut(c, s, t, d, c', s, t, d, CanonicalizationPath, c');
  }

  /** Likewise for the signature algorithm and the SignatureMethod. */
  lemma SignatureMethodPlaced(c: Value, s: Value, t: Value, d: Value, s': Value)
    ensures Get(EmptySignature(c, s, t, d), SignaturePath) == Some(s)
    ensures Put(EmptySignature(c, s, t, d), SignaturePath, s') == EmptySignature(c, s', t, d)
  {
    AlgorithmAt(SignatureMethod, s, SignaturePath, s', 2);
    SignatureMethodGet(c, s, t, d, SignaturePath);
    SignatureGet(c, s, t, d, SignaturePath);
    SignatureMethodPut(c, s, t, d, s', SignaturePath, s');
    SignaturePut(c, s, t, d, c, s', t, d, SignaturePath, s');
  }

  /** Likewise for the transform algorithm and the Reference's one Transform. */
  lemma TransformPlaced(c: Value, s: Value, t: Value, d: Value, t': Value)
    ensures Get(EmptySignature(c, s, t, d), TransformPath) == Some(t)
    ensures Put(EmptySignature(c, s, t, d), TransformPath, t') == EmptySignature(c, s, t', d)
  {
    AlgorithmAt(Transform, t, TransformPath, t', 4);
    TransformGet(t, TransformPath);
    TransformsGet(t, d, TransformPath);
    ReferenceGet(c, s, t, d, TransformPath);
    SignatureGet(c, s, t, d, TransformPath);
    TransformPut(t, t', TransformPath, t');
    TransformsPut(t, d, t', TransformPath, t');
    ReferencePut(c, s, t, d, t', d, TransformPath, t');
    SignaturePut(c, s, t, d, c, s, t', d, TransformPath, t');
  }

  /** Likewise for the digest algorithm and the Reference's DigestMethod. */
  lemma DigestPlaced(c: Value, s: Value, t: Value, d: Value, d': Value)
    ensures Get(EmptySignature(c, s, t, d), DigestPath) == Some(d)
    ensures Put(EmptySignature(c, s, t, d), DigestPath, d') == EmptySignature(c, s, t, d')
  {
    AlgorithmAt(DigestMethod, d, DigestPath, d', 3);
    DigestMethodGet(t, d, DigestPath);
    ReferenceGet(c, s, t, d, DigestPath);
    SignatureGet(c, s, t, d, DigestPath);
    DigestMethodPut(t, d, d', DigestPath, d');
    ReferencePut(c, s, t, d, t, d', DigestPath, d');
    SignaturePut(c, s, t, d, c, s, t, d', DigestPath, d');
  }

  /** Any two templates differ only in the four algorithms: setting the four
      algorithms of one to those of the other gives the other. */
  lemma OnlyAlgorithmsDiffer(c: Value, s: Value, t: Value, d: Value, c': Value, s': Value, t': Value, d': Value)
    ensures Put(Put(Put(Put(EmptySignature(c, s, t, d), CanonicalizationPath, c'), SignaturePath, s'),
                TransformPath, t'), DigestPath, d')
      == EmptySignature(c', s', t', d')
  {
    CanonicalizationPlaced(c, s, t, d, c');
    SignatureMethodPlaced(c', s, t, d, s');
    TransformPlaced(c', s', t, d, t');
    DigestPlaced(c', s', t', d, d');
  }

  /** Called without arguments, the template carries the identifiers the
      function's signature names. */
  lemma DefaultAlgorithms()
    ensures Get(EmptySignature(), CanonicalizationPath) == Some(Str(C14nWithComments))
    ensures Get(EmptySignature(), SignaturePath) == Some(Str(SigRsaSha1))
    ensures Get(EmptySignature(), TransformPath) == Some(Str(TransformEnveloped))
    ensures Get(EmptySignature(), DigestPath) == Some(Str(DigestSha1))
  {
    var c, s, t, d := Str(C14nWithComments), Str(SigRsaSha1), Str(TransformEnveloped), Str(DigestSha1);
    CanonicalizationPlaced(c, s, t, d, c);
    SignatureMethodPlaced(c, s, t, d, s);
    TransformPlaced(c, s, t, d, t);
    DigestPlaced(c, s, t, d, d);
  }

  /** The Reference's `URI` is the empty string, its DigestValue, the
      SignatureValue and the KeyValue are instances made without arguments. */
  lemma FixedParts(c: Value, s: Value, t: Value, d: Value)
    ensures Get(EmptySignature(c, s, t, d), UriPath) == Some(Str(""))
    ensures Get(EmptySignature(c, s, t, d), DigestValuePath) == Some(Node(New(DigestValue, map[])))
    ensures Get(EmptySignature(c, s, t, d), SignatureValuePath) == Some(Node(New(SignatureValue, map[])))
    ensures Get(EmptySignature(c, s, t, d), KeyValuePath) == Some(Node(New(KeyValue, map[])))
  {
    UriRead(c, s, t, d);
    DigestValueRead(c, s, t, d);
    SignatureValueRead(c, s, t, d);
    KeyValueRead(c, s, t, d);
  }

  lemma UriRead(c: Value, s: Value, t: Value, d: Value)
    ensures Get(EmptySignature(c, s, t, d), UriPath) == Some(Str(""))
  {
    SignatureGet(c, s, t, d, UriPath);
    ReferenceGet(c, s, t, d, UriPath);
    ReferenceHolds(t, d);
    GetLast(ReferencePart(t, d), UriPath, 2);
  }

  lemma DigestValueRead(c: Value, s: Value, t: Value, d: Value)
    ensures Get(EmptySignature(c, s, t, d), DigestValuePath) == Some(Node(New(DigestValue, map[])))
  {
    SignatureGet(c, s, t, d, DigestValuePath);
    ReferenceGet(c, s, t, d, DigestValuePath);
    ReferenceHolds(t, d);
    GetLast(ReferencePart(t, d), DigestValuePath, 2);
  }

  lemma SignatureValueRead(c: Value, s: Value, t: Value, d: Value)
    ensures Get(EmptySignature(c, s, t, d), SignatureValuePath) == Some(Node(New(SignatureValue, map[])))
  {
    SignatureHolds(c, s, t, d);
    GetLast(EmptySignature(c, s, t, d), SignatureValuePath, 0);
  }

  lemma KeyValueRead(c: Value, s: Value, t: Value, d: Value)
    ensures Get(EmptySignature(c, s, t, d), KeyValuePath) == Some(Node(New(KeyValue, map[])))
  {
    KeyInfoGet(c, s, t, d, KeyValuePath);
    KeyInfoHolds();
    GetLast(KeyInfoPart(), KeyValuePath, 1);
  }

  lemma ReferenceRead(c: Value, s: Value, t: Value, d: Value)
    ensures Get(EmptySignature(c, s, t, d), ReferencePath) == Some(Node(ReferencePart(t, d)))
  {
    SignatureGet(c, s, t, d, ReferencePath);
    SignedInfoHolds(c, s, t, d);
    GetLast(SignedInfoPart(c, s, t, d), ReferencePath, 1);
  }

  lemma TransformsRead(c: Value, s: Value, t: Value, d: Value)
    ensures Get(EmptySignature(c, s, t, d), TransformsPath) == Some(Node(TransformsPart(t)))
  {
    SignatureGet(c, s, t, d, TransformsPath);
    ReferenceGet(c, s, t, d, TransformsPath);
    ReferenceHolds(t, d);
    GetLast(ReferencePart(t, d), TransformsPath, 2);
  }

  lemma DigestMethodRead(c: Value, s: Value, t: Value, d: Value)
    ensures Get(EmptySignature(c, s, t, d), DigestMethodElementPath) == Some(Node(DigestMethodPart(d)))
  {
    SignatureGet(c, s, t, d, DigestMethodElementPath);
    ReferenceGet(c, s, t, d, DigestMethodElementPath);
    ReferenceHolds(t, d);
    GetLast(ReferencePart(t, d), DigestMethodElementPath, 2);
  }

  lemma TransformRead(c: Value, s: Value, t: Value, d: Value)
    ensures Get(EmptySignature(c, s, t, d), TransformElementPath) == Some(Node(TransformPart(t)))
  {
    TransformReadAt(c, s, t, d, TransformElementPath);
  }

  lemma TransformReadAt(c: Value, s: Value, t: Value, d: Value, path: seq<Name>)
    requires |path| == 4 && path[0] == signed_info && path[1] == reference
    requires path[2] == transforms && path[3] == transform
    ensures Get(EmptySignature(c, s, t, d), path) == Some(Node(TransformPart(t)))
  {
    SignatureGet(c, s, t, d, path);
    ReferenceGet(c, s, t, d, path);
    TransformBelowReference(t, d, path);
  }

  lemma TransformBelowReference(t: Value, d: Value, path: seq<Name>)
    requires |path| == 4 && path[2] == transforms && path[3] == transform
    ensures Get(ReferencePart(t, d), path, 2) == Some(Node(TransformPart(t)))
  {
    TransformsGet(t, d, path);
    TransformsHolds(t);
    GetLast(TransformsPart(t), path, 3);
  }

  // ---- list children that hold one element -----------------------------------

  lemma TransformsListIn(k: Kind)
    requires k == Transforms
    ensures transform in DescriptorOf(k).ListFields()
  {
    assert InitParams(k)[0] == Param(transform, transform, OrEmptyList);
    OrEmptyFieldListed(k, 0);
  }

  lemma ReferenceListsIn(k: Kind)
    requires k == Reference
    ensures {transforms, digest_method, digest_value} <= DescriptorOf(k).ListFields()
  {
    var ps := InitParams(k);
    assert ps == ReferenceInit;
    OrEmptyFieldListed(k, 3);
    OrEmptyFieldListed(k, 4);
    OrEmptyFieldListed(k, 5);
  }

  lemma SignedInfoListIn(k: Kind)
    requires k == SignedInfo
    ensures reference in DescriptorOf(k).ListFields()
  {
    assert InitParams(k)[3] == Param(reference, reference, OrEmptyList);
    OrEmptyFieldListed(k, 3);
  }

  lemma KeyInfoListIn(k: Kind)
    requires k == KeyInfo
    ensures key_value in DescriptorOf(k).ListFields()
  {
    assert InitParams(k)[1] == Param(key_value, key_value, OrEmptyList);
    OrEmptyFieldListed(k, 1);
  }

  /** Six of the template's fields are list children of their class, yet each
      holds the one element passed for it, not a list: the function passes
      single instances where the constructors expect lists. */
  lemma ListChildrenHoldOneElement(c: Value, s: Value, t: Value, d: Value)
    ensures transform in DescriptorOf(Transforms).ListFields()
    ensures {transforms, digest_method, digest_value} <= DescriptorOf(Reference).ListFields()
    ensures reference in DescriptorOf(SignedInfo).ListFields()
    ensures key_value in DescriptorOf(KeyInfo).ListFields()
    ensures Get(EmptySignature(c, s, t, d), ReferencePath) == Some(Node(ReferencePart(t, d)))
    ensures Get(EmptySignature(c, s, t, d), TransformsPath) == Some(Node(TransformsPart(t)))
    ensures Get(EmptySignature(c, s, t, d), TransformElementPath) == Some(Node(TransformPart(t)))
    ensures Get(EmptySignature(c, s, t, d), DigestMethodElementPath) == Some(Node(DigestMethodPart(d)))
    ensures Get(EmptySignature(c, s, t, d), DigestValuePath) == Some(Node(New(DigestValue, map[])))
    ensures Get(EmptySignature(c, s, t, d), KeyValuePath) == Some(Node(New(KeyValue, map[])))
  {
    TransformsListIn(Transforms);
    ReferenceListsIn(Reference);
    SignedInfoListIn(SignedInfo);
    KeyInfoListIn(KeyInfo);
    ReferenceRead(c, s, t, d);
    TransformsRead(c, s, t, d);
    TransformRead(c, s, t, d);
    DigestMethodRead(c, s, t, d);
    DigestValueRead(c, s, t, d);
    KeyValueRead(c, s, t, d);
  }

  // ---- no call raises TypeError ---------------------------------------------

  lemma AlgorithmAcceptedIn(k: Kind, a: Value)
    requires k in {CanonicalizationMethod, SignatureMethod, Transform, DigestMethod}
    ensures Construct(k, AlgorithmCall(a)) == Success(New(k, AlgorithmCall(a)))
  {
    var i := if k == Transform then 1 else 0;
    assert InitParams(k)[i] in InitParams(k) && InitParams(k)[i].name == algorithm;
  }

  lemma TransformsAcceptedIn(k: Kind, tr: Element)
    requires k == Transforms
    ensures Construct(k, TransformsCall(tr)) == Success(New(k, TransformsCall(tr)))
  {
    assert InitParams(k)[0] in InitParams(k) && InitParams(k)[0].name == transform;
  }

  lemma ReferenceAcceptedIn(k: Kind, ts: Element, dm: Element, dv: Element)
    requires k == Reference
    ensures Construct(k, ReferenceCall(ts, dm, dv)) == Success(New(k, ReferenceCall(ts, dm, dv)))
  {
    var ps := InitParams(k);
    assert ps == ReferenceInit;
    assert ps[1] in ps && ps[3] in ps && ps[4] in ps && ps[5] in ps;
  }

  lemma SignedInfoAcceptedIn(k: Kind, cm: Element, sm: Element, r: Element)
    requires k == SignedInfo
    ensures Construct(k, SignedInfoCall(cm, sm, r)) == Success(New(k, SignedInfoCall(cm, sm, r)))
  {
    var ps := InitParams(k);
    assert ps == SignedInfoInit;
    assert ps[1] in ps && ps[2] in ps && ps[3] in ps;
  }

  lemma KeyInfoAcceptedIn(k: Kind, kv: Element)
    requires k == KeyInfo
    ensures Construct(k, KeyInfoCall(kv)) == Success(New(k, KeyInfoCall(kv)))
  {
    assert InitParams(k)[1] in InitParams(k) && InitParams(k)[1].name == key_value;
  }

  lemma SignatureAcceptedIn(k: Kind, si: Element, sv: Element, ki: Element)
    requires k == Signature
    ensures Construct(k, SignatureCall(si, sv, ki)) == Success(New(k, SignatureCall(si, sv, ki)))
  {
    var ps := InitParams(k);
    assert ps == SignatureInit;
    assert ps[1] in ps && ps[2] in ps && ps[3] in ps;
  }

  /** Every constructor call the function makes accepts its keywords, so none
      raises TypeError and each builds its part. */
  lemma CallsAccepted(c: Value, s: Value, t: Value, d: Value)
    ensures Construct(CanonicalizationMethod, AlgorithmCall(c)) == Success(CanonicalizationMethodPart(c))
    ensures Construct(SignatureMethod, AlgorithmCall(s)) == Success(SignatureMethodPart(s))
    ensures Construct(Transform, AlgorithmCall(t)) == Success(TransformPart(t))
    ensures Construct(Transforms, TransformsCall(TransformPart(t))) == Success(TransformsPart(t))
    ensures Construct(DigestMethod, AlgorithmCall(d)) == Success(DigestMethodPart(d))
    ensures Construct(DigestValue, map[]) == Success(New(DigestValue, map[]))
    ensures Construct(Reference, ReferenceCall(TransformsPart(t), DigestMethodPart(d), New(DigestValue, map[])))
      == Success(ReferencePart(t, d))
    ensures Construct(SignedInfo, SignedInfoCall(CanonicalizationMethodPart(c), SignatureMethodPart(s), ReferencePart(t, d)))
      == Success(SignedInfoPart(c, s, t, d))
    ensures Construct(SignatureValue, map[]) == Success(New(SignatureValue, map[]))
    ensures Construct(KeyValue, map[]) == Success(New(KeyValue, map[]))
    ensures Construct(KeyInfo, KeyInfoCall(New(KeyValue, map[]))) == Success(KeyInfoPart())
    ensures Construct(Signature, SignatureCall(SignedInfoPart(c, s, t, d), New(SignatureValue, map[]), KeyInfoPart()))
      == Success(EmptySignature(c, s, t, d))
  {
    AlgorithmAcceptedIn(CanonicalizationMethod, c);
    AlgorithmAcceptedIn(SignatureMethod, s);
    AlgorithmAcceptedIn(Transform, t);
    TransformsAcceptedIn(Transforms, TransformPart(t));
    AlgorithmAcceptedIn(DigestMethod, d);
    ReferenceAcceptedIn(Reference, TransformsPart(t), DigestMethodPart(d), New(DigestValue, map[]));
    SignedInfoAcceptedIn(SignedInfo, CanonicalizationMethodPart(c), SignatureMethodPart(s), ReferencePart(t, d));
    KeyInfoAcceptedIn(KeyInfo, New(KeyValue, map[]));
    SignatureAcceptedIn(Signature, SignedInfoPart(c, s, t, d), New(SignatureValue, map[]), KeyInfoPart());
  }
}
