/** The fixed strings of the XML-Signature object model: the namespace, the
    tag template and the algorithm identifiers (src/xmldsig/__init__.py:37-52).
    The identifiers are opaque strings here; nothing gives them a meaning. */
module Constants {

  const DsNamespace := "http://www.w3.org/2000/09/xmldsig#"

  const EncodingBase64 := "http://www.w3.org/2000/09/xmldsig#base64"
  const DigestSha1 := "http://www.w3.org/2000/09/xmldsig#sha1"
  const AlgExcC14n := "http://www.w3.org/2001/10/xml-exc-c14n#"
  const SigDsaSha1 := "http://www.w3.org/2000/09/xmldsig#dsa-sha1"
  const SigRsaSha1 := "http://www.w3.org/2000/09/xmldsig#rsa-sha1"
  const MacSha1 := "http://www.w3.org/2000/09/xmldsig#hmac-sha1"

  const C14n := "http://www.w3.org/TR/2001/REC-xml-c14n-20010315"
  const C14nWithComments := "http://www.w3.org/TR/2001/REC-xml-c14n-20010315#WithComments"

  const TransformXslt := "http://www.w3.org/TR/1999/REC-xslt-19991116"
  const TransformXpath := "http://www.w3.org/TR/1999/REC-xpath-19991116"
  const TransformEnveloped := "http://www.w3.org/2000/09/xmldsig#enveloped-signature"

  /** `'{%s}X' % DS_NAMESPACE`: the namespace-qualified form of a local tag, as
      every child table writes its keys. */
  function Qualified(localTag: string): string
  {
    "{" + DsNamespace + "}" + localTag
  }

  /** Distinct local tags give distinct qualified keys. */
  lemma QualifiedInjective(a: string, b: string)
    ensures Qualified(a) == Qualified(b) ==> a == b
  {
    if Qualified(a) == Qualified(b) {
      assert a == Qualified(a)[|DsNamespace| + 2..];
      assert b == Qualified(b)[|DsNamespace| + 2..];
    }
  }

  /** `DS_TEMPLATE % tag`, with the template spelled out as its own literal. */
  function DsTemplate(localTag: string): (q: string)
    ensures q == Qualified(localTag)
  {
    TemplatePrefix();
    DsTemplatePrefix + localTag
  }

  /** The literal prefix `DS_TEMPLATE` is written with. */
  const DsTemplatePrefix := "{http://www.w3.org/2000/09/xmldsig#}"

  /** The template's prefix is the namespace in braces. */
  lemma TemplatePrefix()
    ensures DsTemplatePrefix == "{" + DsNamespace + "}"
  {
  }
}
