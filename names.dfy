/** The Python identifiers the element classes use for instance fields and
    constructor parameters (src/xmldsig/__init__.py:61-1029). Each identifier is
    an atom: the model only ever compares them. `object_` and `type_` stand
    for `object` and `type`, which are reserved words in Dafny. */
module Names {

  datatype Name =
    | identifier | mime_type | encoding | spki_sexp | pgp_key_id | pgp_key_packet
    | x509_issuer_name | x509_issuer_number | x509_issuer_serial | x509_ski
    | x509_subject_name | x509_certificate | x509_crl | xpath | algorithm | transform
    | transforms | uri | typ | modulus | exponent | p | q | g | y | j | seed
    | pgen_counter | rsa_key_value | dsa_key_value | key_name | key_value
    | retrieval_method | x509_data | pgp_data | spki_data | mgmt_data | type_
    | digest_method | digest_value | hmac_output_length | canonicalization_method
    | signature_method | reference | signed_info | signature_value | key_info | object_
    | objects | text | extension_elements | extension_attributes

  /** How each identifier is written in the source. */
  function Spelling(n: Name): string
  {
    match n
    case identifier => "identifier"
    case mime_type => "mime_type"
    case encoding => "encoding"
    case spki_sexp => "spki_sexp"
    case pgp_key_id => "pgp_key_id"
    case pgp_key_packet => "pgp_key_packet"
    case x509_issuer_name => "x509_issuer_name"
    case x509_issuer_number => "x509_issuer_number"
    case x509_issuer_serial => "x509_issuer_serial"
    case x509_ski => "x509_ski"
    case x509_subject_name => "x509_subject_name"
    case x509_certificate => "x509_certificate"
    case x509_crl => "x509_crl"
    case xpath => "xpath"
    case algorithm => "algorithm"
    case transform => "transform"
    case transforms => "transforms"
    case uri => "uri"
    case typ => "typ"
    case modulus => "modulus"
    case exponent => "exponent"
    case p => "p"
    case q => "q"
    case g => "g"
    case y => "y"
    case j => "j"
    case seed => "seed"
    case pgen_counter => "pgen_counter"
    case rsa_key_value => "rsa_key_value"
    case dsa_key_value => "dsa_key_value"
    case key_name => "key_name"
    case key_value => "key_value"
    case retrieval_method => "retrieval_method"
    case x509_data => "x509_data"
    case pgp_data => "pgp_data"
    case spki_data => "spki_data"
    case mgmt_data => "mgmt_data"
    case type_ => "type"
    case digest_method => "digest_method"
    case digest_value => "digest_value"
    case hmac_output_length => "hmac_output_length"
    case canonicalization_method => "canonicalization_method"
    case signature_method => "signature_method"
    case reference => "reference"
    case signed_info => "signed_info"
    case signature_value => "signature_value"
    case key_info => "key_info"
    case object_ => "object"
    case objects => "objects"
    case text => "text"
    case extension_elements => "extension_elements"
    case extension_attributes => "extension_attributes"
  }
}
