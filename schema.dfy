/**
 * The part of the identity-profile schema that group updates touch. A profile is a record of
 * independently signed attributes; each attribute carries its own metadata (creation and
 * modification timestamps, verification flag) and a signature block naming its publisher.
 * Only a representative handful of the schema's top-level fields is kept: the ones the group
 * update copies (`userId`, `active`, the `mozilliansorg` access attribute) and some that it resets.
 */
module Schema {
  import opened Outcomes

  /** The systems allowed to write attributes. */
  datatype PublisherAuthority = Ldap | Mozilliansorg | Hris | Cis | AccessProvider

  datatype Publisher = Publisher(alg: string, typ: string, name: PublisherAuthority, value: string)

  datatype Signature = Signature(publisher: Publisher, additional: seq<Publisher>)

  /** Timestamps are RFC 3339 strings; the empty string means "never set". */
  datatype Metadata = Metadata(classification: string, lastModified: string, created: string, verified: bool)

  datatype StandardAttribute<T> = StandardAttribute(metadata: Metadata, signature: Signature, value: Option<T>)

  /** Group name to an (unused) per-group value. */
  type GroupValues = map<string, Option<string>>

  /** One provider's entry under `access_information`. */
  datatype AccessAttribute = AccessAttribute(metadata: Metadata, signature: Signature, values: Option<GroupValues>)

  datatype AccessInformation = AccessInformation(
    ldap: AccessAttribute,
    mozilliansorg: AccessAttribute,
    hris: AccessAttribute,
    accessProvider: AccessAttribute)

  datatype Profile = Profile(
    userId: StandardAttribute<string>,
    active: StandardAttribute<bool>,
    primaryEmail: StandardAttribute<string>,
    firstName: StandardAttribute<string>,
    lastName: StandardAttribute<string>,
    accessInformation: AccessInformation)

  const DEFAULT_METADATA := Metadata("", "", "", false)
  const DEFAULT_SIGNATURE := Signature(Publisher("", "", Cis, ""), [])
  const DEFAULT_ACCESS := AccessAttribute(DEFAULT_METADATA, DEFAULT_SIGNATURE, None)

  function DefaultAttribute<T>(): StandardAttribute<T> {
    StandardAttribute(DEFAULT_METADATA, DEFAULT_SIGNATURE, None)
  }

  /** The schema's empty profile: no values, empty timestamps, unverified. */
  function DefaultProfile(): Profile {
    Profile(
      DefaultAttribute(), DefaultAttribute(), DefaultAttribute(), DefaultAttribute(), DefaultAttribute(),
      AccessInformation(DEFAULT_ACCESS, DEFAULT_ACCESS, DEFAULT_ACCESS, DEFAULT_ACCESS))
  }
}
