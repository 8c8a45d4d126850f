/**
 * The data the SAML status check reads and produces.
 *
 * The OneLogin `Auth` object and the SonarQube `SamlSettings` are treated as
 * plain input values: what `Auth.processResponse` did is recorded in the
 * `Auth` value, and the settings are the field names already read from the
 * configuration. `SamlAuthenticationStatus` is the report object that the
 * checker fills in place.
 */
module SamlTypes {

  /** A Java reference that may be null. */
  datatype Nullable<+T> = Null | NonNull(value: T)

  /** A `java.util.Optional`. */
  datatype Optional<+T> = Empty | Present(value: T) {
    /** `Optional.orElse` */
    function OrElse(default: T): T {
      match this
      case Present(v) => v
      case Empty => default
    }
  }

  /** The values of one SAML attribute. */
  type AttributeValues = seq<string>

  /**
   * The state of a OneLogin `Auth` object once `processResponse` has run.
   * - `thrown`: `Empty` when `processResponse` returned normally, otherwise
   *   the message of the exception it threw (which Java allows to be null);
   * - `errors`: the list returned by `getErrors()`, whose entries may be null;
   * - `lastErrorReason`: what `getLastErrorReason()` returns;
   * - `attributes`: what `getAttributes()` returns, from attribute name to
   *   its values (a value may be a null collection).
   */
  datatype Auth = Auth(
    thrown: Optional<Nullable<string>>,
    errors: seq<Nullable<string>>,
    lastErrorReason: Nullable<string>,
    attributes: map<string, Nullable<AttributeValues>>)

  /** `Auth.getAttribute(name)`: the values of the attribute, or null when the response lacks it. */
  function GetAttribute(auth: Auth, name: string): Nullable<AttributeValues> {
    if name in auth.attributes then auth.attributes[name] else Null
  }

  /**
   * The attribute field names configured for SAML: the login and name fields
   * are always set, the email and group fields are optional.
   */
  datatype SamlSettings = SamlSettings(
    userLogin: string,
    userName: string,
    userEmail: Optional<string>,
    groupName: Optional<string>)

  /** The four configuration properties whose field mapping is checked. */
  datatype Property = UserName | UserLogin | UserEmail | GroupName

  /** Every `Property`. */
  const AllProperties: set<Property> := {UserName, UserLogin, UserEmail, GroupName}

  lemma EveryPropertyListed(p: Property)
    ensures p in AllProperties
  {
    match p
    case UserName =>
    case UserLogin =>
    case UserEmail =>
    case GroupName =>
  }

  /**
   * "Mapping not found for the property `property`, the field `field` is not
   * available in the SAML response."
   */
  datatype Warning = MappingNotFound(property: Property, field: string)

  /** The report built by the status check; the checker updates its fields in place. */
  class SamlAuthenticationStatus {
    var status: string
    var errors: seq<Nullable<string>>
    var warnings: seq<Warning>
    var availableAttributes: map<string, Nullable<AttributeValues>>
    var mappedAttributes: map<string, Nullable<AttributeValues>>

    constructor ()
      ensures status == "" && errors == [] && warnings == []
      ensures availableAttributes == map[] && mappedAttributes == map[]
    {
      status := "";
      errors := [];
      warnings := [];
      availableAttributes := map[];
      mappedAttributes := map[];
    }
  }
}
