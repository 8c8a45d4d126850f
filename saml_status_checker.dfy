/**
 * The SAML status check: turns the outcome of processing a SAML response into
 * a status report holding the errors, the available and mapped attributes,
 * the mapping warnings and a "success"/"error" verdict.
 */
module SamlStatusChecker {
  import opened SamlTypes

  // ---------------------------------------------------------------------------
  // Errors
  // ---------------------------------------------------------------------------

  /** The non-null entries of `errors`, in their order (a stream filtered with `Objects::nonNull`). */
  function FilterNonNull(errors: seq<Nullable<string>>): (r: seq<Nullable<string>>)
    ensures |r| <= |errors|
    ensures forall e :: e in r <==> e in errors && e.NonNull?
  {
    if |errors| == 0 then []
    else Kept(errors[0]) + FilterNonNull(errors[1..])
  }

  /** What the filter keeps of one entry. */
  function Kept(e: Nullable<string>): seq<Nullable<string>> {
    if e.NonNull? then [e] else []
  }

  /** Filtering `a + b`, for a non-empty `a`, keeps what it keeps of `a`'s first entry, then filters the rest. */
  lemma FilterNonNullUnfold(a: seq<Nullable<string>>, b: seq<Nullable<string>>)
    requires |a| > 0
    ensures FilterNonNull(a + b) == Kept(a[0]) + FilterNonNull(a[1..] + b)
  {
    assert (a + b)[0] == a[0];
    assert (a + b)[1..] == a[1..] + b;
  }

  /** Filtering keeps the order: it distributes over concatenation. */
  lemma {:induction false} FilterNonNullAppend(a: seq<Nullable<string>>, b: seq<Nullable<string>>)
    ensures FilterNonNull(a + b) == FilterNonNull(a) + FilterNonNull(b)
  {
    if |a| == 0 {
      assert a + b == b;
    } else {
      FilterNonNullUnfold(a, b);
      FilterNonNullAppend(a[1..], b);
      assert FilterNonNull(a) == Kept(a[0]) + FilterNonNull(a[1..]);
      SeqAppendAssoc(Kept(a[0]), FilterNonNull(a[1..]), FilterNonNull(b));
    }
  }

  lemma SeqAppendAssoc(x: seq<Nullable<string>>, y: seq<Nullable<string>>, z: seq<Nullable<string>>)
    ensures x + (y + z) == (x + y) + z
  {
  }

  /** A list without nulls comes through the filter unchanged. */
  lemma {:induction false} FilterNonNullKeepsNonNull(errors: seq<Nullable<string>>)
    requires forall i :: 0 <= i < |errors| ==> errors[i].NonNull?
    ensures FilterNonNull(errors) == errors
  {
    if errors != [] {
      FilterNonNullKeepsNonNull(errors[1..]);
    }
  }

  /**
   * The error list of the report: the message of the exception thrown by
   * `processResponse` (null or not), then the non-null library errors, then
   * the last error reason when it is not null.
   */
  function CollectedErrors(auth: Auth): seq<Nullable<string>> {
    (if auth.thrown.Present? then [auth.thrown.value] else [])
    + FilterNonNull(auth.errors)
    + (if auth.lastErrorReason.NonNull? then [auth.lastErrorReason] else [])
  }

  /** An entry is in the error list exactly when it came from one of its three sources. */
  lemma ErrorsComeFromTheirSources(auth: Auth, e: Nullable<string>)
    ensures e in CollectedErrors(auth) <==>
      || auth.thrown == Present(e)
      || (e.NonNull? && e in auth.errors)
      || (e.NonNull? && e == auth.lastErrorReason)
  {
  }

  /** A null entry in the error list can only be the message of the exception `processResponse` threw. */
  lemma NullErrorOnlyFromException(auth: Auth)
    ensures Null in CollectedErrors(auth) <==> auth.thrown == Present(Null)
  {
    ErrorsComeFromTheirSources(auth, Null);
  }

  /** The error list is empty exactly when nothing was thrown and no error was reported. */
  lemma NoErrorsIff(auth: Auth)
    ensures CollectedErrors(auth) == [] <==>
      && auth.thrown == Empty
      && (forall i :: 0 <= i < |auth.errors| ==> auth.errors[i] == Null)
      && auth.lastErrorReason == Null
  {
    if CollectedErrors(auth) == [] {
      forall i | 0 <= i < |auth.errors|
        ensures auth.errors[i] == Null
      {
        ErrorsComeFromTheirSources(auth, auth.errors[i]);
      }
    } else if auth.thrown == Empty && auth.lastErrorReason == Null {
      ErrorsComeFromTheirSources(auth, CollectedErrors(auth)[0]);
    }
  }

  // ---------------------------------------------------------------------------
  // Mapped attributes
  // ---------------------------------------------------------------------------

  const LoginValueKey := "User login value"
  const NameValueKey := "User name value"
  const EmailValueKey := "User email value"
  const GroupsValueKey := "Groups value"

  /**
   * `mapping` holds, under a fixed key, the response's values for each
   * configured field: login and name always, email and groups exactly when
   * their field is configured, and no other key.
   */
  predicate MapsConfiguredFields(auth: Auth, settings: SamlSettings, mapping: map<string, Nullable<AttributeValues>>) {
    && LoginValueKey in mapping && mapping[LoginValueKey] == GetAttribute(auth, settings.userLogin)
    && NameValueKey in mapping && mapping[NameValueKey] == GetAttribute(auth, settings.userName)
    && (EmailValueKey in mapping <==> settings.userEmail.Present?)
    && (settings.userEmail.Present? ==>
         mapping[EmailValueKey] == GetAttribute(auth, settings.userEmail.value))
    && (GroupsValueKey in mapping <==> settings.groupName.Present?)
    && (settings.groupName.Present? ==>
         mapping[GroupsValueKey] == GetAttribute(auth, settings.groupName.value))
    && mapping.Keys <= {LoginValueKey, NameValueKey, EmailValueKey, GroupsValueKey}
  }

  /**
   * The configured fields looked up in the response: login and name always,
   * email and groups only when their field is configured.
   */
  method GetAttributesMapping(auth: Auth, settings: SamlSettings)
    returns (mapping: map<string, Nullable<AttributeValues>>)
    ensures MapsConfiguredFields(auth, settings, mapping)
  {
    mapping := map[];
    mapping := mapping[LoginValueKey := GetAttribute(auth, settings.userLogin)];
    mapping := mapping[NameValueKey := GetAttribute(auth, settings.userName)];
    if settings.userEmail.Present? {
      mapping := mapping[EmailValueKey := GetAttribute(auth, settings.userEmail.value)];
    }
    if settings.groupName.Present? {
      mapping := mapping[GroupsValueKey := GetAttribute(auth, settings.groupName.value)];
    }
  }

  /** Which keys the mapping has depends only on which optional fields are configured. */
  lemma MappedKeysDependOnlyOnPresence(
    auth1: Auth, settings1: SamlSettings, mapping1: map<string, Nullable<AttributeValues>>,
    auth2: Auth, settings2: SamlSettings, mapping2: map<string, Nullable<AttributeValues>>)
    requires MapsConfiguredFields(auth1, settings1, mapping1)
    requires MapsConfiguredFields(auth2, settings2, mapping2)
    requires settings1.userEmail.Present? == settings2.userEmail.Present?
    requires settings1.groupName.Present? == settings2.groupName.Present?
    ensures mapping1.Keys == mapping2.Keys
  {
  }

  // ---------------------------------------------------------------------------
  // Warnings
  // ---------------------------------------------------------------------------

  /**
   * The field name a property is mapped to (the table built with `Map.of`);
   * an unconfigured optional field maps to "".
   */
  function FieldFor(settings: SamlSettings, property: Property): string {
    match property
    case UserName => settings.userName
    case UserLogin => settings.userLogin
    case UserEmail => settings.userEmail.OrElse("")
    case GroupName => settings.groupName.OrElse("")
  }

  /** The response lacks the attribute, or carries it with no value. */
  predicate AttributeAbsentOrEmpty(auth: Auth, field: string) {
    match GetAttribute(auth, field)
    case Null => true
    case NonNull(values) => values == []
  }

  /** `w` is owed: it names a property, its configured non-empty field, and that field is missing from the response. */
  predicate WarningDue(auth: Auth, settings: SamlSettings, w: Warning) {
    && w.field == FieldFor(settings, w.property)
    && w.field != ""
    && AttributeAbsentOrEmpty(auth, w.field)
  }

  /** No two warnings of `warnings` are about the same property. */
  predicate OnePerProperty(warnings: seq<Warning>) {
    forall i, j :: 0 <= i < j < |warnings| ==> warnings[i].property != warnings[j].property
  }

  /** The properties the warnings are about. */
  function PropertiesOf(warnings: seq<Warning>): set<Property> {
    set i | 0 <= i < |warnings| :: warnings[i].property
  }

  /** The properties of a non-empty list: its first warning's, and the rest's. */
  lemma PropertiesOfCons(warnings: seq<Warning>)
    requires warnings != []
    ensures PropertiesOf(warnings) == {warnings[0].property} + PropertiesOf(warnings[1..])
  {
    var rest := warnings[1..];
    forall p | p in PropertiesOf(warnings)
      ensures p in {warnings[0].property} + PropertiesOf(rest)
    {
      var i :| 0 <= i < |warnings| && warnings[i].property == p;
      if i > 0 { assert rest[i - 1].property == p; }
    }
    forall p | p in PropertiesOf(rest)
      ensures p in PropertiesOf(warnings)
    {
      var i :| 0 <= i < |rest| && rest[i].property == p;
      assert warnings[i + 1].property == p;
    }
  }

  /** Warnings about distinct properties are about as many properties as there are warnings. */
  lemma {:induction false} PropertiesOfDistinct(warnings: seq<Warning>)
    requires OnePerProperty(warnings)
    ensures |PropertiesOf(warnings)| == |warnings|
  {
    if warnings != [] {
      var rest := warnings[1..];
      assert OnePerProperty(rest) by {
        forall i, j | 0 <= i < j < |rest|
          ensures rest[i].property != rest[j].property
        {
          assert rest[i] == warnings[i + 1] && rest[j] == warnings[j + 1];
        }
      }
      PropertiesOfDistinct(rest);
      PropertiesOfCons(warnings);
      assert warnings[0].property !in PropertiesOf(rest) by {
        forall i | 0 <= i < |rest|
          ensures rest[i].property != warnings[0].property
        {
          assert rest[i] == warnings[i + 1];
        }
      }
    }
  }

  /** With one warning per property there are at most four warnings. */
  lemma AtMostFourWarnings(warnings: seq<Warning>)
    requires OnePerProperty(warnings)
    ensures |warnings| <= 4
  {
    PropertiesOfDistinct(warnings);
    forall p | p in PropertiesOf(warnings)
      ensures p in AllProperties
    {
      EveryPropertyListed(p);
    }
    SubsetCardinality(PropertiesOf(warnings), AllProperties);
  }

  lemma SubsetCardinality(a: set<Property>, b: set<Property>)
    requires a <= b
    ensures |a| <= |b|
  {
    assert b == a + (b - a);
  }

  /**
   * The mapping warnings. The properties are visited in an unspecified order,
   * as `Map.of` iterates, so the result is specified by membership only.
   */
  method GenerateMappingWarnings(auth: Auth, settings: SamlSettings) returns (warnings: seq<Warning>)
    ensures forall w :: w in warnings <==> WarningDue(auth, settings, w)
    ensures OnePerProperty(warnings)
    ensures |warnings| <= 4
    ensures settings.userEmail == Empty ==> forall w :: w in warnings ==> w.property != UserEmail
    ensures settings.groupName == Empty ==> forall w :: w in warnings ==> w.property != GroupName
  {
    var pending := AllProperties;
    warnings := [];
    while pending != {}
      invariant pending <= AllProperties
      invariant forall w :: w in warnings <==> w.property in AllProperties - pending && WarningDue(auth, settings, w)
      invariant OnePerProperty(warnings)
      decreases pending
    {
      var key :| key in pending;
      var value := FieldFor(settings, key);
      if value != "" && AttributeAbsentOrEmpty(auth, value) {
        warnings := warnings + [MappingNotFound(key, value)];
      }
      pending := pending - {key};
    }
    forall p: Property
      ensures p in AllProperties
    {
      EveryPropertyListed(p);
    }
    AtMostFourWarnings(warnings);
  }

  /** The warnings of the report: the mapping warnings and nothing else. */
  method GenerateWarnings(auth: Auth, settings: SamlSettings) returns (warnings: seq<Warning>)
    ensures forall w :: w in warnings <==> WarningDue(auth, settings, w)
    ensures OnePerProperty(warnings)
  {
    warnings := [];
    var mappingWarnings := GenerateMappingWarnings(auth, settings);
    warnings := warnings + mappingWarnings;
  }

  // ---------------------------------------------------------------------------
  // The status report
  // ---------------------------------------------------------------------------

  /**
   * Builds the status report for a processed SAML response: the collected
   * errors, the response's attributes, the mapped attributes, the warnings
   * (only when there is no error) and the verdict.
   */
  method GetSamlAuthenticationStatus(auth: Auth, settings: SamlSettings)
    returns (status: SamlAuthenticationStatus)
    ensures fresh(status)
    ensures status.errors == CollectedErrors(auth)
    ensures status.status == (if status.errors == [] then "success" else "error")
    ensures status.status == "success" <==>
      && auth.thrown == Empty
      && (forall i :: 0 <= i < |auth.errors| ==> auth.errors[i] == Null)
      && auth.lastErrorReason == Null
    ensures status.errors != [] ==> status.warnings == []
    ensures status.errors == [] ==>
      forall w :: w in status.warnings <==> WarningDue(auth, settings, w)
    ensures OnePerProperty(status.warnings) && |status.warnings| <= 4
    ensures status.availableAttributes == auth.attributes
    ensures MapsConfiguredFields(auth, settings, status.mappedAttributes)
  {
    status := new SamlAuthenticationStatus();
    // The report's error list, appended to one source at a time.
    var errors := status.errors;
    if auth.thrown.Present? {
      errors := errors + [auth.thrown.value];
    }
    errors := errors + FilterNonNull(auth.errors);
    if auth.lastErrorReason.NonNull? {
      errors := errors + [auth.lastErrorReason];
    }
    var mapping := GetAttributesMapping(auth, settings);
    var warnings: seq<Warning> := [];
    if errors == [] {
      warnings := GenerateWarnings(auth, settings);
    }
    assert errors == CollectedErrors(auth);
    AtMostFourWarnings(warnings);
    NoErrorsIff(auth);
    status.errors := errors;
    status.availableAttributes := auth.attributes;
    status.mappedAttributes := mapping;
    status.warnings := warnings;
    status.status := if errors == [] then "success" else "error";
  }
}
