# SAML authentication status check

A Dafny model of SonarQube's SAML status check,
`SamlStatusChecker.getSamlAuthenticationStatus`. An administrator tests a SAML
configuration. The checker then turns the outcome of processing the identity
provider's response into a status report with these parts:

- the errors, in a fixed order: first the message of the exception thrown by
  `processResponse`, then the non-null errors the OneLogin library reports,
  then its last error reason;
- the attributes available in the response;
- the values of the configured login, name, email and group fields, under the
  keys "User login value", "User name value", "User email value" and
  "Groups value";
- warnings for configured fields that the response lacks or leaves empty;
  warnings are given only when there is no error;
- the verdict `"success"` when there is no error, `"error"` otherwise.

Two modules:

- `SamlTypes` (`saml_types.dfy`) holds the inputs and the report.
  - The OneLogin `Auth` object is plain data. It records whether
    `processResponse` threw and with which message, which may be null. It also
    holds the error list, whose entries may be null, the last error reason and
    the attribute map.
  - `SamlSettings` holds the configured field names.
  - `SamlAuthenticationStatus` is a class whose fields the checker sets in place.
  - Java's `null` is `Nullable` and `java.util.Optional` is `Optional`.
- `SamlStatusChecker` (`saml_status_checker.dfy`) holds the operations.
  - `GetSamlAuthenticationStatus` creates the report, builds its error list by
    appending one source at a time, as the source does, and then sets the
    report's fields.
  - `GetAttributesMapping` fills the map with successive `put`s.
  - `GenerateMappingWarnings` accumulates warnings in a loop. The loop visits
    the four properties in an order it does not fix, because `Map.of` leaves
    its iteration order unspecified. Each operation is proved against
    specification predicates: `CollectedErrors`, `MapsConfiguredFields` and
    `WarningDue`.

## Model

| member | source | states |
|---|---|---|
| `SamlStatusChecker.GetSamlAuthenticationStatus` | server/sonar-auth-saml/src/main/java/org/sonar/auth/saml/SamlStatusChecker.java:42-64 | The new report's errors are the collected errors. The verdict is "success" exactly when the error list is empty, which holds exactly when `processResponse` did not throw, every library error is null and there is no last error reason. Otherwise the verdict is "error". With errors, the warnings are empty. Without errors, the warnings are exactly the due mapping warnings, at most one per property and at most four. The available attributes are the response's attribute map, unchanged. The mapped attributes satisfy `MapsConfiguredFields`. |
| `SamlStatusChecker.FilterNonNull` | server/sonar-auth-saml/src/main/java/org/sonar/auth/saml/SamlStatusChecker.java:52 | The filtered list is no longer than the input. An entry is in it exactly when it is a non-null entry of the input. |
| `SamlStatusChecker.FilterNonNullAppend` | server/sonar-auth-saml/src/main/java/org/sonar/auth/saml/SamlStatusChecker.java:52 | Filtering distributes over concatenation, so the library errors keep their original relative order. |
| `SamlStatusChecker.FilterNonNullUnfold` | server/sonar-auth-saml/src/main/java/org/sonar/auth/saml/SamlStatusChecker.java:52 | Filtering a list whose first part is non-empty keeps that part's first entry exactly when it is non-null, then filters the remainder. |
| `SamlStatusChecker.FilterNonNullKeepsNonNull` | server/sonar-auth-saml/src/main/java/org/sonar/auth/saml/SamlStatusChecker.java:52 | A list with no null entry passes the filter unchanged. |
| `SamlStatusChecker.ErrorsComeFromTheirSources` | server/sonar-auth-saml/src/main/java/org/sonar/auth/saml/SamlStatusChecker.java:46-55 | An entry is in the error list exactly when it is the thrown exception's message, a non-null library error or the non-null last error reason. |
| `SamlStatusChecker.NullErrorOnlyFromException` | server/sonar-auth-saml/src/main/java/org/sonar/auth/saml/SamlStatusChecker.java:46-52 | The error list holds a null entry exactly when `processResponse` threw an exception whose message is null. |
| `SamlStatusChecker.NoErrorsIff` | server/sonar-auth-saml/src/main/java/org/sonar/auth/saml/SamlStatusChecker.java:46-55 | The error list is empty exactly when nothing was thrown, every library error is null and the last error reason is null. |
| `SamlStatusChecker.GetAttributesMapping` | server/sonar-auth-saml/src/main/java/org/sonar/auth/saml/SamlStatusChecker.java:66-77 | "User login value" and "User name value" are always present. "User email value" is present exactly when an email field is configured, and "Groups value" exactly when a group field is configured. No other key is present. Each value is the response's lookup of the configured field name. |
| `SamlStatusChecker.MappedKeysDependOnlyOnPresence` | server/sonar-auth-saml/src/main/java/org/sonar/auth/saml/SamlStatusChecker.java:66-77 | Two mappings whose settings configure the same optional fields have the same keys, whatever the responses and field names. |
| `SamlStatusChecker.GenerateMappingWarnings` | server/sonar-auth-saml/src/main/java/org/sonar/auth/saml/SamlStatusChecker.java:85-100 | A warning for a property and field is produced exactly when the field is the one configured for that property, the field name is non-empty, and the response lacks the attribute or has it empty. There is at most one warning per property and at most four in all. An unconfigured email or group field never produces a warning. |
| `SamlStatusChecker.PropertiesOfDistinct` | server/sonar-auth-saml/src/main/java/org/sonar/auth/saml/SamlStatusChecker.java:86-98 | Warnings about pairwise distinct properties cover as many properties as there are warnings. |
| `SamlStatusChecker.PropertiesOfCons` | server/sonar-auth-saml/src/main/java/org/sonar/auth/saml/SamlStatusChecker.java:86-98 | The properties a non-empty warning list is about are those of its first warning and those of the rest. |
| `SamlStatusChecker.AtMostFourWarnings` | server/sonar-auth-saml/src/main/java/org/sonar/auth/saml/SamlStatusChecker.java:86-98 | A warning list with at most one warning per property has at most four warnings. |
| `SamlStatusChecker.GenerateWarnings` | server/sonar-auth-saml/src/main/java/org/sonar/auth/saml/SamlStatusChecker.java:79-83 | The warnings are exactly the due mapping warnings, one per property, with no other source. |
| `SamlTypes.SamlAuthenticationStatus.constructor` | server/sonar-auth-saml/src/main/java/org/sonar/auth/saml/SamlStatusChecker.java:44 | A new report starts with an empty error list, no warnings and empty attribute maps. |

## Left out

- `IssuesApp-it.tsx`: a browser UI integration test (rendering, simulated clicks and keys, mocked HTTP handlers) with no implementation logic of its own.
- OneLogin `Auth.processResponse` (XML parsing, signature and crypto validation) is a foreign library call. Its effect is an input: whether it threw, and with which message, plus the error list, the last error reason and the attributes it leaves behind.
- The text of a warning, produced with `String.format`, is not modelled. A warning is the pair (property, field name) it is built from.
- The property keys that `SamlSettings` defines (`USER_NAME_ATTRIBUTE` and the others) are not part of this model. They are the four values of `Property`.
- `SamlSettings` and how it reads configuration are not part of this model. The login and name field names are taken as non-null strings, on the assumption that `SamlSettings` always yields them; a null name would be looked up as an attribute when there are errors and would make `Map.of` throw otherwise, and neither path is modelled. The email and group fields are `Optional` values.
- `SamlAuthenticationStatus` is not part of this model beyond its fields. Its initial status text is taken as "", which the checker always overwrites. Its initial lists and maps are taken as empty.
- The order of the warnings is left unspecified, as `Map.of` leaves it. The contracts state membership, at most one warning per property and the count.
- The private constructor that throws `IllegalStateException` is not modelled, and neither is Java exception handling beyond recording the thrown message.
