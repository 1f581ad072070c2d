# Spring Boot / Spring Cloud / spring-cloud-gcp compatibility check, in Dafny

This project models the startup dependency check of the `spring-gcp-example`
service. That is the class `DependencyVersionVerifier`. Before the service
starts, the check compares three detected library versions against constant
tables:

- Spring Boot against the list of accepted Boot lines `3.2`, `3.3`, `3.4`, `3.5`;
- Spring Cloud against the row of a compatibility matrix that belongs to the Boot line;
- spring-cloud-gcp against the version that the matrix expects for the (Boot, Cloud) pair.

Every comparison uses a normalised `major.minor` key. Normalisation first strips a
trailing `.x` wildcard. It cuts at the first `.x` in the string. Then it keeps
everything before the second dot. A blank string or the token `unknown` is kept
unchanged.

The check is a pure function here. The configuration switch and the three
detected versions are parameters. The switch is the property
`spring.cloud.compatibility-verifier.enabled`; it defaults to `true`. The result is the datatype
`Compatible | Incompatible(error, action)`.

Files:

- `java_strings.dfy` (module `JavaStrings`): the Java string operations that the
  check uses. These are `indexOf` (for a character and for a string), `endsWith`,
  Spring's `StringUtils.hasText` with `Character.isWhitespace`, and `List.toString`.
- `wrappers.dfy` (module `Wrappers`): `Option`, which stands for a Java reference that may be null.
- `dependency_version_verifier.dfy` (module `DependencyVersionVerifier`): the
  tables, the remediation text, the result type, the three normalisation steps,
  the "unknown" fallback of version detection, and `Verify`.
- `normalize_properties.dfy` (module `NormalizeProperties`): fixed points and
  idempotence of normalisation, and the normal forms of common version shapes.
- `verify_properties.dfy` (module `VerifyProperties`): the order of the three
  steps, the exact condition for a compatible result, fail-closed behaviour on
  unknown versions, and the documented example combinations.

Normalisation is not idempotent in general. `3.x.5` does not end with `.x`, so
only its second dot cuts it, giving `3.x`. That string does end with `.x` and
normalises to `3`. `NormalizeIdempotentIff` states exactly when normalising
twice changes nothing: when the first result does not end with `.x`.
`NormalizeFixedPoints` states that the fixed points are exactly the strings with
at most one dot that do not end with `.x`. Every table key is such a string.

Boot `3.5` is accepted but has no matrix row, so it always fails at the Cloud
step. The model keeps this behaviour as the code has it.

## Model

| member | source | states |
|---|---|---|
| `JavaStrings.IndexOfChar` | src/main/java/com/example/springgcpexample/config/DependencyVersionVerifier.java:129-130 | `indexOf(char, from)`: the result is -1 or an index at or after `from` that holds the character, and no earlier index from `from` holds it |
| `JavaStrings.IndexOf` | src/main/java/com/example/springgcpexample/config/DependencyVersionVerifier.java:136 | `indexOf(String)`: the result is -1 or the first position where the string occurs |
| `JavaStrings.IndexOfFrom` | src/main/java/com/example/springgcpexample/config/DependencyVersionVerifier.java:136 | the first occurrence of a string at or after a start index, or -1 when there is none |
| `JavaStrings.EndsWithFound` | src/main/java/com/example/springgcpexample/config/DependencyVersionVerifier.java:135-136 | after `endsWith(".x")` holds, `indexOf(".x")` finds an occurrence, so the `substring` bound is valid |
| `JavaStrings.IsWhitespace` | src/main/java/com/example/springgcpexample/config/DependencyVersionVerifier.java:120 | `Character.isWhitespace` as `StringUtils.hasText` uses it: space, tab, newline and carriage return are whitespace; digits, ASCII letters and `.` are not |
| `JavaStrings.HasText` | src/main/java/com/example/springgcpexample/config/DependencyVersionVerifier.java:120 | `StringUtils.hasText`: a string with text is not empty, and a string whose first character is not whitespace has text |
| `JavaStrings.EndsWith` | src/main/java/com/example/springgcpexample/config/DependencyVersionVerifier.java:135 | `endsWith`: the string is some prefix followed by the suffix, and the suffix is no longer than the string |
| `JavaStrings.Join` | src/main/java/com/example/springgcpexample/config/DependencyVersionVerifier.java:57 | the elements separated by the separator: empty for no elements, the element itself for one, and otherwise it starts with the first element |
| `JavaStrings.ListToString` | src/main/java/com/example/springgcpexample/config/DependencyVersionVerifier.java:57 | `List.toString`: the text is enclosed in `[` and `]`, is `[]` for an empty list, and starts with the first element right after `[` |
| `DependencyVersionVerifier.VerificationResult.IsCompatible` | src/main/java/com/example/springgcpexample/config/DependencyVersionVerifier.java:143-171 | only the result built by `compatible()` answers true; a result built by `notCompatible` answers false |
| `DependencyVersionVerifier.Action` | src/main/java/com/example/springgcpexample/config/DependencyVersionVerifier.java:109-118 | the remediation text ends with the property that switches the check off, `spring.cloud.compatibility-verifier.enabled=false` |
| `DependencyVersionVerifier.BootMessage` | src/main/java/com/example/springgcpexample/config/DependencyVersionVerifier.java:57 | the Boot error names the detected Boot version right after `Spring Boot [` and ends with the rendered list of accepted versions |
| `DependencyVersionVerifier.CloudMessage` | src/main/java/com/example/springgcpexample/config/DependencyVersionVerifier.java:65 | the Cloud error names the detected Cloud version right after `Spring Cloud [`, then `] is not compatible with Spring Boot [`, and ends with the detected Boot version and `]` |
| `DependencyVersionVerifier.GcpMessage` | src/main/java/com/example/springgcpexample/config/DependencyVersionVerifier.java:73 | the spring-cloud-gcp error names the detected version right after `spring-cloud-gcp [`, then `] is not compatible with Spring Boot [`, and ends with the expected version and `]` |
| `DependencyVersionVerifier.VerifyDetected` | src/main/java/com/example/springgcpexample/config/DependencyVersionVerifier.java:43-50 | the check run on the detected versions: when disabled it is compatible without looking at detection, and every incompatible result carries the remediation text |
| `DependencyVersionVerifier.BlankHasNoDot` | src/main/java/com/example/springgcpexample/config/DependencyVersionVerifier.java:120-121 | a string without text (all whitespace) contains no `.`, so the early return of a blank version keeps the major.minor shape |
| `DependencyVersionVerifier.StripWildCardFromVersion` | src/main/java/com/example/springgcpexample/config/DependencyVersionVerifier.java:134-139 | the result is a prefix of the input; without a trailing `.x` the input is unchanged; with one, the result ends exactly where the FIRST `.x` of the input begins |
| `DependencyVersionVerifier.StripMinorVersion` | src/main/java/com/example/springgcpexample/config/DependencyVersionVerifier.java:125-132 | the result is a prefix with at most one dot; an input with at most one dot is unchanged; an input with two or more dots is cut just before its second dot, and the kept part still holds the first dot |
| `DependencyVersionVerifier.NormalizeVersion` | src/main/java/com/example/springgcpexample/config/DependencyVersionVerifier.java:119-124 | the result is a prefix of the input with at most one dot; a blank input and `unknown` are returned unchanged |
| `DependencyVersionVerifier.DetectedVersion` | src/main/java/com/example/springgcpexample/config/DependencyVersionVerifier.java:81-107 | the detected version is always a string with text; it is the reported version when that has text, and `unknown` when the reported version is null or blank; for Cloud and spring-cloud-gcp, `None` also stands for an exception that the getter catches, while the Boot getter catches none |
| `DependencyVersionVerifier.VerificationResult.GetError` | src/main/java/com/example/springgcpexample/config/DependencyVersionVerifier.java:159-172 | a compatible result gives null (`None`); an incompatible result gives exactly the error it was built with |
| `DependencyVersionVerifier.VerificationResult.GetAction` | src/main/java/com/example/springgcpexample/config/DependencyVersionVerifier.java:164-173 | a compatible result gives null (`None`); an incompatible result gives exactly the action it was built with |
| `DependencyVersionVerifier.Verify` | src/main/java/com/example/springgcpexample/config/DependencyVersionVerifier.java:43-79 | a disabled check is compatible; every incompatible result carries the remediation text of `action()` |
| `NormalizeProperties.NormalizeFixedPoints` | src/main/java/com/example/springgcpexample/config/DependencyVersionVerifier.java:119-139 | a version is its own normal form if and only if it has at most one dot and does not end with `.x` |
| `NormalizeProperties.NormalizeIsComposition` | src/main/java/com/example/springgcpexample/config/DependencyVersionVerifier.java:119-124 | the blank/`unknown` guard does not change the result: normalising is the same as stripping the wildcard and then the minor part |
| `NormalizeProperties.NormalizeIdempotentIff` | src/main/java/com/example/springgcpexample/config/DependencyVersionVerifier.java:119-139 | normalising twice equals normalising once if and only if the first result does not end with `.x` |
| `NormalizeProperties.NormalizeNotIdempotent` | src/main/java/com/example/springgcpexample/config/DependencyVersionVerifier.java:134-139 | `3.x.5` normalises to `3.x`, and that normalises further to `3` |
| `NormalizeProperties.NormalizeInnerWildcard` | src/main/java/com/example/springgcpexample/config/DependencyVersionVerifier.java:135 | a `.x` that is not at the end is not stripped: `3.x.5` becomes `3.x` |
| `NormalizeProperties.NormalizeTrailingWildcard` | src/main/java/com/example/springgcpexample/config/DependencyVersionVerifier.java:135-136 | `3.x` becomes `3` |
| `NormalizeProperties.StripMinorAtSecondDot` | src/main/java/com/example/springgcpexample/config/DependencyVersionVerifier.java:129-131 | when the second dot of a string is at index k, stripping the minor part gives exactly the first k characters |
| `NormalizeProperties.NormalizeAtSecondDot` | src/main/java/com/example/springgcpexample/config/DependencyVersionVerifier.java:119-131 | a non-blank version other than `unknown`, with no trailing `.x`, normalises to its prefix before the second dot |
| `NormalizeProperties.NormalizeThreeParts` | src/main/java/com/example/springgcpexample/config/DependencyVersionVerifier.java:119-131 | a numeric `M.m.p` version normalises to `M.m` |
| `NormalizeProperties.NormalizeTwoParts` | src/main/java/com/example/springgcpexample/config/DependencyVersionVerifier.java:119-131 | a numeric `M.m` version is its own normal form |
| `NormalizeProperties.NormalizeWildcardExample` | src/main/java/com/example/springgcpexample/config/DependencyVersionVerifier.java:123-139 | `3.4.x` normalises to `3.4` |
| `NormalizeProperties.NormalizePatchExample` | src/main/java/com/example/springgcpexample/config/DependencyVersionVerifier.java:123-131 | `3.4.1` normalises to `3.4` |
| `NormalizeProperties.NormalizeReleaseTrainExample` | src/main/java/com/example/springgcpexample/config/DependencyVersionVerifier.java:123-131 | `2023.0.3` normalises to `2023.0` |
| `NormalizeProperties.WildcardAndPatchShareKey` | src/main/java/com/example/springgcpexample/config/DependencyVersionVerifier.java:123 | `3.4.x` and `3.4.1` have the same key, `3.4` |
| `VerifyProperties.AcceptedVersionsAreNormalized` | src/main/java/com/example/springgcpexample/config/DependencyVersionVerifier.java:17 | every accepted Boot version is its own normal form, so a normalised detected version can match it |
| `VerifyProperties.CloudKeysAreNormalized` | src/main/java/com/example/springgcpexample/config/DependencyVersionVerifier.java:23-31 | every Cloud key of the matrix is its own normal form |
| `VerifyProperties.MatrixRowsAreAccepted` | src/main/java/com/example/springgcpexample/config/DependencyVersionVerifier.java:17-32 | every Boot row of the matrix is an accepted version; `3.5` is accepted and has no row |
| `VerifyProperties.ExpectedGcpVersionsNormalized` | src/main/java/com/example/springgcpexample/config/DependencyVersionVerifier.java:23-31 | the expected spring-cloud-gcp versions compare as `5.9` (Boot 3.2) and `4.10` (Boot 3.3 and 3.4) |
| `VerifyProperties.UnknownMatchesNothing` | src/main/java/com/example/springgcpexample/config/DependencyVersionVerifier.java:17-32 | `unknown` normalises to itself and equals no accepted version, no Cloud key and no normalised expected version |
| `VerifyProperties.VerifyDisabled` | src/main/java/com/example/springgcpexample/config/DependencyVersionVerifier.java:44-47 | with the check disabled, every combination of versions is compatible, including three undetected ones |
| `VerifyProperties.VerifyRejectsBoot` | src/main/java/com/example/springgcpexample/config/DependencyVersionVerifier.java:54-60 | a Boot version whose key is not accepted gives the Boot error, whatever Cloud and spring-cloud-gcp are |
| `VerifyProperties.BootMessageText` | src/main/java/com/example/springgcpexample/config/DependencyVersionVerifier.java:57 | the Boot error names the detected version and the list `[3.2, 3.3, 3.4, 3.5]` |
| `VerifyProperties.AcceptedVersionsText` | src/main/java/com/example/springgcpexample/config/DependencyVersionVerifier.java:57 | the accepted list renders as `[3.2, 3.3, 3.4, 3.5]` |
| `VerifyProperties.VerifyRejectsCloud` | src/main/java/com/example/springgcpexample/config/DependencyVersionVerifier.java:62-68 | an accepted Boot version without a row, or whose row lacks the Cloud key, gives the Cloud error |
| `VerifyProperties.Boot35AlwaysFailsAtCloud` | src/main/java/com/example/springgcpexample/config/DependencyVersionVerifier.java:62-68 | Boot `3.5` always gives the Cloud error |
| `VerifyProperties.VerifyRejectsGcp` | src/main/java/com/example/springgcpexample/config/DependencyVersionVerifier.java:70-76 | with a matching row, a spring-cloud-gcp key that differs from the expected key gives the spring-cloud-gcp error, which names the expected version |
| `VerifyProperties.VerifyAccepts` | src/main/java/com/example/springgcpexample/config/DependencyVersionVerifier.java:62-78 | a matching row, Cloud key and spring-cloud-gcp key give a compatible result |
| `VerifyProperties.VerifyCompatibleIff` | src/main/java/com/example/springgcpexample/config/DependencyVersionVerifier.java:54-78 | an enabled check is compatible if and only if the Boot key has a row, the Cloud key is in it, and the spring-cloud-gcp key equals the key of the expected version |
| `VerifyProperties.VerifyCompatibleCombinations` | src/main/java/com/example/springgcpexample/config/DependencyVersionVerifier.java:17-78 | an enabled check is compatible if and only if the major.minor keys of Boot, Cloud and spring-cloud-gcp are (`3.2`, `2023.0`, `5.9`), (`3.3`, `2024.0`, `4.10`) or (`3.4`, `2024.0`, `4.10`) |
| `VerifyProperties.VerifyDependsOnlyOnNormalized` | src/main/java/com/example/springgcpexample/config/DependencyVersionVerifier.java:54-78 | the verdict depends on the three versions only through their major.minor keys |
| `VerifyProperties.UnknownFailsClosed` | src/main/java/com/example/springgcpexample/config/DependencyVersionVerifier.java:54-78 | an enabled check with any version `unknown` is incompatible |
| `VerifyProperties.UndetectedVersionFailsClosed` | src/main/java/com/example/springgcpexample/config/DependencyVersionVerifier.java:48-50 | an enabled check fails when any reported version is null or blank (for Cloud and spring-cloud-gcp also when the getter caught an exception) |
| `VerifyProperties.ResultAccessors` | src/main/java/com/example/springgcpexample/config/DependencyVersionVerifier.java:142-174 | a compatible result of the check has null error and null action; an incompatible one returns its stored error and the single remediation text |
| `VerifyProperties.VerifyExampleCompatible` | src/main/java/com/example/springgcpexample/config/DependencyVersionVerifier.java:43-79 | Boot `3.2.1`, Cloud `2023.0.3` and spring-cloud-gcp `5.9.0` are compatible |
| `VerifyProperties.VerifyExamplePatchedGcp` | src/main/java/com/example/springgcpexample/config/DependencyVersionVerifier.java:70-71 | spring-cloud-gcp `5.9.7` matches the expected `5.9.0` |
| `VerifyProperties.VerifyExampleCloudMismatch` | src/main/java/com/example/springgcpexample/config/DependencyVersionVerifier.java:62-68 | Boot `3.3.0` with Cloud `2023.0.0` gives the Cloud error |
| `VerifyProperties.VerifyExampleGcpMismatch` | src/main/java/com/example/springgcpexample/config/DependencyVersionVerifier.java:70-76 | Boot `3.3.0`, Cloud `2024.0.0` and spring-cloud-gcp `9.9.9` give the spring-cloud-gcp error, expecting `4.10.0` |
| `VerifyProperties.VerifyExampleUnlistedBoot` | src/main/java/com/example/springgcpexample/config/DependencyVersionVerifier.java:54-60 | Boot `3.9.0` gives the Boot error whatever the other two versions are |

## Left out

- Version detection by reflection is not modelled. This covers `SpringBootVersion.getVersion()` and `Package.getImplementationVersion()` at lines 81-107. The detected versions are parameters of `Verify`. Only the fallback to `unknown` is modelled, as `DetectedVersion`. There, `None` stands for a null result, and for Cloud and spring-cloud-gcp also for an exception that the getter catches (lines 91-93, 103-105).
- `VerifyDetected`: an exception thrown by `SpringBootVersion.getVersion()` is not modelled. `getSpringBootVersion` (lines 81-84) does not catch it, so it leaves `verify()` without any result. The model has no exceptions, and its `None` for Boot stands only for null.
- Logging (lines 45, 52, 92, 104) is left out. It has no effect on the result.
- Java `null` strings are left out. `normalizeVersion(null)` returns `""` (line 121), and the strings of the model are never null.
- Java strings are sequences of UTF-16 code units. Here they are sequences of Unicode scalar values. `IsWhitespace` follows `Character.isWhitespace` on code points. Strings with unpaired surrogates have no counterpart in the model.
- `action()` passes its text through `String.format` with the accepted list as an argument. The text has no format specifier, so the argument is ignored and the text is returned as written. The model uses the text directly as the constant `ActionText`. The formatter itself is not modelled.
- The startup runner in `SpringGcpExampleApplication.java` (lines 19-29) is not modelled. It prints the error and action of an incompatible result and throws. This is console I/O and exception glue around `Verify`.
- `GcpStorageService.java` and `GcpStorageController.java` are not modelled. They pass requests through to the Google Cloud Storage client and to HTTP routing, both of which are network I/O behind libraries outside this model.
- `Verify` models the instance fields `compatibilityCheckEnabled` and `acceptedBootVersions` as the `enabled` parameter and the constant `SupportedVersions`. The constructor only copies these values. `enabled` stands for the property `spring.cloud.compatibility-verifier.enabled`, which defaults to `true` when it is not set (line 37). Property binding itself is not modelled.
