/**
 * The startup compatibility check between Spring Boot, Spring Cloud and
 * spring-cloud-gcp. The three detected versions and the configuration switch
 * are parameters; the accepted Boot versions and the compatibility matrix are
 * constants; the outcome is a two-case result.
 */
module DependencyVersionVerifier {
  import opened Wrappers
  import opened JavaStrings

  /** The token that stands for a version that could not be detected. */
  const Unknown: string := "unknown"

  /** Boot versions (major.minor) the check accepts, in the order they are listed. */
  const SupportedVersions: seq<string> := ["3.2", "3.3", "3.4", "3.5"]

  /** Boot major.minor -> Cloud major.minor -> expected spring-cloud-gcp version. */
  const CompatibilityMatrix: map<string, map<string, string>> := map[
    "3.2" := map["2023.0" := "5.9.0"],
    "3.3" := map["2024.0" := "4.10.0"],
    "3.4" := map["2024.0" := "4.10.0"]
  ]

  /** The remediation text attached to every incompatibility. */
  const ActionText: string :=
    "Update your dependencies to a compatible combination.\n"
    + "See the Spring Cloud GCP compatibility matrix: [https://github.com/GoogleCloudPlatform/spring-cloud-gcp#compatibility-with-spring-project-versions]\n"
    + "Learn more about Spring Boot: [https://spring.io/projects/spring-boot#learn]\n"
    + "Learn more about Spring Cloud: [https://spring.io/projects/spring-cloud#overview]\n"
    + DisableHint

  /** The last line of the remediation text: how to switch the check off. */
  const DisableHint: string := "To disable this check, set: [spring.cloud.compatibility-verifier.enabled=false]"

  /** The outcome of a check. A compatible result has neither error nor action. */
  datatype VerificationResult = Compatible | Incompatible(error: string, action: string) {
    /** Only the result built by compatible() answers true. */
    predicate IsCompatible()
      ensures IsCompatible() <==> this == Compatible
    {
      Compatible?
    }

    /** The stored error of an incompatible result; null (None) otherwise. */
    function GetError(): (r: Option<string>)
      ensures r.Some? <==> !IsCompatible()
      ensures IsCompatible() ==> r == None
      ensures !IsCompatible() ==> r == Some(error)
    {
      if Compatible? then None else Some(error)
    }

    /** The stored action of an incompatible result; null (None) otherwise. */
    function GetAction(): (r: Option<string>)
      ensures r.Some? <==> !IsCompatible()
      ensures IsCompatible() ==> r == None
      ensures !IsCompatible() ==> r == Some(action)
    {
      if Compatible? then None else Some(action)
    }
  }

  /** No two dots: the shape of a major.minor version. */
  predicate AtMostOneDot(s: string) {
    forall i, j :: 0 <= i < j < |s| && s[i] == '.' ==> s[j] != '.'
  }

  /** The remediation text; the format string has no conversion, so the
      accepted-versions argument does not appear in it. The text ends with
      the property that switches the check off. */
  function Action(): (r: string)
    ensures EndsWith(r, DisableHint)
  {
    assert ActionText[|ActionText| - |DisableHint|..] == DisableHint;
    ActionText
  }

  /** A detected version, or "unknown" when detection gave null or a blank
      string. For Spring Cloud and spring-cloud-gcp, None also stands for an
      exception that the getter catches; the Boot getter catches none. */
  function DetectedVersion(reported: Option<string>): (r: string)
    ensures HasText(r)
    ensures reported.Some? && HasText(reported.value) ==> r == reported.value
    ensures !(reported.Some? && HasText(reported.value)) ==> r == Unknown
  {
    assert !IsWhitespace(Unknown[0]);
    if reported.Some? && HasText(reported.value) then reported.value else Unknown
  }

  /** A blank string holds no dot, since '.' is not whitespace. */
  lemma BlankHasNoDot(s: string)
    ensures !HasText(s) ==> '.' !in s
  {
  }

  /** Removes a trailing ".x" wildcard, cutting at the first ".x" of the string. */
  function StripWildCardFromVersion(version: string): (r: string)
    ensures r <= version
    ensures !EndsWith(version, ".x") ==> r == version
    ensures EndsWith(version, ".x") ==>
      OccursAt(version, ".x", |r|) && forall k :: 0 <= k < |r| ==> !OccursAt(version, ".x", k)
  {
    if EndsWith(version, ".x") then
      EndsWithFound(version, ".x");
      version[..IndexOf(version, ".x")]
    else version
  }

  /** Keeps everything before the second dot: a major.minor prefix. */
  function StripMinorVersion(version: string): (r: string)
    ensures r <= version
    ensures AtMostOneDot(r)
    ensures AtMostOneDot(version) ==> r == version
    ensures !AtMostOneDot(version) ==> '.' in r && |r| < |version| && version[|r|] == '.'
  {
    if !HasText(version) || version == Unknown then
      BlankHasNoDot(version);
      version
    else
      var firstDot := IndexOfChar(version, '.', 0);
      var secondDot := IndexOfChar(version, '.', firstDot + 1);
      if secondDot > 0 then version[..secondDot] else version
  }

  /** The lookup key of a version: blank strings and "unknown" unchanged,
      anything else wildcard-stripped, then cut to major.minor. */
  function NormalizeVersion(version: string): (r: string)
    ensures r <= version
    ensures AtMostOneDot(r)
    ensures (!HasText(version) || version == Unknown) ==> r == version
  {
    if !HasText(version) || version == Unknown then
      BlankHasNoDot(version);
      version
    else StripMinorVersion(StripWildCardFromVersion(version))
  }

  /** The Boot error: it names the detected Boot version right after
      "Spring Boot [" and ends with the rendered list of accepted versions. */
  function BootMessage(boot: string): (r: string)
    ensures OccursAt(r, boot, |"Spring Boot ["|)
    ensures EndsWith(r, ListToString(SupportedVersions))
  {
    var head := "Spring Boot [" + boot;
    var r := head + "] is not in accepted versions: " + ListToString(SupportedVersions);
    assert r[|"Spring Boot ["|..|head|] == boot;
    r
  }

  /** The Cloud error: it names the detected Cloud version right after
      "Spring Cloud [", and ends with the detected Boot version in brackets. */
  function CloudMessage(boot: string, cloud: string): (r: string)
    ensures OccursAt(r, cloud, |"Spring Cloud ["|)
    ensures OccursAt(r, "] is not compatible with Spring Boot [", |"Spring Cloud ["| + |cloud|)
    ensures OccursAt(r, boot, |r| - |boot| - 1) && r[|r| - 1] == ']'
  {
    var head := "Spring Cloud [" + cloud;
    var r := head + "] is not compatible with Spring Boot [" + boot + "]";
    assert r[|"Spring Cloud ["|..|head|] == cloud;
    assert r[|head|..|head| + |"] is not compatible with Spring Boot ["|] == "] is not compatible with Spring Boot [";
    assert r[|r| - |boot| - 1..|r| - 1] == boot;
    r
  }

  /** The spring-cloud-gcp error: it names the detected spring-cloud-gcp
      version right after "spring-cloud-gcp [", and ends with the expected
      version in brackets. */
  function GcpMessage(boot: string, cloud: string, gcp: string, expected: string): (r: string)
    ensures OccursAt(r, gcp, |"spring-cloud-gcp ["|)
    ensures OccursAt(r, "] is not compatible with Spring Boot [", |"spring-cloud-gcp ["| + |gcp|)
    ensures OccursAt(r, expected, |r| - |expected| - 1) && r[|r| - 1] == ']'
  {
    var head := "spring-cloud-gcp [" + gcp;
    var r := head + "] is not compatible with Spring Boot [" + boot
      + "] and Spring Cloud [" + cloud + "]. Expected version: [" + expected + "]";
    assert r[|"spring-cloud-gcp ["|..|head|] == gcp;
    assert r[|head|..|head| + |"] is not compatible with Spring Boot ["|] == "] is not compatible with Spring Boot [";
    assert r[|r| - |expected| - 1..|r| - 1] == expected;
    r
  }

  /** The check: Boot against the accepted list, then Cloud against the Boot
      row of the matrix, then spring-cloud-gcp against the expected version,
      each compared at major.minor; the first failing step decides the error. */
  function Verify(enabled: bool, boot: string, cloud: string, gcp: string): (r: VerificationResult)
    ensures !enabled ==> r == Compatible
    ensures r.Incompatible? ==> r.action == Action()
  {
    if !enabled then Compatible
    else
      var strippedBoot := NormalizeVersion(boot);
      if strippedBoot !in SupportedVersions then
        Incompatible(BootMessage(boot), Action())
      else if strippedBoot !in CompatibilityMatrix
           || NormalizeVersion(cloud) !in CompatibilityMatrix[strippedBoot] then
        Incompatible(CloudMessage(boot, cloud), Action())
      else
        var expectedGcp := CompatibilityMatrix[strippedBoot][NormalizeVersion(cloud)];
        if NormalizeVersion(gcp) != NormalizeVersion(expectedGcp) then
          Incompatible(GcpMessage(boot, cloud, gcp, expectedGcp), Action())
        else Compatible
  }

  /** The check run on what detection reported, with the "unknown" fallback.
      A disabled check does not depend on detection at all. */
  function VerifyDetected(enabled: bool, boot: Option<string>, cloud: Option<string>, gcp: Option<string>): (r: VerificationResult)
    ensures !enabled ==> r == Compatible
    ensures r.Incompatible? ==> r.action == Action()
  {
    Verify(enabled, DetectedVersion(boot), DetectedVersion(cloud), DetectedVersion(gcp))
  }
}
