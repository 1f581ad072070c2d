/**
 * What the compatibility check guarantees: the order of its three steps, the
 * exact condition for a compatible outcome, that undetected versions fail it,
 * and the outcome on the documented combinations.
 */
module VerifyProperties {
  import opened Wrappers
  import opened JavaStrings
  import opened DependencyVersionVerifier
  import opened NormalizeProperties

  // ---------------------------------------------------------------------------
  // The tables

  // Normal forms of the concrete versions used below, one per lemma so that
  // each proof sees a single literal.
  lemma Normal32() ensures NormalizeVersion("3.2") == "3.2" { NormalizeTwoParts("3.2", 1); }
  lemma Normal33() ensures NormalizeVersion("3.3") == "3.3" { NormalizeTwoParts("3.3", 1); }
  lemma Normal34() ensures NormalizeVersion("3.4") == "3.4" { NormalizeTwoParts("3.4", 1); }
  lemma Normal35() ensures NormalizeVersion("3.5") == "3.5" { NormalizeTwoParts("3.5", 1); }
  lemma Normal590() ensures NormalizeVersion("5.9.0") == "5.9" { NormalizeThreeParts("5.9.0", 1, 3); }
  lemma Normal4100() ensures NormalizeVersion("4.10.0") == "4.10" { NormalizeThreeParts("4.10.0", 1, 4); }
  lemma Normal597() ensures NormalizeVersion("5.9.7") == "5.9" { NormalizeThreeParts("5.9.7", 1, 3); }
  lemma Normal999() ensures NormalizeVersion("9.9.9") == "9.9" { NormalizeThreeParts("9.9.9", 1, 3); }
  lemma Normal321() ensures NormalizeVersion("3.2.1") == "3.2" { NormalizeThreeParts("3.2.1", 1, 3); }
  lemma Normal330() ensures NormalizeVersion("3.3.0") == "3.3" { NormalizeThreeParts("3.3.0", 1, 3); }
  lemma Normal390() ensures NormalizeVersion("3.9.0") == "3.9" { NormalizeThreeParts("3.9.0", 1, 3); }
  lemma Normal20230() ensures NormalizeVersion("2023.0") == "2023.0" { NormalizeTwoParts("2023.0", 4); }
  lemma Normal20240() ensures NormalizeVersion("2024.0") == "2024.0" { NormalizeTwoParts("2024.0", 4); }
  lemma Normal202300() ensures NormalizeVersion("2023.0.0") == "2023.0" { NormalizeThreeParts("2023.0.0", 4, 6); }
  lemma Normal202400() ensures NormalizeVersion("2024.0.0") == "2024.0" { NormalizeThreeParts("2024.0.0", 4, 6); }

  /** Every accepted Boot version is already normalised, so a normalised
      detected version can match it. */
  lemma AcceptedVersionsAreNormalized()
    ensures forall v :: v in SupportedVersions ==> NormalizeVersion(v) == v
  {
    Normal32();
    Normal33();
    Normal34();
    Normal35();
  }

  /** Every Cloud key of the matrix is already normalised. */
  lemma CloudKeysAreNormalized()
    ensures forall b, c :: b in CompatibilityMatrix && c in CompatibilityMatrix[b] ==> NormalizeVersion(c) == c
  {
    Normal20230();
    Normal20240();
  }

  /** Every matrix row belongs to an accepted Boot version, but "3.5" is
      accepted without a row. */
  lemma MatrixRowsAreAccepted()
    ensures forall b :: b in CompatibilityMatrix ==> b in SupportedVersions
    ensures "3.5" in SupportedVersions && "3.5" !in CompatibilityMatrix
  {
  }

  // The matrix rows used below, one per lemma.
  lemma Row32() ensures "3.2" in CompatibilityMatrix && CompatibilityMatrix["3.2"] == map["2023.0" := "5.9.0"] {}
  lemma Row33() ensures "3.3" in CompatibilityMatrix && CompatibilityMatrix["3.3"] == map["2024.0" := "4.10.0"] {}
  lemma Row34() ensures "3.4" in CompatibilityMatrix && CompatibilityMatrix["3.4"] == map["2024.0" := "4.10.0"] {}

  /** The expected spring-cloud-gcp versions, compared at major.minor. */
  lemma ExpectedGcpVersionsNormalized()
    ensures NormalizeVersion(CompatibilityMatrix["3.2"]["2023.0"]) == "5.9"
    ensures NormalizeVersion(CompatibilityMatrix["3.3"]["2024.0"]) == "4.10"
    ensures NormalizeVersion(CompatibilityMatrix["3.4"]["2024.0"]) == "4.10"
  {
    Row32();
    Row33();
    Row34();
    Normal590();
    Normal4100();
  }

  /** "unknown" normalises to itself and matches no accepted version, no
      matrix key and no normalised expected version. */
  lemma UnknownMatchesNothing()
    ensures NormalizeVersion(Unknown) == Unknown
    ensures Unknown !in SupportedVersions
    ensures forall b :: b in CompatibilityMatrix ==> Unknown !in CompatibilityMatrix[b]
    ensures forall b, c :: b in CompatibilityMatrix && c in CompatibilityMatrix[b] ==>
      NormalizeVersion(CompatibilityMatrix[b][c]) != Unknown
  {
  }

  // ---------------------------------------------------------------------------
  // The check

  /** With the check switched off every combination is compatible, unknown
      versions included. */
  lemma VerifyDisabled(boot: string, cloud: string, gcp: string)
    ensures Verify(false, boot, cloud, gcp) == Compatible
    ensures VerifyDetected(false, None, None, None) == Compatible
  {
  }

  /** A Boot version outside the accepted list is rejected with the Boot
      message before Cloud and spring-cloud-gcp are looked at. */
  lemma VerifyRejectsBoot(boot: string, cloud: string, gcp: string)
    requires NormalizeVersion(boot) !in SupportedVersions
    ensures Verify(true, boot, cloud, gcp) == Incompatible(BootMessage(boot), ActionText)
  {
  }

  /** The Boot message names the detected version and the accepted list. */
  lemma BootMessageText(boot: string)
    ensures BootMessage(boot) == "Spring Boot [" + boot + "] is not in accepted versions: [3.2, 3.3, 3.4, 3.5]"
  {
    AcceptedVersionsText();
  }

  /** The accepted list as Java's List.toString renders it. */
  lemma AcceptedVersionsText()
    ensures ListToString(SupportedVersions) == "[3.2, 3.3, 3.4, 3.5]"
  {
    var sep := ", ";
    assert Join(["3.5"], sep) == "3.5";
    assert ["3.4", "3.5"][1..] == ["3.5"];
    assert Join(["3.4", "3.5"], sep) == "3.4, 3.5";
    assert ["3.3", "3.4", "3.5"][1..] == ["3.4", "3.5"];
    assert Join(["3.3", "3.4", "3.5"], sep) == "3.3, 3.4, 3.5";
    assert SupportedVersions[1..] == ["3.3", "3.4", "3.5"];
  }

  /** An accepted Boot version whose matrix row is missing, or lacks the
      normalised Cloud version, is rejected with the Cloud message. */
  lemma VerifyRejectsCloud(boot: string, cloud: string, gcp: string)
    requires NormalizeVersion(boot) in SupportedVersions
    requires NormalizeVersion(boot) !in CompatibilityMatrix
             || NormalizeVersion(cloud) !in CompatibilityMatrix[NormalizeVersion(boot)]
    ensures Verify(true, boot, cloud, gcp) == Incompatible(CloudMessage(boot, cloud), ActionText)
  {
  }

  /** Boot 3.5 is accepted but has no row: it always fails at the Cloud step. */
  lemma Boot35AlwaysFailsAtCloud(boot: string, cloud: string, gcp: string)
    requires NormalizeVersion(boot) == "3.5"
    ensures Verify(true, boot, cloud, gcp) == Incompatible(CloudMessage(boot, cloud), ActionText)
  {
    MatrixRowsAreAccepted();
    VerifyRejectsCloud(boot, cloud, gcp);
  }

  /** With a matching row, a spring-cloud-gcp version whose major.minor differs
      from the expected one is rejected with a message naming that version. */
  lemma VerifyRejectsGcp(boot: string, cloud: string, gcp: string)
    requires NormalizeVersion(boot) in CompatibilityMatrix
    requires NormalizeVersion(cloud) in CompatibilityMatrix[NormalizeVersion(boot)]
    requires NormalizeVersion(gcp) != NormalizeVersion(CompatibilityMatrix[NormalizeVersion(boot)][NormalizeVersion(cloud)])
    ensures Verify(true, boot, cloud, gcp)
            == Incompatible(GcpMessage(boot, cloud, gcp, CompatibilityMatrix[NormalizeVersion(boot)][NormalizeVersion(cloud)]), ActionText)
  {
    MatrixRowsAreAccepted();
  }

  /** An enabled check is compatible exactly when the normalised Boot version
      has a row, the normalised Cloud version is a key of it, and the
      normalised spring-cloud-gcp version equals the normalised expected one. */
  lemma VerifyCompatibleIff(boot: string, cloud: string, gcp: string)
    ensures Verify(true, boot, cloud, gcp).IsCompatible() <==>
      var b, c := NormalizeVersion(boot), NormalizeVersion(cloud);
      b in CompatibilityMatrix && c in CompatibilityMatrix[b]
      && NormalizeVersion(gcp) == NormalizeVersion(CompatibilityMatrix[b][c])
  {
  }

  /** What the matrix means: an enabled check is compatible exactly when the
      three major.minor keys form one of the three listed combinations. */
  lemma VerifyCompatibleCombinations(boot: string, cloud: string, gcp: string)
    ensures Verify(true, boot, cloud, gcp).IsCompatible() <==>
      var key := (NormalizeVersion(boot), NormalizeVersion(cloud), NormalizeVersion(gcp));
      key == ("3.2", "2023.0", "5.9") || key == ("3.3", "2024.0", "4.10") || key == ("3.4", "2024.0", "4.10")
  {
    VerifyCompatibleIff(boot, cloud, gcp);
    ExpectedGcpVersionsNormalized();
    Row32();
    Row33();
    Row34();
  }

  /** With a matching row and a spring-cloud-gcp version equal to the expected
      one at major.minor, the enabled check is compatible. */
  lemma VerifyAccepts(boot: string, cloud: string, gcp: string)
    requires NormalizeVersion(boot) in CompatibilityMatrix
    requires NormalizeVersion(cloud) in CompatibilityMatrix[NormalizeVersion(boot)]
    requires NormalizeVersion(gcp) == NormalizeVersion(CompatibilityMatrix[NormalizeVersion(boot)][NormalizeVersion(cloud)])
    ensures Verify(true, boot, cloud, gcp) == Compatible
  {
    MatrixRowsAreAccepted();
  }

  /** The verdict depends on the detected versions only through their
      major.minor keys: "5.9.7" passes wherever "5.9.0" does. */
  lemma VerifyDependsOnlyOnNormalized(boot: string, cloud: string, gcp: string, boot': string, cloud': string, gcp': string)
    requires NormalizeVersion(boot) == NormalizeVersion(boot')
    requires NormalizeVersion(cloud) == NormalizeVersion(cloud')
    requires NormalizeVersion(gcp) == NormalizeVersion(gcp')
    ensures Verify(true, boot, cloud, gcp).IsCompatible() == Verify(true, boot', cloud', gcp').IsCompatible()
  {
    VerifyCompatibleIff(boot, cloud, gcp);
    VerifyCompatibleIff(boot', cloud', gcp');
  }

  /** Fail closed: an enabled check with any version "unknown" is incompatible. */
  lemma UnknownFailsClosed(boot: string, cloud: string, gcp: string)
    requires boot == Unknown || cloud == Unknown || gcp == Unknown
    ensures !Verify(true, boot, cloud, gcp).IsCompatible()
  {
    UnknownMatchesNothing();
    VerifyCompatibleIff(boot, cloud, gcp);
  }

  /** A version that detection could not read (null or blank, and for Cloud
      and spring-cloud-gcp a caught exception) becomes "unknown", so the
      enabled check fails. */
  lemma UndetectedVersionFailsClosed(boot: Option<string>, cloud: Option<string>, gcp: Option<string>)
    requires !(boot.Some? && HasText(boot.value)) || !(cloud.Some? && HasText(cloud.value))
             || !(gcp.Some? && HasText(gcp.value))
    ensures !VerifyDetected(true, boot, cloud, gcp).IsCompatible()
  {
    UnknownFailsClosed(DetectedVersion(boot), DetectedVersion(cloud), DetectedVersion(gcp));
  }

  /** Every incompatible result carries the one remediation text; a compatible
      one carries neither an error nor an action. */
  lemma ResultAccessors(enabled: bool, boot: string, cloud: string, gcp: string)
    ensures var r := Verify(enabled, boot, cloud, gcp);
      (r.IsCompatible() ==> r.GetError() == None && r.GetAction() == None)
      && (!r.IsCompatible() ==> r.GetError() == Some(r.error) && r.GetAction() == Some(ActionText))
  {
  }

  /** Boot 3.2 with Cloud 2023.0 and spring-cloud-gcp 5.9 is compatible. */
  lemma VerifyExampleCompatible()
    ensures Verify(true, "3.2.1", "2023.0.3", "5.9.0") == Compatible
  {
    Normal321();
    NormalizeReleaseTrainExample();
    Row32();
    VerifyAccepts("3.2.1", "2023.0.3", "5.9.0");
  }

  /** spring-cloud-gcp is compared at major.minor: 5.9.7 matches 5.9.0. */
  lemma VerifyExamplePatchedGcp()
    ensures Verify(true, "3.2.1", "2023.0.3", "5.9.7") == Compatible
  {
    Normal321();
    NormalizeReleaseTrainExample();
    Normal590();
    Normal597();
    Row32();
    VerifyAccepts("3.2.1", "2023.0.3", "5.9.7");
  }

  /** Boot 3.3 does not go with Cloud 2023.0. */
  lemma VerifyExampleCloudMismatch()
    ensures Verify(true, "3.3.0", "2023.0.0", "4.10.0") == Incompatible(CloudMessage("3.3.0", "2023.0.0"), ActionText)
  {
    Normal330();
    Normal202300();
    Row33();
    VerifyRejectsCloud("3.3.0", "2023.0.0", "4.10.0");
  }

  /** Boot 3.3 with Cloud 2024.0 expects spring-cloud-gcp 4.10, not 9.9. */
  lemma VerifyExampleGcpMismatch()
    ensures Verify(true, "3.3.0", "2024.0.0", "9.9.9")
            == Incompatible(GcpMessage("3.3.0", "2024.0.0", "9.9.9", "4.10.0"), ActionText)
  {
    Normal330();
    Normal202400();
    Normal999();
    Normal4100();
    Row33();
    VerifyRejectsGcp("3.3.0", "2024.0.0", "9.9.9");
  }

  /** Boot 3.9 is rejected whatever Cloud and spring-cloud-gcp are. */
  lemma VerifyExampleUnlistedBoot(cloud: string, gcp: string)
    ensures Verify(true, "3.9.0", cloud, gcp) == Incompatible(BootMessage("3.9.0"), ActionText)
  {
    Normal390();
    VerifyRejectsBoot("3.9.0", cloud, gcp);
  }
}
