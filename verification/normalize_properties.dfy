/**
 * What version normalisation guarantees beyond the contracts of its
 * functions: its fixed points, the limits of its idempotence, and the normal
 * forms of the version shapes that occur in practice.
 */
module NormalizeProperties {
  import opened JavaStrings
  import opened DependencyVersionVerifier

  /** "unknown" holds no dot and does not end with ".x". */
  lemma UnknownShape()
    ensures '.' !in Unknown && !EndsWith(Unknown, ".x")
  {
  }

  /** A string ending with ".x" holds a dot, so it is neither blank nor "unknown". */
  lemma WildcardHasText(v: string)
    requires EndsWith(v, ".x")
    ensures HasText(v) && v != Unknown
  {
    assert v[|v| - 2] == '.';
    BlankHasNoDot(v);
    UnknownShape();
  }

  // ---------------------------------------------------------------------------
  // Normalisation

  /** The fixed points of normalisation are exactly the strings with at most
      one dot that do not end with the ".x" wildcard. */
  lemma {:induction false} NormalizeFixedPoints(v: string)
    ensures NormalizeVersion(v) == v <==> AtMostOneDot(v) && !EndsWith(v, ".x")
  {
    if EndsWith(v, ".x") {
      WildcardHasText(v);
      var w := StripWildCardFromVersion(v);
      assert |w| + 2 <= |v|;
      assert |NormalizeVersion(v)| <= |w|;
    }
  }

  /** The guard in front of the two steps does not change the result: blank
      strings and "unknown" pass through both steps unchanged anyway. */
  lemma NormalizeIsComposition(v: string)
    ensures NormalizeVersion(v) == StripMinorVersion(StripWildCardFromVersion(v))
  {
    if !HasText(v) || v == Unknown {
      BlankHasNoDot(v);
      UnknownShape();
      assert !EndsWith(v, ".x") by {
        if EndsWith(v, ".x") { WildcardHasText(v); }
      }
    }
  }

  /** Normalising twice gives the same as normalising once exactly when the
      first result does not end with ".x"; "3.x.5" is a string where it does. */
  lemma NormalizeIdempotentIff(v: string)
    ensures NormalizeVersion(NormalizeVersion(v)) == NormalizeVersion(v)
            <==> !EndsWith(NormalizeVersion(v), ".x")
  {
    NormalizeFixedPoints(NormalizeVersion(v));
  }

  /** Normalisation is not idempotent: "3.x.5" normalises to "3.x", which
      normalises further to "3". */
  lemma NormalizeNotIdempotent()
    ensures NormalizeVersion("3.x.5") == "3.x"
    ensures NormalizeVersion(NormalizeVersion("3.x.5")) == "3"
  {
    NormalizeInnerWildcard();
    NormalizeTrailingWildcard();
  }

  /** A ".x" that is not at the end is not a wildcard: "3.x.5" is only cut
      at its second dot. */
  lemma NormalizeInnerWildcard()
    ensures NormalizeVersion("3.x.5") == "3.x"
  {
    var v := "3.x.5";
    assert !EndsWith(v, ".x") by { assert v[3..] == ".5"; }
    assert StripWildCardFromVersion(v) == v;
    assert v[1] == '.';
    StripMinorAtSecondDot(v, 3);
  }

  /** "3.x" ends with the wildcard and becomes "3". */
  lemma NormalizeTrailingWildcard()
    ensures NormalizeVersion("3.x") == "3"
  {
    var n := "3.x";
    WildcardHasText(n);
    assert OccursAt(n, ".x", 1);
    assert StripWildCardFromVersion(n) == "3";
    NormalizeFixedPoints("3");
  }

  /** Cutting a string with two or more dots keeps the prefix before the
      second dot, when that dot is at index k. */
  lemma StripMinorAtSecondDot(v: string, k: nat)
    requires k < |v| && v[k] == '.'
    requires exists i :: 0 <= i < k && v[i] == '.'
    requires forall i, j :: 0 <= i < j < k && v[i] == '.' ==> v[j] != '.'
    ensures StripMinorVersion(v) == v[..k]
  {
  }

  /** A string that is not blank, not "unknown" and has no wildcard tail
      normalises to its prefix before the second dot, at index k. */
  lemma NormalizeAtSecondDot(v: string, k: nat)
    requires HasText(v) && v != Unknown && !EndsWith(v, ".x")
    requires k < |v| && v[k] == '.'
    requires exists i :: 0 <= i < k && v[i] == '.'
    requires forall i, j :: 0 <= i < j < k && v[i] == '.' ==> v[j] != '.'
    ensures NormalizeVersion(v) == v[..k]
  {
  }

  /** Wildcard stripping happens before truncation: "3.4.x" becomes "3.4". */
  lemma NormalizeWildcardExample()
    ensures NormalizeVersion("3.4.x") == "3.4"
  {
    var a := "3.4.x";
    WildcardHasText(a);
    assert OccursAt(a, ".x", 3);
    assert !OccursAt(a, ".x", 1) by { assert a[1..3][1] == '4'; }
    assert StripWildCardFromVersion(a) == "3.4";
    NormalizeFixedPoints("3.4");
  }

  /** A patch release keeps major.minor: "3.4.1" becomes "3.4". */
  lemma NormalizePatchExample()
    ensures NormalizeVersion("3.4.1") == "3.4"
  {
    NormalizeThreeParts("3.4.1", 1, 3);
  }

  /** A release-train version keeps year.minor: "2023.0.3" becomes "2023.0". */
  lemma NormalizeReleaseTrainExample()
    ensures NormalizeVersion("2023.0.3") == "2023.0"
  {
    NormalizeThreeParts("2023.0.3", 4, 6);
  }

  /** A wildcard version and a patch release of the same line share one key. */
  lemma WildcardAndPatchShareKey()
    ensures NormalizeVersion("3.4.x") == NormalizeVersion("3.4.1") == "3.4"
  {
    NormalizeWildcardExample();
    NormalizePatchExample();
  }

  /** A version "M.m.p" with digit-only parts normalises to "M.m"; i and k
      are the indices of its two dots. */
  lemma NormalizeThreeParts(v: string, i: nat, k: nat)
    requires 0 < i < k < |v| - 1 && v[i] == '.' && v[k] == '.'
    requires forall j :: 0 <= j < |v| && j != i && j != k ==> '0' <= v[j] <= '9'
    ensures NormalizeVersion(v) == v[..k]
  {
    assert !IsWhitespace(v[0]);
    assert v[0] != Unknown[0];
    assert !EndsWith(v, ".x") by { assert v[|v| - 1] != 'x'; }
    NormalizeAtSecondDot(v, k);
  }

  /** A version "M.m" with digit-only parts, i the index of its dot, is its
      own normal form. */
  lemma NormalizeTwoParts(v: string, i: nat)
    requires 0 < i < |v| - 1 && v[i] == '.'
    requires forall j :: 0 <= j < |v| && j != i ==> '0' <= v[j] <= '9'
    ensures NormalizeVersion(v) == v
  {
    assert !EndsWith(v, ".x") by { assert v[|v| - 1] != 'x'; }
    NormalizeFixedPoints(v);
  }
}
