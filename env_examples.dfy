/**
 * Consequences of the branch-ref normaliser and the resource-name resolver
 * for particular shapes of ref, each derived from the general contracts.
 */
module EnvExamples {
  import opened Strings
  import opened EnvHelper

  /** A ref whose last character is not a digit never ends in a release tag. */
  lemma NotVersionTag(s: string)
    requires s == [] || !IsDigit(s[|s| - 1])
    ensures !EndsWithVersionTag(s)
  {
    assert TrailingDigits(s) == 0;
  }

  /** The segment the normaliser looks at, for a ref `prefix/segment`. */
  lemma LastSegmentOfRef(prefix: string, segment: string)
    requires '/' !in segment
    ensures LastPathSegment(LowerCase(prefix + "/" + segment)) == LowerCase(segment)
  {
    LowerCaseAppend(prefix + "/", segment);
    LowerCaseAppend(prefix, "/");
    assert LowerCase("/") == "/";
    assert LowerCase(prefix + "/" + segment) == LowerCase(prefix) + ['/'] + LowerCase(segment);
    LastSplitPartAfter(LowerCase(prefix), '/', LowerCase(segment));
  }

  /** For a ref `prefix/segment` that is no release tag, only the segment decides the result. */
  lemma CleanedNameOfSegment(prefix: string, segment: string)
    requires '/' !in segment && !EndsWithVersionTag(prefix + "/" + segment)
    ensures var lower := LowerCase(segment);
      ExtractCleanedBranchName(Some(prefix + "/" + segment))
        == if lower in ExcludedBranchNames then None
           else Some(StripThenCut(Filter(lower, IsBranchNameChar)))
  {
    LastSegmentOfRef(prefix, segment);
  }

  /** The excluded names are short lower-case words. */
  lemma ExcludedNameShape(name: string)
    requires name in ExcludedBranchNames
    ensures (|name| == 4 || |name| == 7 || |name| == 11) && '/' !in name
    ensures forall i :: 0 <= i < |name| ==> IsAsciiLower(name[i])
  {
  }

  /** Nothing to strip: the cleaned name is the cut alone. */
  lemma StripNothing(f: string)
    requires f != [] && f[|f| - 1] != '-'
    ensures StripThenCut(f) == Take(f, MaxBranchNameLength)
  {
    assert DropTrailing(f, IsHyphen) == f;
  }

  /** One trailing hyphen is stripped before the cut. */
  lemma StripOneHyphen(name: string)
    requires name != [] && name[|name| - 1] != '-'
    ensures StripThenCut(name + "-") == Take(name, MaxBranchNameLength)
  {
    var segment := name + "-";
    assert segment[..|segment| - 1] == name;
    assert DropTrailing(segment, IsHyphen) == DropTrailing(name, IsHyphen);
    assert DropTrailing(name, IsHyphen) == name;
  }

  lemma LongIsNotExcluded(s: string)
    requires |s| > 11
    ensures s !in ExcludedBranchNames
  {
    if s in ExcludedBranchNames {
      ExcludedNameShape(s);
    }
  }

  lemma CleanIsFixed(segment: string)
    requires forall i :: 0 <= i < |segment| ==> IsCleanChar(segment[i])
    ensures '/' !in segment && LowerCase(segment) == segment && Filter(segment, IsBranchNameChar) == segment
  {
    LowerCaseOfLower(segment);
    FilterAll(segment, IsBranchNameChar);
  }

  /** A release-tag ref is no branch: `refs/tags/v1.2.3` has no branch name. */
  lemma TagRefIsAbsent()
    ensures ExtractCleanedBranchName(Some("refs/tags/v1.2.3")) == None
  {
    VersionTagComplete("refs/tags/", "1", "2", "3");
    assert "refs/tags/" + "v" + "1" + "." + "2" + "." + "3" == "refs/tags/v1.2.3";
  }

  /** A ref whose last segment is `main`, `develop` or `development` has no branch name, whatever precedes it. */
  lemma ExcludedSegmentIsAbsent(prefix: string, segment: string)
    requires segment in ExcludedBranchNames
    ensures ExtractCleanedBranchName(Some(prefix + "/" + segment)) == None
  {
    ExcludedNameShape(segment);
    LowerCaseOfLower(segment);
    if !EndsWithVersionTag(prefix + "/" + segment) {
      CleanedNameOfSegment(prefix, segment);
    }
  }

  lemma FeatureMainIsAbsent()
    ensures ExtractCleanedBranchName(Some("feature/main")) == None
  {
    ExcludedSegmentIsAbsent("feature", "main");
    assert "feature" + "/" + "main" == "feature/main";
  }

  lemma UnderscoreFacts()
    ensures LowerCase("_") == "_" && Filter("_", IsBranchNameChar) == []
  {
    LowerCaseOfLower("_");
    FilterNone("_", IsBranchNameChar);
  }

  lemma UnderscoreLower(a: string, b: string)
    requires forall i :: 0 <= i < |a| ==> IsCleanChar(a[i])
    requires forall i :: 0 <= i < |b| ==> IsCleanChar(b[i])
    ensures LowerCase(a + "_" + b) == a + "_" + b
  {
    CleanIsFixed(a);
    CleanIsFixed(b);
    LowerCaseAppend(a + "_", b);
    LowerCaseAppend(a, "_");
    UnderscoreFacts();
  }

  lemma UnderscoreFilter(a: string, b: string)
    requires forall i :: 0 <= i < |a| ==> IsCleanChar(a[i])
    requires forall i :: 0 <= i < |b| ==> IsCleanChar(b[i])
    ensures Filter(a + "_" + b, IsBranchNameChar) == a + b
  {
    CleanIsFixed(a);
    CleanIsFixed(b);
    UnderscoreFacts();
    FilterAppend(a + "_", b, IsBranchNameChar);
    FilterAppend(a, "_", IsBranchNameChar);
    var fa := Filter(a + "_", IsBranchNameChar);
    assert fa == a + [];
    assert a + [] == a;
  }

  /** No excluded name holds an underscore. */
  lemma UnderscoreNotExcluded(s: string)
    requires '_' in s
    ensures s !in ExcludedBranchNames
  {
    forall n | n in ExcludedBranchNames
      ensures '_' !in n
    {
      ExcludedNameShape(n);
    }
  }

  /** The pieces of `a_b`: lower-casing keeps it, the filter drops the underscore. */
  lemma UnderscoreSegment(a: string, b: string)
    requires forall i :: 0 <= i < |a| ==> IsCleanChar(a[i])
    requires forall i :: 0 <= i < |b| ==> IsCleanChar(b[i])
    requires b != [] && IsAsciiLower(b[|b| - 1])
    ensures var segment := a + "_" + b;
      && '/' !in segment && LowerCase(segment) == segment && segment !in ExcludedBranchNames
      && StripThenCut(Filter(segment, IsBranchNameChar)) == Take(a + b, MaxBranchNameLength)
  {
    var segment := a + "_" + b;
    UnderscoreLower(a, b);
    UnderscoreFilter(a, b);
    assert '/' !in segment by {
      CleanIsFixed(a);
      CleanIsFixed(b);
    }
    assert segment[|a|] == '_';
    UnderscoreNotExcluded(segment);
    assert (a + b)[|a + b| - 1] == b[|b| - 1];
    StripNothing(a + b);
  }

  /**
   * An underscore is dropped, not turned into a hyphen: `prefix/a_b` with
   * clean `a` and `b` gives `ab`, cut to 25 characters.
   */
  lemma UnderscoreIsDropped(prefix: string, a: string, b: string)
    requires forall i :: 0 <= i < |a| ==> IsCleanChar(a[i])
    requires forall i :: 0 <= i < |b| ==> IsCleanChar(b[i])
    requires b != [] && IsAsciiLower(b[|b| - 1])
    ensures ExtractCleanedBranchName(Some(prefix + "/" + (a + "_" + b))) == Some(Take(a + b, MaxBranchNameLength))
    ensures |a| + |b| <= MaxBranchNameLength ==> ExtractCleanedBranchName(Some(prefix + "/" + (a + "_" + b))) == Some(a + b)
  {
    var ref := prefix + "/" + (a + "_" + b);
    assert ref[|ref| - 1] == b[|b| - 1];
    NotVersionTag(ref);
    UnderscoreSegment(a, b);
    CleanedNameOfSegment(prefix, a + "_" + b);
  }

  /** A segment with nothing left after the filter gives the empty name: present, yet not truthy. */
  lemma NothingLeftIsEmpty(prefix: string, junk: string)
    requires junk != [] && !IsDigit(junk[|junk| - 1])
    requires forall i :: 0 <= i < |junk| ==> IsLowerFixed(junk[i]) && !IsBranchNameChar(junk[i]) && junk[i] != '/'
    ensures ExtractCleanedBranchName(Some(prefix + "/" + junk)) == Some("")
  {
    var ref := prefix + "/" + junk;
    assert ref[|ref| - 1] == junk[|junk| - 1];
    NotVersionTag(ref);
    LowerCaseOfLower(junk);
    FilterNone(junk, IsBranchNameChar);
    assert junk !in ExcludedBranchNames by {
      assert !IsAsciiLower(junk[0]);
    }
    CleanedNameOfSegment(prefix, junk);
  }

  lemma LongSegment(segment: string)
    requires |segment| > MaxBranchNameLength
    requires forall i :: 0 <= i < |segment| ==> IsCleanChar(segment[i])
    requires IsAsciiLower(segment[|segment| - 1])
    ensures '/' !in segment && LowerCase(segment) == segment && segment !in ExcludedBranchNames
    ensures StripThenCut(Filter(segment, IsBranchNameChar)) == segment[..MaxBranchNameLength]
  {
    CleanIsFixed(segment);
    LongIsNotExcluded(segment);
    StripNothing(segment);
  }

  /**
   * The hyphen strip runs before the cut, so the cleaned name can end in a
   * hyphen: a clean segment with a hyphen at position 25 and more after it.
   */
  lemma CutCanEndInHyphen(prefix: string, segment: string)
    requires |segment| > MaxBranchNameLength && segment[MaxBranchNameLength - 1] == '-'
    requires forall i :: 0 <= i < |segment| ==> IsCleanChar(segment[i])
    requires IsAsciiLower(segment[|segment| - 1])
    ensures var r := ExtractCleanedBranchName(Some(prefix + "/" + segment));
      r == Some(segment[..MaxBranchNameLength]) && r.value[|r.value| - 1] == '-'
  {
    var ref := prefix + "/" + segment;
    assert ref[|ref| - 1] == segment[|segment| - 1];
    NotVersionTag(ref);
    LongSegment(segment);
    CleanedNameOfSegment(prefix, segment);
  }

  lemma ExcludedNameHyphenSegment(name: string)
    requires name in ExcludedBranchNames
    ensures var segment := name + "-";
      && '/' !in segment && LowerCase(segment) == segment && segment !in ExcludedBranchNames
      && StripThenCut(Filter(segment, IsBranchNameChar)) == name
  {
    var segment := name + "-";
    ExcludedNameShape(name);
    assert forall i :: 0 <= i < |segment| ==> IsCleanChar(segment[i]) by {
      assert forall i :: 0 <= i < |name| ==> segment[i] == name[i];
    }
    CleanIsFixed(segment);
    assert segment !in ExcludedBranchNames by {
      if segment in ExcludedBranchNames {
        ExcludedNameShape(segment);
      }
    }
    StripOneHyphen(name);
  }

  /**
   * The exclusion looks at the segment before the hyphen strip:
   * `prefix/main-` gives `main` (likewise for the other excluded names).
   */
  lemma ExcludedNameWithHyphen(prefix: string, name: string)
    requires name in ExcludedBranchNames
    ensures ExtractCleanedBranchName(Some(prefix + "/" + (name + "-"))) == Some(name)
  {
    var ref := prefix + "/" + (name + "-");
    assert ref[|ref| - 1] == '-';
    NotVersionTag(ref);
    ExcludedNameHyphenSegment(name);
    CleanedNameOfSegment(prefix, name + "-");
  }

  /** Without a branch ref the environment is the suffix. */
  lemma DataBucketProduction()
    ensures GenerateUniqueResourceName("DataBucket", None, Some("production")) == "DataBucket-production"
  {
    assert ComposeResourceName("DataBucket", None, Some("production")) == "DataBucket" + "-" + "production";
  }

  /**
   * A ref whose last segment is excluded silently falls back to the
   * environment, or to `dev` without one; nothing fails.
   */
  lemma ExcludedRefFallsBack(baseName: string, prefix: string, segment: string, environment: Option<string>)
    requires segment in ExcludedBranchNames
    ensures var name := ComposeResourceName(baseName, Some(prefix + "/" + segment), environment);
      name == baseName + "-" + (if Truthy(environment) then environment.value else "dev")
  {
    ExcludedSegmentIsAbsent(prefix, segment);
  }
}
