/** Composite resource ids: several identifiers joined with ':' when a
    resource is created, and split apart again by ParseResourceId when it is
    read, updated or deleted. */
module ResourceId {
  import opened Common
  import opened Strings

  /** fmt.Sprint(a, ":", b) for two strings. */
  function BuildId(a: string, b: string): string {
    a + ":" + b
  }

  /** The provider's ParseResourceId(id, n): split id on ':' and fail unless
      there are exactly n parts. */
  function ParseResourceId(id: string, n: nat): (r: Result<seq<string>>)
    ensures r.Success? <==> |Split(id, ':')| == n
    ensures r.Success? ==> r.value == Split(id, ':') && NoSep(r.value, ':')
    ensures r.Failure? ==> r.error == InvalidResourceId(id)
  {
    SplitPartsHaveNoSep(id, ':');
    var parts := Split(id, ':');
    if |parts| != n then Failure(InvalidResourceId(id)) else Success(parts)
  }

  /** A colon in a part always adds a part. */
  lemma {:induction false} SplitWithSep(s: string, sep: char)
    requires sep in s
    ensures |Split(s, sep)| >= 2
    decreases |s|
  {
    if s[0] != sep {
      SplitWithSep(s[1..], sep);
    }
  }

  /** Parsing a built id gives back its parts exactly when neither part
      holds a ':'; a ':' in either part makes the two-part parse fail. */
  lemma ParseBuildId(a: string, b: string)
    ensures (':' !in a && ':' !in b) ==> ParseResourceId(BuildId(a, b), 2) == Success([a, b])
    ensures (':' in a || ':' in b) ==> ParseResourceId(BuildId(a, b), 2).Failure?
  {
    assert BuildId(a, b) == a + [':'] + b;
    SplitAppend(a, ':', b);
    if ':' !in a && ':' !in b {
      SplitPair(a, b, ':');
    } else if ':' in a {
      SplitWithSep(a, ':');
    } else {
      SplitWithSep(b, ':');
    }
  }
}
