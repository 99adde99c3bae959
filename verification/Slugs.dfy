/** The two slug generators: of repositories (internal/domain/git/domain.go) and of
    teams (internal/domain/collaboration/domain.go). Lower-casing is a parameter:
    everything here is about what happens to the lower-cased name. */
module Slugs {
  predicate IsAlnum(c: char) {
    'a' <= c <= 'z' || '0' <= c <= '9'
  }

  predicate IsSlugChar(c: char) {
    IsAlnum(c) || c == '-'
  }

  // ---------- hyphens ----------

  predicate NoDouble(s: string) {
    forall i :: 0 <= i < |s| - 1 ==> !(s[i] == '-' && s[i + 1] == '-')
  }

  /** strings.ReplaceAll(s, "--", "-"): one pass from the left, without overlaps. */
  function ReplaceDoubles(s: string): string {
    if |s| < 2 then s
    else if s[0] == '-' && s[1] == '-' then ['-'] + ReplaceDoubles(s[2..])
    else [s[0]] + ReplaceDoubles(s[1..])
  }

  /** Every run of hyphens becomes one hyphen. */
  function Squeeze(s: string): string {
    if |s| < 2 then s
    else if s[0] == '-' && s[1] == '-' then Squeeze(s[1..])
    else [s[0]] + Squeeze(s[1..])
  }

  function TrimLeft(s: string): string {
    if s != [] && s[0] == '-' then TrimLeft(s[1..]) else s
  }

  function TrimRight(s: string): string {
    if s != [] && s[|s| - 1] == '-' then TrimRight(s[..|s| - 1]) else s
  }

  function Trim(s: string): string {
    TrimRight(TrimLeft(s))
  }

  /** The letters and digits of a string, in order. */
  function Alnums(s: string): string {
    if s == [] then [] else (if IsAlnum(s[0]) then [s[0]] else []) + Alnums(s[1..])
  }

  lemma {:induction false} AlnumsAppend(s: string, t: string)
    ensures Alnums(s + t) == Alnums(s) + Alnums(t)
    decreases |s|
  {
    if s == [] {
      assert s + t == t && Alnums(s) + Alnums(t) == Alnums(t);
    } else {
      AlnumsAppend(s[1..], t);
      var first: string := if IsAlnum(s[0]) then [s[0]] else [];
      calc {
        Alnums(s + t);
      == { assert (s + t)[1..] == s[1..] + t; }
        first + Alnums(s[1..] + t);
      ==
        first + (Alnums(s[1..]) + Alnums(t));
      ==
        (first + Alnums(s[1..])) + Alnums(t);
      ==
        Alnums(s) + Alnums(t);
      }
    }
  }

  lemma {:induction false} ReplaceDoublesSqueezes(s: string)
    ensures Squeeze(ReplaceDoubles(s)) == Squeeze(s)
    ensures s != [] ==> ReplaceDoubles(s) != [] && ReplaceDoubles(s)[0] == s[0]
    decreases |s|
  {
    if |s| >= 2 {
      if s[0] == '-' && s[1] == '-' {
        var rest := ReplaceDoubles(s[2..]);
        ReplaceDoublesSqueezes(s[2..]);
        assert (['-'] + rest)[1..] == rest;
        assert s[1..][1..] == s[2..];
      } else {
        var rest := ReplaceDoubles(s[1..]);
        ReplaceDoublesSqueezes(s[1..]);
        assert ([s[0]] + rest)[1..] == rest;
      }
    }
  }

  lemma {:induction false} ReplaceDoublesShrinks(s: string)
    ensures |ReplaceDoubles(s)| <= |s|
    ensures !NoDouble(s) ==> |ReplaceDoubles(s)| < |s|
    decreases |s|
  {
    if |s| >= 2 {
      if s[0] == '-' && s[1] == '-' {
        ReplaceDoublesShrinks(s[2..]);
      } else {
        ReplaceDoublesShrinks(s[1..]);
        if !NoDouble(s) {
          var i :| 0 <= i < |s| - 1 && s[i] == '-' && s[i + 1] == '-';
          assert s[1..][i - 1] == '-' && s[1..][i] == '-';
        }
      }
    }
  }

  lemma {:induction false} SqueezeFixes(s: string)
    requires NoDouble(s)
    ensures Squeeze(s) == s
    decreases |s|
  {
    if |s| >= 2 {
      PartHasNoDouble(s, 1, |s|);
      assert s[1..] == s[1..|s|];
      assert s[0] != '-' || s[1] != '-';
      SqueezeFixes(s[1..]);
    }
  }

  /** The loop reaches in passes what squeezing does at once. */
  method CollapseHyphens(s: string) returns (r: string)
    ensures r == Squeeze(s)
  {
    r := s;
    while !NoDouble(r)
      invariant Squeeze(r) == Squeeze(s)
      decreases |r|
    {
      ReplaceDoublesSqueezes(r);
      ReplaceDoublesShrinks(r);
      r := ReplaceDoubles(r);
    }
    SqueezeFixes(r);
  }

  // ---------- normal forms ----------

  predicate AllSlugChars(s: string) {
    forall c :: c in s ==> IsSlugChar(c)
  }

  /** Slug characters, without doubled hyphens and without hyphens at the ends. */
  predicate Normal(s: string) {
    AllSlugChars(s) && NoDouble(s) && (s != [] ==> s[0] != '-' && s[|s| - 1] != '-')
  }

  /** The expression of slugRegex: a letter or digit, then optionally slug characters
      that end in a letter or digit. */
  predicate MatchesSlugRegex(s: string) {
    && |s| > 0 && IsAlnum(s[0])
    && (|s| == 1 || (IsAlnum(s[|s| - 1]) && AllSlugChars(s[1..|s| - 1])))
  }

  lemma {:induction false} SqueezeChars(s: string)
    requires AllSlugChars(s)
    ensures AllSlugChars(Squeeze(s))
    decreases |s|
  {
    if |s| >= 2 {
      assert s[0] in s && forall c :: c in s[1..] ==> c in s;
      SqueezeChars(s[1..]);
    }
  }

  lemma {:induction false} SqueezeEnds(s: string)
    requires s != []
    ensures var r := Squeeze(s); r != [] && r[0] == s[0] && r[|r| - 1] == s[|s| - 1] && NoDouble(r)
    decreases |s|
  {
    if |s| >= 2 {
      SqueezeEnds(s[1..]);
      if !(s[0] == '-' && s[1] == '-') {
        NoNewDouble(s[0], Squeeze(s[1..]));
      }
    }
  }

  lemma AlnumsCons(c: char, s: string)
    ensures Alnums([c] + s) == (if IsAlnum(c) then [c] else []) + Alnums(s)
  {
    assert ([c] + s)[1..] == s;
  }

  lemma {:induction false} SqueezeAlnums(s: string)
    ensures Alnums(Squeeze(s)) == Alnums(s)
    decreases |s|
  {
    if |s| >= 2 {
      SqueezeAlnums(s[1..]);
      AlnumsCons(s[0], Squeeze(s[1..]));
      if s[0] == '-' { assert [] + Alnums(s[1..]) == Alnums(s[1..]); }
    }
  }

  lemma NoNewDouble(c: char, rest: string)
    requires rest != [] && NoDouble(rest) && (c != '-' || rest[0] != '-')
    ensures NoDouble([c] + rest)
  {
    var s := [c] + rest;
    forall i | 0 <= i < |s| - 1 ensures !(s[i] == '-' && s[i + 1] == '-') {
      assert s[i + 1] == rest[i] && (i > 0 ==> s[i] == rest[i - 1]);
    }
  }

  lemma PartHasNoDouble(s: string, i: nat, j: nat)
    requires i <= j <= |s| && NoDouble(s)
    ensures NoDouble(s[i..j])
  {
    forall k | 0 <= k < j - i - 1 ensures !(s[i..j][k] == '-' && s[i..j][k + 1] == '-') {
      assert s[i..j][k] == s[i + k] && s[i..j][k + 1] == s[i + k + 1];
    }
  }

  lemma {:induction false} TrimLeftIs(s: string) returns (i: nat)
    ensures i <= |s| && TrimLeft(s) == s[i..] && Alnums(s[i..]) == Alnums(s)
    ensures forall k :: 0 <= k < i ==> s[k] == '-'
    ensures i < |s| ==> s[i] != '-'
    decreases |s|
  {
    if s != [] && s[0] == '-' {
      i := TrimLeftIs(s[1..]);
      assert s[1..][i..] == s[i + 1..];
      i := i + 1;
    } else {
      i := 0;
      assert s[0..] == s;
    }
  }

  lemma {:induction false} TrimRightIs(s: string) returns (j: nat)
    ensures j <= |s| && TrimRight(s) == s[..j] && Alnums(s[..j]) == Alnums(s)
    ensures forall k :: j <= k < |s| ==> s[k] == '-'
    ensures j > 0 ==> s[j - 1] != '-'
    decreases |s|
  {
    if s != [] && s[|s| - 1] == '-' {
      var front := s[..|s| - 1];
      j := TrimRightIs(front);
      assert front[..j] == s[..j];
      assert s == front + ['-'];
      AlnumsAppend(front, ['-']);
      assert forall k :: 0 <= k < |front| ==> front[k] == s[k];
    } else {
      j := |s|;
      assert s[..j] == s;
    }
  }

  /** Trimming a squeezed string of slug characters gives a normal form with the same
      letters and digits. */
  lemma TrimIsNormal(s: string)
    requires AllSlugChars(s) && NoDouble(s)
    ensures Normal(Trim(s)) && Alnums(Trim(s)) == Alnums(s)
  {
    var i := TrimLeftIs(s);
    var t := TrimLeft(s);
    assert s[i..] == s[i..|s|];
    PartHasNoDouble(s, i, |s|);
    var j := TrimRightIs(t);
    assert t[..j] == t[0..j];
    PartHasNoDouble(t, 0, j);
    if j > 0 {
      assert t[..j][0] == t[0] && t[..j][j - 1] == t[j - 1];
    }
  }

  lemma TrimFixes(s: string)
    requires s == [] || (s[0] != '-' && s[|s| - 1] != '-')
    ensures Trim(s) == s
  {
  }

  lemma {:induction false} AlnumsOf(s: string)
    ensures Alnums(s) != [] <==> exists c :: c in s && IsAlnum(c)
    decreases |s|
  {
    if s != [] {
      AlnumsOf(s[1..]);
      assert s == [s[0]] + s[1..];
    }
  }

  /** The regular expression accepts exactly the slugs with slug characters whose ends
      are letters or digits; of normal forms, all but the empty one. */
  lemma NormalMatches(s: string)
    requires Normal(s)
    ensures MatchesSlugRegex(s) <==> s != []
  {
    if s != [] {
      assert s[0] in s && s[|s| - 1] in s;
    }
    if |s| > 1 {
      forall c | c in s[1..|s| - 1] ensures IsSlugChar(c) {
        assert c in s;
      }
    }
  }

  // ---------- repository slugs ----------

  /** Spaces and underscores become hyphens. */
  function Hyphenate(s: string): string {
    if s == [] then [] else [if s[0] == ' ' || s[0] == '_' then '-' else s[0]] + Hyphenate(s[1..])
  }

  /** Everything but slug characters is dropped. */
  function OnlySlugChars(s: string): string {
    if s == [] then [] else
    OnlySlugChars(s[..|s| - 1]) + if IsSlugChar(s[|s| - 1]) then [s[|s| - 1]] else []
  }

  /** The slug of a lower-cased name. */
  function RepoSlug(lowered: string): string {
    Trim(Squeeze(OnlySlugChars(Hyphenate(lowered))))
  }

  lemma {:induction false} HyphenateKeeps(s: string)
    ensures Alnums(Hyphenate(s)) == Alnums(s)
    ensures AllSlugChars(s) ==> Hyphenate(s) == s
    decreases |s|
  {
    if s != [] {
      HyphenateKeeps(s[1..]);
      assert s == [s[0]] + s[1..] && s[0] in s;
    }
  }

  lemma {:induction false} OnlySlugCharsKeeps(s: string)
    ensures AllSlugChars(OnlySlugChars(s)) && Alnums(OnlySlugChars(s)) == Alnums(s)
    ensures AllSlugChars(s) ==> OnlySlugChars(s) == s
    decreases |s|
  {
    if s != [] {
      var front, last := s[..|s| - 1], s[|s| - 1];
      OnlySlugCharsKeeps(front);
      assert s == front + [last];
      AlnumsAppend(front, [last]);
      AlnumsAppend(OnlySlugChars(front), if IsSlugChar(last) then [last] else []);
    }
  }

  method GenerateRepoSlug(name: string, lower: string -> string) returns (slug: string)
    ensures slug == RepoSlug(lower(name))
  {
    slug := Hyphenate(lower(name));
    var result: string := [];
    var i := 0;
    while i < |slug|
      invariant 0 <= i <= |slug|
      invariant result == OnlySlugChars(slug[..i])
    {
      var r := slug[i];
      assert slug[..i + 1][..i] == slug[..i];
      if ('a' <= r <= 'z') || ('0' <= r <= '9') || r == '-' {
        result := result + [r];
      }
      i := i + 1;
    }
    assert slug[..|slug|] == slug;
    slug := CollapseHyphens(result);
    slug := Trim(slug);
  }

  /** A repository slug is a normal form that keeps all letters and digits of the
      lower-cased name in order. */
  lemma RepoSlugIsNormal(lowered: string)
    ensures Normal(RepoSlug(lowered)) && Alnums(RepoSlug(lowered)) == Alnums(lowered)
  {
    var chars := OnlySlugChars(Hyphenate(lowered));
    HyphenateKeeps(lowered);
    OnlySlugCharsKeeps(Hyphenate(lowered));
    SqueezeChars(chars);
    SqueezeAlnums(chars);
    if chars != [] { SqueezeEnds(chars); }
    TrimIsNormal(Squeeze(chars));
  }

  /** The normal forms are exactly the fixed points, so generation is idempotent. */
  lemma RepoSlugFixes(s: string)
    ensures RepoSlug(s) == s <==> Normal(s)
  {
    RepoSlugIsNormal(s);
    if Normal(s) {
      HyphenateKeeps(s);
      OnlySlugCharsKeeps(s);
      SqueezeFixes(s);
      TrimFixes(s);
    }
  }

  /** Lower-casing does not touch slugs. */
  ghost predicate Lowers(lower: string -> string) {
    forall s: string :: AllSlugChars(s) ==> lower(s) == s
  }

  lemma RepoSlugIsIdempotent(name: string, lower: string -> string)
    requires Lowers(lower)
    ensures var slug := RepoSlug(lower(name)); RepoSlug(lower(slug)) == slug
  {
    RepoSlugIsNormal(lower(name));
    RepoSlugFixes(RepoSlug(lower(name)));
  }

  /** CreateRepo's check accepts the generated slug exactly if the lower-cased name has
      a letter a-z or a digit. */
  lemma RepoNameAccepted(lowered: string)
    ensures MatchesSlugRegex(RepoSlug(lowered)) <==> exists c :: c in lowered && IsAlnum(c)
  {
    RepoSlugIsNormal(lowered);
    var slug := RepoSlug(lowered);
    NormalMatches(slug);
    AlnumsOf(lowered);
    AlnumsOf(slug);
    if slug != [] {
      assert slug[0] in slug && IsAlnum(slug[0]);
    }
  }

  // ---------- team slugs ----------

  function DropRun(s: string): (r: string)
    ensures |r| <= |s| && (r != [] ==> IsAlnum(r[0]))
  {
    if s != [] && !IsAlnum(s[0]) then DropRun(s[1..]) else s
  }

  /** Every maximal run of other characters than a-z and 0-9 becomes one hyphen. */
  function ReplaceRuns(s: string): string
    decreases |s|
  {
    if s == [] then []
    else if IsAlnum(s[0]) then [s[0]] + ReplaceRuns(s[1..])
    else ['-'] + ReplaceRuns(DropRun(s[1..]))
  }

  const MAX_SLUG := 50

  function TeamSlug(lowered: string): string {
    var slug := Trim(ReplaceRuns(lowered));
    if |slug| > MAX_SLUG then slug[..MAX_SLUG] else slug
  }

  lemma {:induction false} ReplaceRunsProperties(s: string)
    ensures AllSlugChars(ReplaceRuns(s)) && NoDouble(ReplaceRuns(s))
    ensures s != [] ==> ReplaceRuns(s) != [] && (ReplaceRuns(s)[0] == '-' <==> !IsAlnum(s[0]))
    decreases |s|
  {
    if s != [] {
      var tail := if IsAlnum(s[0]) then s[1..] else DropRun(s[1..]);
      ReplaceRunsProperties(tail);
      if tail != [] {
        NoNewDouble(if IsAlnum(s[0]) then s[0] else '-', ReplaceRuns(tail));
      }
    }
  }

  lemma {:induction false} DropRunKeeps(s: string)
    ensures Alnums(DropRun(s)) == Alnums(s)
    decreases |s|
  {
    if s != [] && !IsAlnum(s[0]) {
      DropRunKeeps(s[1..]);
    }
  }

  lemma {:induction false} ReplaceRunsKeeps(s: string)
    ensures Alnums(ReplaceRuns(s)) == Alnums(s)
    decreases |s|
  {
    if s != [] {
      var tail := if IsAlnum(s[0]) then s[1..] else DropRun(s[1..]);
      ReplaceRunsKeeps(tail);
      DropRunKeeps(s[1..]);
      var rest := ReplaceRuns(tail);
      assert ([s[0]] + rest)[1..] == rest && (['-'] + rest)[1..] == rest;
    }
  }

  lemma {:induction false} ReplaceRunsFixes(s: string)
    requires AllSlugChars(s) && NoDouble(s)
    ensures ReplaceRuns(s) == s
    decreases |s|
  {
    if s != [] {
      assert s[1..] == s[1..|s|] && s == [s[0]] + s[1..];
      PartHasNoDouble(s, 1, |s|);
      assert AllSlugChars(s[1..]);
      ReplaceRunsFixes(s[1..]);
      assert s[0] in s && (|s| > 1 ==> s[1] in s && (s[0] == '-' ==> s[1] != '-'));
    }
  }

  /** The whole slug, before it is cut. */
  function Uncut(lowered: string): string {
    Trim(ReplaceRuns(lowered))
  }

  lemma UncutIsNormal(lowered: string)
    ensures Normal(Uncut(lowered)) && Alnums(Uncut(lowered)) == Alnums(lowered)
  {
    ReplaceRunsProperties(lowered);
    ReplaceRunsKeeps(lowered);
    TrimIsNormal(ReplaceRuns(lowered));
  }

  /** At most 50 bytes of slug characters, no doubled and no leading hyphen; a trailing
      hyphen exactly if the cut falls behind one. Up to the cut, the slug has the
      letters and digits of the name in order. */
  lemma TeamSlugShape(lowered: string)
    ensures var slug := TeamSlug(lowered); var whole := Uncut(lowered);
      && |slug| <= MAX_SLUG && AllSlugChars(slug) && NoDouble(slug)
      && (slug != [] ==> slug[0] != '-')
      && (slug != [] && slug[|slug| - 1] == '-' <==> |whole| > MAX_SLUG && whole[MAX_SLUG - 1] == '-')
      && slug <= whole && (|whole| <= MAX_SLUG ==> slug == whole) && Alnums(whole) == Alnums(lowered)
  {
    UncutIsNormal(lowered);
    var whole := Uncut(lowered);
    if |whole| > MAX_SLUG {
      assert whole[..MAX_SLUG] == whole[0..MAX_SLUG];
      PartHasNoDouble(whole, 0, MAX_SLUG);
    }
  }

  lemma TeamSlugFixes(s: string)
    requires Normal(s) && |s| <= MAX_SLUG
    ensures TeamSlug(s) == s
  {
    ReplaceRunsFixes(s);
    TrimFixes(s);
  }

  /** The second application removes a trailing hyphen and nothing else, and then
      nothing changes any more. */
  lemma TeamSlugSettles(lowered: string)
    ensures var slug := TeamSlug(lowered); var again := TeamSlug(slug);
      && again == (if slug != [] && slug[|slug| - 1] == '-' then slug[..|slug| - 1] else slug)
      && TeamSlug(again) == again
  {
    var slug := TeamSlug(lowered);
    TeamSlugShape(lowered);
    if slug != [] && slug[|slug| - 1] == '-' {
      var cut := slug[..|slug| - 1];
      assert slug[..|slug| - 1] == slug[0..|slug| - 1];
      PartHasNoDouble(slug, 0, |slug| - 1);
      assert cut != [] ==> slug[|slug| - 2] != '-';
      ReplaceRunsFixes(slug);
      var i := TrimLeftIs(slug);
      assert i == 0 && slug[0..] == slug;
      TrimFixes(cut);
      TeamSlugFixes(cut);
    } else {
      TeamSlugFixes(slug);
    }
  }

  function Repeat(c: char, n: nat): string {
    seq(n, _ => c)
  }

  /** The slug of 49 letters, a space and one more letter ends in a hyphen. */
  lemma TeamSlugMayEndInHyphen()
    ensures var slug := TeamSlug(Repeat('a', 49) + " b");
      slug == Repeat('a', 49) + "-" && TeamSlug(slug) == Repeat('a', 49) != slug
  {
    var letters := Repeat('a', 49);
    RunsAfterLetters(letters, " b");
    assert ReplaceRuns("b") == "b" by { assert "b"[1..] == ""; }
    assert ReplaceRuns(" b") == "-b" by {
      assert " b"[1..] == "b";
      assert DropRun("b") == "b";
    }
    TrimFixes(letters + "-b");
    assert (letters + "-b")[..50] == letters + "-";
    TeamSlugSettles(letters + " b");
    assert (letters + "-")[..49] == letters;
  }

  lemma {:induction false} RunsAfterLetters(letters: string, s: string)
    requires forall i :: 0 <= i < |letters| ==> IsAlnum(letters[i])
    ensures ReplaceRuns(letters + s) == letters + ReplaceRuns(s)
    decreases |letters|
  {
    if letters == [] {
      assert letters + s == s;
    } else {
      assert (letters + s)[1..] == letters[1..] + s;
      RunsAfterLetters(letters[1..], s);
    }
  }
}
