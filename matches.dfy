/** The match queries the pages use: the LIKE-pattern sanitiser, the offline
    fallbacks, result formatting, the team-name list and the classification
    of "table not found" errors. The database is an input: either offline
    (no client configured, so the fixture rows answer) or the rows and error
    the query was answered with. */
module Matches {
  import opened Basics
  import opened Text
  import opened MatchRecord
  import opened OfflineData
  import DataProcessor

  // ---------------------------------------------------------------------------
  // Sanitising a search term for `ilike`
  // ---------------------------------------------------------------------------

  /** No two neighbouring characters are both white space. */
  predicate SingleSpaced(s: string) {
    forall i :: 0 < i < |s| ==> !(IsWhitespace(s[i - 1]) && IsWhitespace(s[i]))
  }

  /** The only white space left is the plain space. */
  predicate OnlySpaces(s: string) {
    forall i :: 0 <= i < |s| && IsWhitespace(s[i]) ==> s[i] == ' '
  }

  /** No white space at either end. */
  predicate Trimmed(s: string) {
    s == [] || (!IsWhitespace(s[0]) && !IsWhitespace(s[|s| - 1]))
  }

  /** The characters of `s` that are not white space, in order. */
  function Visible(s: string): (r: string)
    ensures |r| <= |s|
  {
    if s == [] then [] else (if IsWhitespace(s[0]) then [] else [s[0]]) + Visible(s[1..])
  }

  lemma {:induction false} VisibleAppend(a: string, b: string)
    ensures Visible(a + b) == Visible(a) + Visible(b)
    decreases |a|
  {
    if a == [] {
      assert a + b == b;
    } else {
      assert (a + b)[1..] == a[1..] + b;
      VisibleAppend(a[1..], b);
    }
  }

  /** A string has nothing visible exactly when it is all white space. */
  lemma {:induction false} VisibleEmptyIffBlank(s: string)
    ensures Visible(s) == [] <==> forall i :: 0 <= i < |s| ==> IsWhitespace(s[i])
    decreases |s|
  {
    if s != [] {
      VisibleEmptyIffBlank(s[1..]);
      assert forall i :: 1 <= i < |s| ==> s[i] == s[1..][i - 1];
    }
  }

  /** Dropping leading white space leaves the visible text alone. */
  lemma TrimStartKeepsVisible(s: string)
    ensures Visible(TrimStart(s)) == Visible(s)
  {
    var t := TrimStart(s);
    var w := s[..|s| - |t|];
    assert s == w + t;
    VisibleAppend(w, t);
    VisibleEmptyIffBlank(w);
  }

  /** Dropping trailing white space leaves the visible text alone. */
  lemma TrimEndKeepsVisible(s: string)
    ensures Visible(TrimEnd(s)) == Visible(s)
  {
    var e := TrimEnd(s);
    var w := s[|e|..];
    assert s == e + w;
    VisibleAppend(e, w);
    VisibleEmptyIffBlank(w);
  }

  /** Trimming leaves the visible text alone. */
  lemma TrimKeepsVisible(s: string)
    ensures Visible(Trim(s)) == Visible(s)
  {
    TrimStartKeepsVisible(s);
    TrimEndKeepsVisible(TrimStart(s));
  }

  /** `s.replace(/\s+/g, " ")`: each maximal run of white space becomes a
      single space. */
  function CollapseWhitespace(s: string): (r: string)
    ensures |r| <= |s|
    ensures r == [] <==> s == []
    ensures r != [] ==> (IsWhitespace(r[0]) <==> IsWhitespace(s[0]))
    ensures r != [] ==> (IsWhitespace(r[|r| - 1]) <==> IsWhitespace(s[|s| - 1]))
    ensures SingleSpaced(r) && OnlySpaces(r)
    decreases |s|
  {
    if s == [] then []
    else if IsWhitespace(s[0]) then
      var t := TrimStart(s[1..]);
      var rest := CollapseWhitespace(t);
      var r := [' '] + rest;
      assert t == [] ==> forall i :: 0 <= i < |s| ==> IsWhitespace(s[i]);
      assert t != [] ==> s[|s| - 1] == t[|t| - 1];
      assert r[|r| - 1] == if rest == [] then ' ' else rest[|rest| - 1];
      SpacingCons(' ', rest);
      r
    else
      var rest := CollapseWhitespace(s[1..]);
      var r := [s[0]] + rest;
      assert r[|r| - 1] == if rest == [] then s[0] else rest[|rest| - 1];
      assert s[|s| - 1] == if |s| == 1 then s[0] else s[1..][|s| - 2];
      SpacingCons(s[0], rest);
      r
  }

  /** Putting a character in front keeps the spacing when it is visible, or
      a plain space in front of something visible. */
  lemma SpacingCons(c: char, rest: string)
    requires SingleSpaced(rest) && OnlySpaces(rest)
    requires IsWhitespace(c) ==> c == ' ' && (rest == [] || !IsWhitespace(rest[0]))
    ensures SingleSpaced([c] + rest) && OnlySpaces([c] + rest)
  {
    var r := [c] + rest;
    assert forall i :: 1 <= i < |r| ==> r[i] == rest[i - 1];
  }

  /** Collapsing keeps every visible character, in order. */
  lemma {:induction false} CollapseKeepsVisible(s: string)
    ensures Visible(CollapseWhitespace(s)) == Visible(s)
    decreases |s|
  {
    if s != [] {
      if IsWhitespace(s[0]) {
        var t := TrimStart(s[1..]);
        CollapseKeepsVisible(t);
        TrimStartKeepsVisible(s[1..]);
        assert Visible([' '] + CollapseWhitespace(t)) == Visible(CollapseWhitespace(t));
      } else {
        CollapseKeepsVisible(s[1..]);
        assert ([s[0]] + CollapseWhitespace(s[1..]))[1..] == CollapseWhitespace(s[1..]);
      }
    }
  }

  /** A string that is already single-spaced with plain spaces only is left
      as it is. */
  lemma {:induction false} CollapseOfCollapsed(s: string)
    requires SingleSpaced(s) && OnlySpaces(s)
    ensures CollapseWhitespace(s) == s
    decreases |s|
  {
    if s != [] {
      var rest := s[1..];
      SpacingTail(s);
      CollapseOfCollapsed(rest);
      if IsWhitespace(s[0]) {
        assert s[0] == ' ';
        assert rest != [] ==> !IsWhitespace(rest[0]) by {
          if rest != [] {
            assert rest[0] == s[1];
          }
        }
        TrimStartOfVisible(rest);
      }
      assert s == [s[0]] + rest;
    }
  }

  /** A string that starts with a visible character is its own `trimStart`. */
  lemma TrimStartOfVisible(s: string)
    requires s == [] || !IsWhitespace(s[0])
    ensures TrimStart(s) == s
  {
  }

  /** Single spacing and plain spaces survive dropping the first character. */
  lemma SpacingTail(s: string)
    requires s != [] && SingleSpaced(s) && OnlySpaces(s)
    ensures SingleSpaced(s[1..]) && OnlySpaces(s[1..])
  {
    assert forall i :: 0 <= i < |s| - 1 ==> s[1..][i] == s[i + 1];
  }

  /** The trim of a string is one of its slices. */
  lemma TrimIsSlice(s: string) returns (i: nat)
    ensures i + |Trim(s)| <= |s| && Trim(s) == s[i..i + |Trim(s)|]
  {
    var t := TrimStart(s);
    i := |s| - |t|;
    PrefixOfSuffix(s, t, TrimEnd(t), i);
  }

  /** A prefix of a suffix is a slice. */
  lemma PrefixOfSuffix(s: string, t: string, u: string, i: nat)
    requires i <= |s| && t == s[i..] && u <= t
    ensures i + |u| <= |s| && u == s[i..i + |u|]
  {
  }

  /** Single spacing and plain spaces survive taking a slice. */
  lemma SliceKeepsSpacing(s: string, t: string, i: nat)
    requires i + |t| <= |s| && t == s[i..i + |t|] && SingleSpaced(s) && OnlySpaces(s)
    ensures SingleSpaced(t) && OnlySpaces(t)
  {
    assert forall k :: 0 <= k < |t| ==> t[k] == s[i + k];
  }

  /** `input.replace(/\s+/g, " ").trim()`. */
  function NormalizeSpaces(input: string): string {
    Trim(CollapseWhitespace(input))
  }

  lemma TrimIsTrimmed(s: string)
    ensures Trimmed(Trim(s))
  {
  }

  /** Normalising keeps single plain spaces. */
  lemma NormalizeSpacesSpacing(input: string)
    ensures SingleSpaced(NormalizeSpaces(input)) && OnlySpaces(NormalizeSpaces(input))
  {
    var c := CollapseWhitespace(input);
    var i := TrimIsSlice(c);
    SliceKeepsSpacing(c, Trim(c), i);
  }

  /** Normalising keeps the visible characters. */
  lemma NormalizeSpacesVisible(input: string)
    ensures Visible(NormalizeSpaces(input)) == Visible(input)
  {
    TrimKeepsVisible(CollapseWhitespace(input));
    CollapseKeepsVisible(input);
  }

  /** The normalised term is empty exactly for a blank input. */
  lemma NormalizeSpacesEmpty(input: string)
    ensures NormalizeSpaces(input) == [] <==> Trim(input) == []
  {
    var c := CollapseWhitespace(input);
    CollapseKeepsVisible(input);
    TrimEmptyIffBlank(c);
    TrimEmptyIffBlank(input);
    VisibleEmptyIffBlank(c);
    VisibleEmptyIffBlank(input);
  }

  /** The normalised search term: no white space at the ends, no two white
      space characters in a row, only plain spaces, the same visible
      characters in the same order, and empty exactly for a blank input. */
  lemma NormalizeSpacesShape(input: string)
    ensures Trimmed(NormalizeSpaces(input))
    ensures SingleSpaced(NormalizeSpaces(input)) && OnlySpaces(NormalizeSpaces(input))
    ensures Visible(NormalizeSpaces(input)) == Visible(input)
    ensures NormalizeSpaces(input) == [] <==> Trim(input) == []
  {
    TrimIsTrimmed(CollapseWhitespace(input));
    NormalizeSpacesSpacing(input);
    NormalizeSpacesVisible(input);
    NormalizeSpacesEmpty(input);
  }

  /** `s.replace(/[c]/g, rep)`. */
  function ReplaceChar(s: string, c: char, rep: string): string {
    if s == [] then [] else (if s[0] == c then rep else [s[0]]) + ReplaceChar(s[1..], c, rep)
  }

  lemma {:induction false} ReplaceCharAppend(a: string, b: string, c: char, rep: string)
    ensures ReplaceChar(a + b, c, rep) == ReplaceChar(a, c, rep) + ReplaceChar(b, c, rep)
    decreases |a|
  {
    if a == [] {
      assert a + b == b;
    } else {
      assert (a + b)[1..] == a[1..] + b;
      ReplaceCharAppend(a[1..], b, c, rep);
    }
  }

  /** `sanitizeIlikePattern(input)` as written: normalise the white space,
      then put a backslash before every `%` and then before every `_`. */
  function SanitizeIlikePattern(input: string): string {
    ReplaceChar(ReplaceChar(NormalizeSpaces(input), '%', "\\%"), '_', "\\_")
  }

  /** A LIKE wildcard character. */
  predicate IsWildcard(c: char) { c == '%' || c == '_' }

  /** One pass that puts a backslash before each wildcard. */
  function EscapeWildcards(s: string): (r: string)
    ensures |r| >= |s|
    ensures r == [] <==> s == []
    ensures r != [] ==> r[0] == '\\' || r[0] == s[0]
    ensures r != [] ==> r[|r| - 1] == s[|s| - 1]
  {
    if s == [] then []
    else (if IsWildcard(s[0]) then ['\\', s[0]] else [s[0]]) + EscapeWildcards(s[1..])
  }

  /** The two `replace` calls together are the one-pass escape. */
  lemma {:induction false} TwoPassesEscape(s: string)
    ensures ReplaceChar(ReplaceChar(s, '%', "\\%"), '_', "\\_") == EscapeWildcards(s)
    decreases |s|
  {
    if s != [] {
      var head := if s[0] == '%' then "\\%" else [s[0]];
      assert ReplaceChar(s, '%', "\\%") == head + ReplaceChar(s[1..], '%', "\\%");
      ReplaceCharAppend(head, ReplaceChar(s[1..], '%', "\\%"), '_', "\\_");
      assert ReplaceChar(head, '_', "\\_") == if IsWildcard(s[0]) then ['\\', s[0]] else [s[0]] by {
        if s[0] == '%' {
          assert ReplaceChar(head, '_', "\\_") == ['\\'] + ReplaceChar(['%'], '_', "\\_");
        }
      }
      TwoPassesEscape(s[1..]);
    }
  }

  /** Every wildcard is immediately preceded by a backslash. */
  predicate WildcardsEscaped(r: string) {
    forall i :: 0 <= i < |r| && IsWildcard(r[i]) ==> 0 < i && r[i - 1] == '\\'
  }

  /** Drops each backslash that stands right before a wildcard. */
  function UnescapeWildcards(r: string): string {
    if |r| >= 2 && r[0] == '\\' && IsWildcard(r[1]) then [r[1]] + UnescapeWildcards(r[2..])
    else if r == [] then []
    else [r[0]] + UnescapeWildcards(r[1..])
  }

  /** The escape puts a backslash before each wildcard. */
  lemma {:induction false} EscapeWildcardsEscapes(s: string)
    ensures WildcardsEscaped(EscapeWildcards(s))
    decreases |s|
  {
    if s != [] {
      EscapeWildcardsEscapes(s[1..]);
      var rest := EscapeWildcards(s[1..]);
      var r := EscapeWildcards(s);
      var head := if IsWildcard(s[0]) then ['\\', s[0]] else [s[0]];
      assert r == head + rest;
      forall i | 0 <= i < |r| && IsWildcard(r[i]) ensures 0 < i && r[i - 1] == '\\' {
        if i >= |head| {
          assert r[i] == rest[i - |head|];
          if i > |head| {
            assert r[i - 1] == rest[i - 1 - |head|];
          } else {
            assert false;
          }
        }
      }
    }
  }

  /** Removing the inserted backslashes gives back exactly the original. */
  lemma {:induction false} EscapeWildcardsRoundTrip(s: string)
    ensures UnescapeWildcards(EscapeWildcards(s)) == s
    decreases |s|
  {
    if s != [] {
      EscapeWildcardsRoundTrip(s[1..]);
      var rest := EscapeWildcards(s[1..]);
      if IsWildcard(s[0]) {
        UnescapeEscaped(s[0], rest);
      } else {
        assert rest == [] || !IsWildcard(rest[0]);
        UnescapePlain(s[0], rest);
      }
      assert s == [s[0]] + s[1..];
    }
  }

  lemma UnescapeEscaped(c: char, rest: string)
    requires IsWildcard(c)
    ensures UnescapeWildcards(['\\', c] + rest) == [c] + UnescapeWildcards(rest)
  {
    assert (['\\', c] + rest)[2..] == rest;
  }

  lemma UnescapePlain(c: char, rest: string)
    requires rest == [] || !IsWildcard(rest[0])
    ensures UnescapeWildcards([c] + rest) == [c] + UnescapeWildcards(rest)
  {
    assert ([c] + rest)[1..] == rest;
  }

  /** Without wildcards there is nothing to escape. */
  lemma {:induction false} EscapeWildcardsOfPlain(s: string)
    requires forall i :: 0 <= i < |s| ==> !IsWildcard(s[i])
    ensures EscapeWildcards(s) == s
    decreases |s|
  {
    if s != [] {
      var t := s[1..];
      forall i | 0 <= i < |t|
        ensures !IsWildcard(t[i])
      {
        assert t[i] == s[i + 1];
      }
      EscapeWildcardsOfPlain(t);
      assert EscapeWildcards(s) == [s[0]] + EscapeWildcards(t);
      assert s == [s[0]] + t;
    }
  }

  /** Escaping neither creates nor splits white space runs, and adds no white
      space at either end. */
  lemma {:induction false} EscapeKeepsSpacing(s: string)
    requires SingleSpaced(s) && OnlySpaces(s)
    ensures SingleSpaced(EscapeWildcards(s)) && OnlySpaces(EscapeWildcards(s))
    ensures Trimmed(s) ==> Trimmed(EscapeWildcards(s))
    decreases |s|
  {
    if s != [] {
      var rest := EscapeWildcards(s[1..]);
      var r := EscapeWildcards(s);
      var head := if IsWildcard(s[0]) then ['\\', s[0]] else [s[0]];
      assert r == head + rest;
      assert SingleSpaced(s[1..]) && OnlySpaces(s[1..]) by {
        assert forall i :: 0 <= i < |s| - 1 ==> s[1..][i] == s[i + 1];
      }
      EscapeKeepsSpacing(s[1..]);
      forall i | 0 < i < |r| ensures !(IsWhitespace(r[i - 1]) && IsWhitespace(r[i])) {
        if i > |head| {
          assert r[i - 1] == rest[i - 1 - |head|] && r[i] == rest[i - |head|];
        } else if i == |head| {
          assert r[i - 1] == s[0] && r[i] == rest[0];
        }
      }
      forall i | 0 <= i < |r| && IsWhitespace(r[i]) ensures r[i] == ' ' {
        if i >= |head| {
          assert r[i] == rest[i - |head|];
        }
      }
    }
  }

  /** The sanitised term keeps the normalised shape: no white space at the
      ends, single plain spaces, every wildcard escaped, and removing the
      escapes gives back the normalised term. */
  lemma SanitizeIlikePatternShape(input: string)
    ensures Trimmed(SanitizeIlikePattern(input))
    ensures SingleSpaced(SanitizeIlikePattern(input)) && OnlySpaces(SanitizeIlikePattern(input))
    ensures WildcardsEscaped(SanitizeIlikePattern(input))
    ensures UnescapeWildcards(SanitizeIlikePattern(input)) == NormalizeSpaces(input)
  {
    var n := NormalizeSpaces(input);
    NormalizeSpacesShape(input);
    TwoPassesEscape(n);
    EscapeWildcardsEscapes(n);
    EscapeWildcardsRoundTrip(n);
    EscapeKeepsSpacing(n);
  }

  /** A term that is already trimmed, single-spaced with plain spaces and free
      of wildcards comes back unchanged. */
  lemma SanitizeIlikePatternOfPlainTerm(input: string)
    requires Trimmed(input) && SingleSpaced(input) && OnlySpaces(input)
    requires forall i :: 0 <= i < |input| ==> !IsWildcard(input[i])
    ensures SanitizeIlikePattern(input) == input
  {
    CollapseOfCollapsed(input);
    TrimOfTrimmed(input);
    TwoPassesEscape(input);
    EscapeWildcardsOfPlain(input);
  }

  /** How PostgreSQL reads a LIKE pattern with its default escape character,
      the backslash: `Some(text)` when the pattern has no live wildcard and so
      matches exactly `text`, `None` when an unescaped `%` or `_` remains (or
      the pattern ends in a lone escape character, which PostgreSQL rejects). */
  function LikeLiteral(p: string): Option<string> {
    if p == [] then Some([])
    else if p[0] == '\\' then
      if |p| == 1 then None
      else match LikeLiteral(p[2..])
        case Some(t) => Some([p[1]] + t)
        case None => None
    else if IsWildcard(p[0]) then None
    else match LikeLiteral(p[1..])
      case Some(t) => Some([p[0]] + t)
      case None => None
  }

  /** As written, a backslash typed before a `%` escapes the backslash the
      sanitiser inserted, and the `%` is a live wildcard again. */
  lemma SanitizedBackslashPercentIsWildcard()
    ensures SanitizeIlikePattern("\\%") == "\\\\%"
    ensures LikeLiteral(SanitizeIlikePattern("\\%")).None?
  {
    NormalizeSpacesOfBackslashPercent();
    TwoPassesEscape("\\%");
    EscapeOfBackslashPercent();
    LikeLiteralOfEscapedBackslashPercent();
  }

  lemma EscapeOfBackslashPercent()
    ensures EscapeWildcards("\\%") == "\\\\%"
  {
    assert EscapeWildcards("%") == "\\%" by {
      assert EscapeWildcards("%"[1..]) == [];
    }
    assert "\\%"[1..] == "%";
  }

  lemma LikeLiteralOfEscapedBackslashPercent()
    ensures LikeLiteral("\\\\%") == None
  {
    assert "\\\\%"[2..] == "%";
    assert LikeLiteral("%") == None;
  }

  /** The two-character term backslash-percent has no white space to normalise. */
  lemma NormalizeSpacesOfBackslashPercent()
    ensures NormalizeSpaces("\\%") == "\\%"
  {
    var s := "\\%";
    assert !IsWhitespace(s[0]) && !IsWhitespace(s[1]);
    assert SingleSpaced(s) && OnlySpaces(s);
    CollapseOfCollapsed(s);
    TrimOfTrimmed(s);
  }

  /** Without a backslash in the term the as-written escape is enough: the
      pattern matches exactly the normalised term. */
  lemma {:induction false} EscapeWildcardsIsLiteral(s: string)
    requires '\\' !in s
    ensures LikeLiteral(EscapeWildcards(s)) == Some(s)
    decreases |s|
  {
    if s != [] {
      assert '\\' !in s[1..];
      EscapeWildcardsIsLiteral(s[1..]);
      var rest := EscapeWildcards(s[1..]);
      if IsWildcard(s[0]) {
        LikeLiteralEscaped(s[0], rest);
      } else {
        LikeLiteralPlain(s[0], rest);
      }
      assert s == [s[0]] + s[1..];
    }
  }

  /** An escaped character followed by a pattern. */
  lemma LikeLiteralEscaped(c: char, rest: string)
    ensures LikeLiteral(['\\', c] + rest) ==
      match LikeLiteral(rest)
      case Some(t) => Some([c] + t)
      case None => None
  {
    assert (['\\', c] + rest)[2..] == rest;
  }

  /** An ordinary character followed by a pattern. */
  lemma LikeLiteralPlain(c: char, rest: string)
    requires c != '\\' && !IsWildcard(c)
    ensures LikeLiteral([c] + rest) ==
      match LikeLiteral(rest)
      case Some(t) => Some([c] + t)
      case None => None
  {
    assert ([c] + rest)[1..] == rest;
  }

  /** Puts a backslash before each wildcard and before each backslash, the
      escaping PostgreSQL documents for a literal LIKE pattern. */
  function EscapeLike(s: string): string {
    if s == [] then []
    else (if IsWildcard(s[0]) || s[0] == '\\' then ['\\', s[0]] else [s[0]]) + EscapeLike(s[1..])
  }

  /** The escaped text is a pattern without live wildcards that matches
      exactly the text. */
  lemma {:induction false} EscapeLikeIsLiteral(s: string)
    ensures LikeLiteral(EscapeLike(s)) == Some(s)
    decreases |s|
  {
    if s != [] {
      EscapeLikeIsLiteral(s[1..]);
      var rest := EscapeLike(s[1..]);
      if IsWildcard(s[0]) || s[0] == '\\' {
        LikeLiteralEscaped(s[0], rest);
      } else {
        LikeLiteralPlain(s[0], rest);
      }
      assert s == [s[0]] + s[1..];
    }
  }

  /** The sanitiser with the backslash escaped too. */
  function SanitizeLikeTerm(input: string): string {
    EscapeLike(NormalizeSpaces(input))
  }

  /** The corrected sanitiser's output, used as a LIKE pattern, has no live
      wildcard and matches exactly the normalised term, whatever was typed. */
  lemma SanitizeLikeTermIsLiteral(input: string)
    ensures LikeLiteral(SanitizeLikeTerm(input)) == Some(NormalizeSpaces(input))
  {
    EscapeLikeIsLiteral(NormalizeSpaces(input));
  }

  /** A visible character occurs in a string exactly when it occurs among
      the string's visible characters. */
  lemma {:induction false} VisibleHas(s: string, c: char)
    requires !IsWhitespace(c)
    ensures c in Visible(s) <==> c in s
    decreases |s|
  {
    if s != [] {
      VisibleHas(s[1..], c);
      assert s == [s[0]] + s[1..];
    }
  }

  /** Without a backslash in the search term the as-written sanitiser is
      enough: the pattern matches exactly the normalised term. */
  lemma SanitizeIlikePatternWithoutBackslash(input: string)
    requires '\\' !in input
    ensures LikeLiteral(SanitizeIlikePattern(input)) == Some(NormalizeSpaces(input))
  {
    NormalizeSpacesHas(input, '\\');
    EscapedIsLiteral(NormalizeSpaces(input));
  }

  /** The two escaping passes make a backslash-free text a literal pattern. */
  lemma EscapedIsLiteral(n: string)
    requires '\\' !in n
    ensures LikeLiteral(ReplaceChar(ReplaceChar(n, '%', "\\%"), '_', "\\_")) == Some(n)
  {
    TwoPassesEscape(n);
    EscapeWildcardsIsLiteral(n);
  }

  /** Normalising the spaces keeps exactly the visible characters there were. */
  lemma NormalizeSpacesHas(input: string, c: char)
    requires !IsWhitespace(c)
    ensures c in NormalizeSpaces(input) <==> c in input
  {
    NormalizeSpacesVisible(input);
    VisibleHas(input, c);
    VisibleHas(NormalizeSpaces(input), c);
  }

  // ---------------------------------------------------------------------------
  // Errors
  // ---------------------------------------------------------------------------

  /** `TABLE_NOT_FOUND_ERROR`. */
  const TABLE_NOT_FOUND_ERROR: string :=
    "A 'matches' " + "tábla nem " + "található. " + "Kérlek, " + "győződj meg " + "róla, hogy " +
    "létrehoztad " + "a Supabase " + "adatbázisodban."

  const RELATION: string := "relation"
  const DOES_NOT_EXIST: string := "does not exist"

  /** The error a query function throws for a database error with this
      message: a missing table becomes `TABLE_NOT_FOUND_ERROR`, anything else
      is rethrown as it is. */
  function ClassifyError(message: string): (r: string)
    ensures Contains(message, RELATION) && Contains(message, DOES_NOT_EXIST) ==> r == TABLE_NOT_FOUND_ERROR
    ensures !(Contains(message, RELATION) && Contains(message, DOES_NOT_EXIST)) ==> r == message
  {
    if Contains(message, RELATION) && Contains(message, DOES_NOT_EXIST) then TABLE_NOT_FOUND_ERROR else message
  }

  /** A string that contains a pattern contains each of its characters. */
  lemma ContainsChar(s: string, q: string, c: char)
    requires Contains(s, q) && c in q
    ensures c in s
  {
    ContainsAt(s, q);
    var i :| OccursAt(s, q, i);
    var k :| 0 <= k < |q| && q[k] == c;
    assert s[i..i + |q|][k] == s[i + k];
  }

  /** The replacement message does not itself look like a missing relation,
      so classifying twice changes nothing. */
  lemma ClassifyErrorIdempotent(message: string)
    ensures ClassifyError(ClassifyError(message)) == ClassifyError(message)
  {
    if Contains(TABLE_NOT_FOUND_ERROR, DOES_NOT_EXIST) {
      assert DOES_NOT_EXIST[10] == 'x';
      ContainsChar(TABLE_NOT_FOUND_ERROR, DOES_NOT_EXIST, 'x');
      TableNotFoundHasNoX();
      assert false;
    }
  }

  lemma TableNotFoundHasNoX()
    ensures 'x' !in TABLE_NOT_FOUND_ERROR
  {
    assert 'x' !in "A 'matches' " && 'x' !in "tábla nem " && 'x' !in "található. ";
    assert 'x' !in "Kérlek, " && 'x' !in "győződj meg " && 'x' !in "róla, hogy ";
    assert 'x' !in "létrehoztad " && 'x' !in "a Supabase " && 'x' !in "adatbázisodban.";
  }

  // ---------------------------------------------------------------------------
  // Queries, with the database as an input
  // ---------------------------------------------------------------------------

  /** The database as a query function sees it. `Offline(rows)` is the client
      missing (no Supabase URL or key): the functions then answer from the
      offline fixture, which the application fixes to `OFFLINE_MATCHES`
      (`UNCONFIGURED` below); keeping the rows in the value proves every
      property for any fixture. `Answered` is the answer to the query the
      function built: the rows (`data`, possibly `null`) and the error. */
  datatype Database = Offline(rows: seq<Match>) | Answered(data: Option<seq<Match>>, error: Option<string>)

  /** The application without a configured client. */
  const UNCONFIGURED: Database := Offline(OFFLINE_MATCHES)

  /** How an online query function ends: it throws on an error, classified
      or not, and otherwise returns `data || []`. */
  function Settle(data: Option<seq<Match>>, error: Option<string>, classify: bool): (r: Result<seq<Match>, string>)
    ensures r.Err? <==> error.Some?
  {
    match error
    case Some(e) => Err(if classify then ClassifyError(e) else e)
    case None => Ok(data.GetOr([]))
  }

  /** `getAllMatches(limit)`: offline, a copy of the fixture, newest kick-off
      first, cut to `limit`; online, the rows or the classified error. */
  function GetAllMatches(db: Database, limit: int): (r: Result<seq<Match>, string>)
    ensures db.Offline? ==> r.Ok? && SortedDesc(r.value, ByMatchTime)
    ensures db.Offline? ==> forall m :: m in r.value ==> m in db.rows
    ensures db.Offline? && limit >= 0 ==> |r.value| <= limit
    ensures db.Offline? && limit >= |db.rows| ==> multiset(r.value) == multiset(db.rows)
    ensures db.Answered? && db.error.Some? ==> r == Err(ClassifyError(db.error.value))
    ensures db.Answered? && db.error.None? ==> r == Ok(db.data.GetOr([]))
  {
    match db
    case Offline(rows) => Ok(TakeNewest(rows, ByMatchTime, limit))
    case Answered(data, error) => Settle(data, error, true)
  }

  /** `team?.trim() || undefined`: the trimmed name, or nothing when the name
      is missing or blank. */
  function TrimmedOrMissing(team: Option<string>): (r: Option<string>)
    ensures r.None? <==> team.None? || Trim(team.value) == []
    ensures r.Some? ==> r.value == Trim(team.value) && Applies(r)
  {
    if team.Some? && Trim(team.value) != [] then Some(Trim(team.value)) else None
  }

  /** The `ilike` pattern for one side of `searchMatches`: `%term%` around the
      name as `sanitizeIlikePattern` leaves it, or no filter for a missing or
      blank name. */
  function SidePattern(team: Option<string>): Option<string> {
    if team.Some? && Trim(team.value) != [] then Some("%" + SanitizeIlikePattern(team.value) + "%") else None
  }

  /** A side pattern is present exactly for a non-blank name, and then it is
      the sanitised name between two `%`. When the name has no backslash the
      pattern is a "contains" search for the normalised, non-empty name with no
      live wildcard of its own; a backslash can leave one live (see
      `SidePatternOfBackslashPercent`). */
  lemma SidePatternMeaning(team: Option<string>)
    ensures SidePattern(team).None? <==> team.None? || Trim(team.value) == []
    ensures SidePattern(team).Some? ==>
      var p := SidePattern(team).value;
      |p| >= 2 && p[0] == '%' && p[|p| - 1] == '%' &&
      p[1..|p| - 1] == SanitizeIlikePattern(team.value) &&
      NormalizeSpaces(team.value) != []
    ensures SidePattern(team).Some? && '\\' !in team.value ==>
      var p := SidePattern(team).value;
      LikeLiteral(p[1..|p| - 1]) == Some(NormalizeSpaces(team.value))
  {
    if team.Some? && Trim(team.value) != [] {
      var p := SidePattern(team).value;
      assert p[1..|p| - 1] == SanitizeIlikePattern(team.value);
      NormalizeSpacesEmpty(team.value);
      if '\\' !in team.value {
        SanitizeIlikePatternWithoutBackslash(team.value);
      }
    }
  }

  /** A name with no white space at either end gets its sanitised form
      between two `%`. */
  lemma SidePatternOfTrimmed(t: string)
    requires t != [] && !IsWhitespace(t[0]) && !IsWhitespace(t[|t| - 1])
    ensures SidePattern(Some(t)) == Some("%" + SanitizeIlikePattern(t) + "%")
  {
    TrimOfTrimmed(t);
  }

  /** As written, the search for the team `\%` sends `%\\%%`, whose inner
      part is not literal: the typed backslash escapes the inserted one. */
  lemma SidePatternOfBackslashPercent()
    ensures SidePattern(Some("\\%")) == Some("%\\\\%%")
    ensures LikeLiteral(SidePattern(Some("\\%")).value[1..4]).None?
  {
    var t, p := "\\%", "%\\\\%%";
    SidePatternOfTrimmed(t);
    SanitizedBackslashPercentIsWildcard();
    assert "%" + SanitizeIlikePattern(t) + "%" == p;
    assert p[1..4] == SanitizeIlikePattern(t);
  }

  /** The filters `searchMatches` sends: one `ilike` per side that has a
      pattern, ordered by kick-off and limited. */
  datatype SearchQuery = SearchQuery(homePattern: Option<string>, awayPattern: Option<string>, limit: int)

  function BuildSearchQuery(homeTeam: Option<string>, awayTeam: Option<string>, limit: int): SearchQuery {
    SearchQuery(SidePattern(homeTeam), SidePattern(awayTeam), limit)
  }

  /** `searchMatches(homeTeam, awayTeam, limit)`: offline, the fixture search
      with trimmed names; online, the rows of the query or the classified
      error. */
  function SearchMatches(db: Database, homeTeam: Option<string>, awayTeam: Option<string>, limit: int): (r: Result<seq<Match>, string>)
    ensures db.Offline? ==> r.Ok? && SortedDesc(r.value, ByMatchTime)
    ensures db.Offline? ==> forall m :: m in r.value ==> m in db.rows
    ensures db.Offline? && limit >= 0 ==> |r.value| <= limit
    ensures db.Offline? && homeTeam.Some? && Trim(homeTeam.value) != [] ==>
      forall m :: m in r.value ==> MatchesText(m.homeTeam, Trim(homeTeam.value))
    ensures db.Offline? && awayTeam.Some? && Trim(awayTeam.value) != [] ==>
      forall m :: m in r.value ==> MatchesText(m.awayTeam, Trim(awayTeam.value))
    ensures db.Offline? && limit >= |db.rows| ==>
      multiset(r.value) == multiset(Selected(db.rows, TrimmedOrMissing(homeTeam), TrimmedOrMissing(awayTeam)))
    ensures db.Answered? && db.error.Some? ==> r == Err(ClassifyError(db.error.value))
    ensures db.Answered? && db.error.None? ==> r == Ok(db.data.GetOr([]))
  {
    match db
    case Offline(rows) =>
      Ok(SearchIn(rows, TrimmedOrMissing(homeTeam), TrimmedOrMissing(awayTeam), limit))
    case Answered(data, error) => Settle(data, error, true)
  }

  /** A missing or blank name filters nothing on its side, offline and in the
      query sent online. */
  lemma BlankTeamIsNoFilter(db: Database, homeTeam: Option<string>, awayTeam: Option<string>, limit: int)
    requires homeTeam.None? || Trim(homeTeam.value) == []
    ensures SearchMatches(db, homeTeam, awayTeam, limit) == SearchMatches(db, None, awayTeam, limit)
    ensures BuildSearchQuery(homeTeam, awayTeam, limit) == BuildSearchQuery(None, awayTeam, limit)
    ensures BuildSearchQuery(homeTeam, awayTeam, limit).homePattern.None?
  {
  }

  /** The filter `searchMatchesByTeam` and `getTeamStatistics` send online:
      `home_team.ilike.%safe%` or `away_team.ilike.%safe%`, one pattern for
      both sides, ordered by kick-off and limited. */
  datatype TeamQuery = TeamQuery(pattern: string, limit: int)

  function BuildTeamQuery(teamName: string, limit: int): TeamQuery {
    TeamQuery("%" + SanitizeIlikePattern(teamName) + "%", limit)
  }

  /** The team pattern is the sanitised name between two `%`, and a name
      without a backslash gives a literal "contains" search for the
      normalised name. */
  lemma TeamQueryMeaning(teamName: string, limit: int)
    ensures var p := BuildTeamQuery(teamName, limit).pattern;
      |p| >= 2 && p[0] == '%' && p[|p| - 1] == '%' && p[1..|p| - 1] == SanitizeIlikePattern(teamName)
    ensures '\\' !in teamName ==>
      var p := BuildTeamQuery(teamName, limit).pattern;
      LikeLiteral(p[1..|p| - 1]) == Some(NormalizeSpaces(teamName))
    ensures BuildTeamQuery(teamName, limit).limit == limit
  {
    var p := BuildTeamQuery(teamName, limit).pattern;
    assert p[1..|p| - 1] == SanitizeIlikePattern(teamName);
    if '\\' !in teamName {
      SanitizeIlikePatternWithoutBackslash(teamName);
    }
  }

  /** A blank name sends `%%`, which every row matches on either side. */
  lemma BlankTeamQuery(teamName: string, limit: int)
    requires Trim(teamName) == []
    ensures BuildTeamQuery(teamName, limit).pattern == "%%"
  {
    SanitizeIlikePatternOfBlank(teamName);
  }

  /** A blank term sanitises to nothing. */
  lemma SanitizeIlikePatternOfBlank(input: string)
    requires Trim(input) == []
    ensures SanitizeIlikePattern(input) == []
  {
    NormalizeSpacesEmpty(input);
  }

  /** `searchMatchesByTeam(teamName, limit)`: offline, the fixture matches
      naming the team on either side; online, the rows or the classified
      error. */
  function SearchMatchesByTeam(db: Database, teamName: string, limit: int): (r: Result<seq<Match>, string>)
    ensures db.Offline? ==> r.Ok? && SortedDesc(r.value, ByMatchTime)
    ensures db.Offline? ==> forall m :: m in r.value ==> m in db.rows && EitherSide(m, teamName)
    ensures db.Offline? && limit >= 0 ==> |r.value| <= limit
    ensures db.Offline? && limit >= |db.rows| ==>
      forall m :: m in db.rows && EitherSide(m, teamName) ==> m in r.value
    ensures db.Answered? && db.error.Some? ==> r == Err(ClassifyError(db.error.value))
    ensures db.Answered? && db.error.None? ==> r == Ok(db.data.GetOr([]))
  {
    match db
    case Offline(rows) => Ok(SearchByTeamIn(rows, teamName, limit))
    case Answered(data, error) => Settle(data, error, true)
  }

  /** `getTeamStatistics(teamName)`: like the team search with a limit of 100,
      except that an online error is rethrown without classification. */
  function GetTeamStatistics(db: Database, teamName: string): (r: Result<seq<Match>, string>)
    ensures db.Offline? ==> r.Ok? && |r.value| <= 100 && SortedDesc(r.value, ByMatchTime)
    ensures db.Offline? ==> forall m :: m in r.value ==> m in db.rows && EitherSide(m, teamName)
    ensures db.Offline? && |db.rows| <= 100 ==> forall m :: m in db.rows && EitherSide(m, teamName) ==> m in r.value
    ensures db.Answered? && db.error.Some? ==> r == Err(db.error.value)
    ensures db.Answered? && db.error.None? ==> r == Ok(db.data.GetOr([]))
  {
    match db
    case Offline(rows) => Ok(SearchByTeamIn(rows, teamName, 100))
    case Answered(data, error) => Settle(data, error, false)
  }

  // ---------------------------------------------------------------------------
  // Team names
  // ---------------------------------------------------------------------------

  /** `getTeamNames()`: offline, the fixture's names; online, the non-empty
      home and away names of the rows, each once, sorted; `[]` on an error. */
  method GetTeamNames(db: Database) returns (names: seq<string>)
    ensures StrictlyIncreasing(names)
    ensures db.Offline? ==> forall n :: n in names <==> n in TeamNames(db.rows)
    ensures db.Answered? && db.error.Some? ==> names == []
    ensures db.Answered? && db.error.None? ==>
      forall n :: n in names <==> n in TeamNames(db.data.GetOr([])) && n != []
  {
    if db.Offline? {
      names := SortedTeamNames(db.rows);
      return;
    }
    if db.error.Some? {
      return [];
    }
    var data := db.data.GetOr([]);
    names := [];
    for i := 0 to |data|
      invariant StrictlyIncreasing(names)
      invariant forall n :: n in names <==> n in TeamNames(data[..i]) && n != []
    {
      var m := data[i];
      assert data[..i + 1] == data[..i] + [m];
      if m.homeTeam != [] {
        names := InsertSorted(names, m.homeTeam);
      }
      if m.awayTeam != [] {
        names := InsertSorted(names, m.awayTeam);
      }
    }
    assert data[..|data|] == data;
  }

  // ---------------------------------------------------------------------------
  // Formatting
  // ---------------------------------------------------------------------------

  /** `FormattedMatch`; the date stays a timestamp (the locale rendering is
      not modelled). */
  datatype FormattedMatch = FormattedMatch(
    id: int,
    matchDate: int,
    homeTeam: string,
    awayTeam: string,
    result: string,
    halfTimeResult: string,
    totalGoals: nat,
    bothTeamsScored: bool)

  /** `${home}-${away}`. */
  function ScoreText(home: nat, away: nat): string {
    NatToString(home) + "-" + NatToString(away)
  }

  /** A score line names exactly one pair of scores. */
  lemma ScoreTextInjective(h1: nat, a1: nat, h2: nat, a2: nat)
    requires ScoreText(h1, a1) == ScoreText(h2, a2)
    ensures h1 == h2 && a1 == a2
  {
    SplitAtDash(NatToString(h1), NatToString(a1), NatToString(h2), NatToString(a2));
    NatToStringInjective(h1, h2);
    NatToStringInjective(a1, a2);
  }

  /** One row of `getFormattedMatches`. */
  function FormatMatch(m: Match): (f: FormattedMatch)
    ensures f.id == m.id && f.homeTeam == m.homeTeam && f.awayTeam == m.awayTeam
    ensures f.totalGoals == m.homeGoals + m.awayGoals
    ensures f.bothTeamsScored <==> DataProcessor.BothScored(m)
    ensures f.result == ScoreText(m.homeGoals, m.awayGoals)
    ensures f.halfTimeResult == ScoreText(m.halfTimeHomeGoals, m.halfTimeAwayGoals)
  {
    FormattedMatch(m.id, m.matchTime, m.homeTeam, m.awayTeam,
      ScoreText(m.homeGoals, m.awayGoals), ScoreText(m.halfTimeHomeGoals, m.halfTimeAwayGoals),
      m.homeGoals + m.awayGoals, m.homeGoals > 0 && m.awayGoals > 0)
  }

  /** Two matches with the same formatted result line have the same full-time
      score. */
  lemma FormattedResultDeterminesScore(m1: Match, m2: Match)
    requires FormatMatch(m1).result == FormatMatch(m2).result
    ensures m1.homeGoals == m2.homeGoals && m1.awayGoals == m2.awayGoals
  {
    ScoreTextInjective(m1.homeGoals, m1.awayGoals, m2.homeGoals, m2.awayGoals);
  }

  /** `matches.map(...)`: one formatted row per match, in order. */
  function FormatAll(ms: seq<Match>): (r: seq<FormattedMatch>)
    ensures |r| == |ms|
    ensures forall i :: 0 <= i < |ms| ==> r[i] == FormatMatch(ms[i])
  {
    if ms == [] then [] else [FormatMatch(ms[0])] + FormatAll(ms[1..])
  }

  /** `getFormattedMatches(limit)`: the formatted rows of `getAllMatches`, or
      its error. */
  function GetFormattedMatches(db: Database, limit: int): (r: Result<seq<FormattedMatch>, string>)
    ensures r.Ok? <==> GetAllMatches(db, limit).Ok?
    ensures r.Ok? ==> |r.value| == |GetAllMatches(db, limit).value|
    ensures r.Ok? ==> forall i :: 0 <= i < |r.value| ==>
      r.value[i].id == GetAllMatches(db, limit).value[i].id &&
      r.value[i].totalGoals == GetAllMatches(db, limit).value[i].homeGoals + GetAllMatches(db, limit).value[i].awayGoals
    ensures r.Ok? ==> r.value == FormatAll(GetAllMatches(db, limit).value)
    ensures r.Err? ==> r.error == GetAllMatches(db, limit).error
  {
    match GetAllMatches(db, limit)
    case Ok(ms) => Ok(FormatAll(ms))
    case Err(e) => Err(e)
  }
}
