/**
 Escaping a search term for LIKE and ILIKE. The matcher follows section 9.7.1 of the
 PostgreSQL manual; `fold` is the identity for LIKE and the case folding for ILIKE.
 */
module LikePattern {
  predicate Special(c: char) { c in {'\\', '%', '_'} }

  function EscapeLikePattern(value: string): string {
    if value == [] then []
    else (if Special(value[0]) then ['\\', value[0]] else [value[0]]) + EscapeLikePattern(value[1..])
  }

  /** users/search/route.ts:45 */
  function PrefixPattern(term: string): string { EscapeLikePattern(term) + "%" }

  /** messages.ts:277 */
  function SubstringPattern(term: string): string { "%" + EscapeLikePattern(term) + "%" }

  // ----- section 9.7.1 -------------------------------------------------------------

  /** A pattern with a dangling escape matches nothing past it: PostgreSQL raises an error there. */
  predicate Like(pattern: string, s: string, fold: char -> char)
    decreases |pattern| + |s|
  {
    if pattern == [] then s == []
    else match pattern[0]
      case '%' => Like(pattern[1..], s, fold) || (s != [] && Like(pattern, s[1..], fold))
      case '_' => s != [] && Like(pattern[1..], s[1..], fold)
      case '\\' => |pattern| >= 2 && s != [] && fold(s[0]) == fold(pattern[1]) && Like(pattern[2..], s[1..], fold)
      case c => s != [] && fold(s[0]) == fold(c) && Like(pattern[1..], s[1..], fold)
  }

  predicate DanglingEscape(pattern: string) {
    pattern != [] &&
    if pattern[0] == '\\' then |pattern| == 1 || DanglingEscape(pattern[2..])
    else DanglingEscape(pattern[1..])
  }

  // ----- meaning -------------------------------------------------------------------

  ghost predicate SameText(a: string, b: string, fold: char -> char) {
    |a| == |b| && forall i | 0 <= i < |a| :: fold(a[i]) == fold(b[i])
  }

  ghost predicate StartsWith(s: string, term: string, fold: char -> char) {
    |term| <= |s| && SameText(s[..|term|], term, fold)
  }

  ghost predicate ContainsAt(s: string, term: string, k: nat, fold: char -> char) {
    k <= |s| && StartsWith(s[k..], term, fold)
  }

  /** An escaped term in front of a pattern matches the term itself, then whatever the pattern does. */
  lemma {:induction false} EscapedTermIsLiteral(term: string, rest: string, s: string, fold: char -> char)
    ensures Like(EscapeLikePattern(term) + rest, s, fold) <==>
              StartsWith(s, term, fold) && Like(rest, s[|term|..], fold)
    decreases |term|
  {
    var p := EscapeLikePattern(term) + rest;
    if term == [] {
      assert p == rest && s[0..] == s;
    } else {
      var head := if Special(term[0]) then ['\\', term[0]] else [term[0]];
      assert p == head + (EscapeLikePattern(term[1..]) + rest);
      assert p[|head|..] == EscapeLikePattern(term[1..]) + rest;
      if s != [] {
        EscapedTermIsLiteral(term[1..], rest, s[1..], fold);
        if |term| <= |s| { assert s[1..][|term|-1..] == s[|term|..]; }
        StartsWithStep(s, term, fold);
      }
    }
  }

  lemma StartsWithStep(s: string, term: string, fold: char -> char)
    requires s != [] && term != []
    ensures StartsWith(s, term, fold) <==> fold(s[0]) == fold(term[0]) && StartsWith(s[1..], term[1..], fold)
  {
    if |term| <= |s| {
      assert forall i | 0 <= i < |term| - 1 :: s[1..][..|term|-1][i] == s[..|term|][i + 1] && term[1..][i] == term[i + 1];
      if fold(s[0]) == fold(term[0]) && StartsWith(s[1..], term[1..], fold) {
        forall i | 0 <= i < |term| ensures fold(s[..|term|][i]) == fold(term[i]) {
          if i > 0 { assert fold(s[1..][..|term|-1][i-1]) == fold(term[1..][i-1]); }
        }
      }
    }
  }

  lemma {:induction false} PercentMatchesAnything(s: string, fold: char -> char)
    ensures Like("%", s, fold)
  {
    if s != [] { PercentMatchesAnything(s[1..], fold); }
  }

  /** A leading `%` skips any number of characters. */
  lemma {:induction false} PercentSkips(rest: string, s: string, fold: char -> char)
    ensures Like("%" + rest, s, fold) <==> exists k: nat | k <= |s| :: Like(rest, s[k..], fold)
    decreases |s|
  {
    var p := "%" + rest;
    assert p[1..] == rest && s[0..] == s;
    if s != [] {
      PercentSkips(rest, s[1..], fold);
      forall k: nat | k < |s| ensures s[1..][k..] == s[k+1..] {}
      if Like(p, s, fold) {
        if !Like(rest, s, fold) {
          var k: nat :| k <= |s[1..]| && Like(rest, s[1..][k..], fold);
          assert Like(rest, s[k+1..], fold);
        }
      } else if k: nat :| k <= |s| && Like(rest, s[k..], fold) {
        assert Like(rest, s[1..][k-1..], fold);
      }
    }
  }

  /** `escape(term)%` finds exactly the texts the term is a prefix of. */
  lemma PrefixSearchFindsPrefixes(term: string, s: string, fold: char -> char)
    ensures Like(PrefixPattern(term), s, fold) <==> StartsWith(s, term, fold)
  {
    EscapedTermIsLiteral(term, "%", s, fold);
    if |term| <= |s| { PercentMatchesAnything(s[|term|..], fold); }
  }

  /** `%escape(term)%` finds exactly the texts the term occurs in. */
  lemma SubstringSearchFindsSubstrings(term: string, s: string, fold: char -> char)
    ensures Like(SubstringPattern(term), s, fold) <==> exists k: nat :: ContainsAt(s, term, k, fold)
  {
    assert SubstringPattern(term) == "%" + PrefixPattern(term);
    PercentSkips(PrefixPattern(term), s, fold);
    forall k: nat | k <= |s| ensures Like(PrefixPattern(term), s[k..], fold) == ContainsAt(s, term, k, fold) {
      PrefixSearchFindsPrefixes(term, s[k..], fold);
    }
  }

  lemma {:induction false} EscapingLeavesNothingDangling(term: string, rest: string)
    ensures DanglingEscape(EscapeLikePattern(term) + rest) == DanglingEscape(rest)
  {
    var p := EscapeLikePattern(term) + rest;
    if term == [] {
      assert p == rest;
    } else {
      var head := if Special(term[0]) then ['\\', term[0]] else [term[0]];
      assert p == head + (EscapeLikePattern(term[1..]) + rest);
      assert p[|head|..] == EscapeLikePattern(term[1..]) + rest;
      EscapingLeavesNothingDangling(term[1..], rest);
    }
  }

  /** So neither built pattern makes the database raise an error. */
  lemma PatternsNeverDangle(term: string)
    ensures !DanglingEscape(PrefixPattern(term)) && !DanglingEscape(SubstringPattern(term))
  {
    EscapingLeavesNothingDangling(term, "%");
    assert SubstringPattern(term)[1..] == PrefixPattern(term);
  }

  /** Why the escape is there: a bare `%` would find every text. */
  lemma UnescapedPercentFindsAll(s: string, fold: char -> char)
    ensures Like("%" + "%", s, fold)
    ensures Like(PrefixPattern("%"), s, fold) <==> s != [] && fold(s[0]) == fold('%')
  {
    PercentSkips("%", s, fold);
    assert s[0..] == s;
    PercentMatchesAnything(s, fold);
    PrefixSearchFindsPrefixes("%", s, fold);
    if s != [] { assert s[..1][0] == s[0]; }
  }
}
