/** PostgreSQL pattern matching as the user search relies on it
    (postgres_user_repository.go, the ILIKE group of List). */
module Ilike {

  const ANY_RUN: char := '%'
  const ANY_ONE: char := '_'
  const ESCAPE: char := '\\'

  predicate IsWildcard(c: char) {
    c == ANY_RUN || c == ANY_ONE || c == ESCAPE
  }

  predicate NoWildcards(s: string) {
    forall i | 0 <= i < |s| :: !IsWildcard(s[i])
  }

  /** Character-wise case folding, as the locale of the database does it. */
  type CaseFold = char -> char

  /** Folding leaves the three pattern characters alone and turns nothing else into one of them. */
  ghost predicate KeepsWildcards(fold: CaseFold) {
    forall c :: (IsWildcard(c) ==> fold(c) == c) && (IsWildcard(fold(c)) ==> IsWildcard(c))
  }

  function Folded(fold: CaseFold, s: string): (r: string)
    ensures |r| == |s|
    ensures forall i | 0 <= i < |s| :: r[i] == fold(s[i])
  {
    seq(|s|, i requires 0 <= i < |s| => fold(s[i]))
  }

  /** LIKE: `%` matches any run, `_` any one character, a backslash makes the next character literal. */
  predicate Like(t: string, p: string)
    decreases |t| + |p|
  {
    if p == "" then t == ""
    else if p[0] == ANY_RUN then Like(t, p[1..]) || (t != "" && Like(t[1..], p))
    else if p[0] == ANY_ONE then t != "" && Like(t[1..], p[1..])
    else if p[0] == ESCAPE then |p| > 1 && t != "" && t[0] == p[1] && Like(t[1..], p[2..])
    else t != "" && t[0] == p[0] && Like(t[1..], p[1..])
  }

  predicate ILike(fold: CaseFold, text: string, pattern: string) {
    Like(Folded(fold, text), Folded(fold, pattern))
  }

  /** `s` occurs in `t` as a contiguous block. */
  ghost predicate Contains(t: string, s: string) {
    exists i :: 0 <= i <= |t| && s <= t[i..]
  }

  /** The pattern List sends for a search string. */
  function SearchPattern(s: string): string {
    [ANY_RUN] + s + [ANY_RUN]
  }

  lemma {:induction false} PlainPrefix(t: string, s: string)
    requires NoWildcards(s)
    ensures Like(t, s + [ANY_RUN]) <==> s <= t
    decreases |s|
  {
    var p := s + [ANY_RUN];
    if s == "" {
      TrailingRun(t);
      assert p == [ANY_RUN];
    } else {
      assert p[0] == s[0] && !IsWildcard(s[0]) && p[1..] == s[1..] + [ANY_RUN];
      if t != "" && t[0] == s[0] {
        PlainPrefix(t[1..], s[1..]);
        assert s[1..] <= t[1..] <==> s <= t by {
          assert s == [s[0]] + s[1..] && t == [t[0]] + t[1..];
        }
      }
    }
  }

  lemma {:induction false} TrailingRun(t: string)
    ensures Like(t, [ANY_RUN])
    decreases |t|
  {
    if t != "" {
      TrailingRun(t[1..]);
    }
  }

  lemma {:induction false} LeadingRun(t: string, p: string)
    ensures Like(t, [ANY_RUN] + p) <==> exists i :: 0 <= i <= |t| && Like(t[i..], p)
    decreases |t|
  {
    var q := [ANY_RUN] + p;
    assert q[0] == ANY_RUN && q[1..] == p;
    assert t[0..] == t;
    if t != "" {
      LeadingRun(t[1..], p);
      if Like(t[1..], q) {
        var i :| 0 <= i <= |t[1..]| && Like(t[1..][i..], p);
        assert t[1..][i..] == t[i + 1..];
      }
      if i :| 0 < i <= |t| && Like(t[i..], p) {
        assert t[i..] == t[1..][i - 1..];
      }
    }
  }

  /** A search free of `%`, `_` and backslash is a case-insensitive substring test, for every text. */
  lemma PlainSearchIsSubstring(fold: CaseFold, text: string, s: string)
    requires KeepsWildcards(fold)
    requires NoWildcards(s)
    ensures ILike(fold, text, SearchPattern(s)) <==> Contains(Folded(fold, text), Folded(fold, s))
  {
    var t, f := Folded(fold, text), Folded(fold, s);
    assert Folded(fold, SearchPattern(s)) == [ANY_RUN] + (f + [ANY_RUN]);
    LeadingRun(t, f + [ANY_RUN]);
    assert NoWildcards(f);
    forall i | 0 <= i <= |t|
      ensures Like(t[i..], f + [ANY_RUN]) <==> f <= t[i..]
    {
      PlainPrefix(t[i..], f);
    }
  }

  // ----- the other two pattern characters -----

  /** A pattern of `_` and plain characters matches the texts of its length that agree with it off the `_`. */
  lemma {:induction false} FixedLengthPattern(t: string, p: string)
    requires ANY_RUN !in p && ESCAPE !in p
    ensures Like(t, p) <==> |t| == |p| && forall i | 0 <= i < |p| :: p[i] == ANY_ONE || p[i] == t[i]
    decreases |p|
  {
    if p != "" && t != "" {
      FixedLengthPattern(t[1..], p[1..]);
      if |t| == |p| && forall i | 0 <= i < |p| :: p[i] == ANY_ONE || p[i] == t[i] {
        assert forall i | 0 <= i < |p[1..]| :: p[1..][i] == p[i + 1] && t[1..][i] == t[i + 1];
      }
      if Like(t, p) {
        assert forall i | 0 < i < |p| :: p[i] == p[1..][i - 1] && t[i] == t[1..][i - 1];
      }
    }
  }

  /** What escaping a search string would send. */
  function Escaped(s: string): string {
    if s == "" then ""
    else (if IsWildcard(s[0]) then [ESCAPE, s[0]] else [s[0]]) + Escaped(s[1..])
  }

  lemma {:induction false} EscapedPrefix(t: string, s: string)
    ensures Like(t, Escaped(s) + [ANY_RUN]) <==> s <= t
    decreases |s|
  {
    var p := Escaped(s) + [ANY_RUN];
    if s == "" {
      TrailingRun(t);
      assert p == [ANY_RUN];
    } else {
      var tail := Escaped(s[1..]) + [ANY_RUN];
      if IsWildcard(s[0]) {
        assert p == [ESCAPE, s[0]] + tail && p[2..] == tail;
      } else {
        assert p == [s[0]] + tail && p[1..] == tail;
      }
      if t != "" && t[0] == s[0] {
        EscapedPrefix(t[1..], s[1..]);
        assert s == [s[0]] + s[1..] && t == [t[0]] + t[1..];
      }
    }
  }

  /** With its pattern characters escaped every search string would be a substring test, on every text. */
  lemma EscapedSearchIsSubstring(t: string, s: string)
    ensures Like(t, SearchPattern(Escaped(s))) <==> Contains(t, s)
  {
    assert SearchPattern(Escaped(s)) == [ANY_RUN] + (Escaped(s) + [ANY_RUN]);
    LeadingRun(t, Escaped(s) + [ANY_RUN]);
    forall i | 0 <= i <= |t|
      ensures Like(t[i..], Escaped(s) + [ANY_RUN]) <==> s <= t[i..]
    {
      EscapedPrefix(t[i..], s);
    }
  }

  /** The shortest text that the pattern `s` followed by `%` accepts, up to the choice for `_`. */
  function Stripped(s: string): (r: string)
    ensures |r| <= |s|
    decreases |s|
  {
    if s == "" then ""
    else if s[0] == ANY_RUN then Stripped(s[1..])
    else if s[0] == ANY_ONE then ['x'] + Stripped(s[1..])
    else if s[0] == ESCAPE then
      if |s| == 1 then [ANY_RUN] else [s[1]] + Stripped(s[2..])
    else [s[0]] + Stripped(s[1..])
  }

  lemma {:induction false} StrippedMatches(fold: CaseFold, s: string)
    requires KeepsWildcards(fold)
    ensures Like(Folded(fold, Stripped(s)), Folded(fold, s) + [ANY_RUN])
    decreases |s|
  {
    var t, p := Folded(fold, Stripped(s)), Folded(fold, s) + [ANY_RUN];
    if s == "" {
      TrailingRun("");
      assert t == "" && p == [ANY_RUN];
    } else if s[0] == ESCAPE && |s| > 1 {
      StrippedMatches(fold, s[2..]);
      assert p[2..] == Folded(fold, s[2..]) + [ANY_RUN];
      assert t[1..] == Folded(fold, Stripped(s[2..]));
    } else if s[0] == ESCAPE {
      assert t == [ANY_RUN] && p == [ESCAPE, ANY_RUN] && p[2..] == "" && t[1..] == "";
    } else {
      StrippedMatches(fold, s[1..]);
      assert p[1..] == Folded(fold, s[1..]) + [ANY_RUN];
      assert p[0] == fold(s[0]);
      if s[0] != ANY_RUN {
        assert t[1..] == Folded(fold, Stripped(s[1..]));
      }
    }
  }

  lemma {:induction false} StrippedDiffers(fold: CaseFold, s: string)
    requires KeepsWildcards(fold)
    requires !NoWildcards(s)
    ensures Folded(fold, Stripped(s)) != Folded(fold, s)
    decreases |s|
  {
    if s[0] == ANY_RUN {
      assert |Stripped(s)| < |s|;
    } else if s[0] == ESCAPE {
      if |s| == 1 {
        assert Folded(fold, Stripped(s))[0] == ANY_RUN && Folded(fold, s)[0] == ESCAPE;
      } else {
        assert |Stripped(s)| < |s|;
      }
    } else if s[0] == ANY_ONE {
      assert !IsWildcard('x');
      assert Folded(fold, Stripped(s))[0] == fold('x') && Folded(fold, s)[0] == ANY_ONE;
    } else {
      assert !NoWildcards(s[1..]);
      StrippedDiffers(fold, s[1..]);
      assert Folded(fold, s)[1..] == Folded(fold, s[1..]);
      assert Folded(fold, Stripped(s))[1..] == Folded(fold, Stripped(s[1..]));
    }
  }

  /** List does not escape the search string: it is a substring test on all texts exactly when the
      string has no pattern characters. For any other string some text is accepted without containing it. */
  lemma SearchIsSubstringIffPlain(fold: CaseFold, s: string)
    requires KeepsWildcards(fold)
    ensures (forall text: string ::
               ILike(fold, text, SearchPattern(s)) <==> Contains(Folded(fold, text), Folded(fold, s)))
            <==> NoWildcards(s)
  {
    if NoWildcards(s) {
      forall text: string
        ensures ILike(fold, text, SearchPattern(s)) <==> Contains(Folded(fold, text), Folded(fold, s))
      {
        PlainSearchIsSubstring(fold, text, s);
      }
    } else {
      var text := Stripped(s);
      var t, f := Folded(fold, text), Folded(fold, s);
      StrippedMatches(fold, s);
      StrippedDiffers(fold, s);
      assert Folded(fold, SearchPattern(s)) == [ANY_RUN] + (f + [ANY_RUN]);
      assert t[0..] == t;
      LeadingRun(t, f + [ANY_RUN]);
      assert ILike(fold, text, SearchPattern(s));
      assert !Contains(t, f);
    }
  }
}
