/**
 * The string operations the server relies on: ASCII case folding
 * (`str.lower`), `sep.join(xs)`, `s.split(c)` with an explicit one-character
 * separator, `repr` of a list of strings, `str` of an integer, and a
 * substring relation to talk about messages.
 */
module Text {
  import opened Wrappers

  /** `c.lower()` on the ASCII range; every other character is left alone. */
  function LowerChar(c: char): char
  {
    if 'A' <= c <= 'Z' then (c as int + 32) as char else c
  }

  /**
   * `s.lower()` on ASCII letters: no upper-case letter is left, every other
   * character is kept, and each upper-case letter becomes its lower-case
   * counterpart.
   */
  function Lower(s: string): (r: string)
    ensures |r| == |s|
    ensures forall i :: 0 <= i < |r| ==> !('A' <= r[i] <= 'Z')
    ensures forall i :: 0 <= i < |s| && !('A' <= s[i] <= 'Z') ==> r[i] == s[i]
    ensures forall i :: 0 <= i < |s| && 'A' <= s[i] <= 'Z' ==> 'a' <= r[i] <= 'z' && r[i] as int - s[i] as int == 'a' as int - 'A' as int
  {
    seq(|s|, i requires 0 <= i < |s| => LowerChar(s[i]))
  }

  /** Lower-casing twice is lower-casing once. */
  lemma LowerIdempotent(s: string)
    ensures Lower(Lower(s)) == Lower(s)
  {
    var r := Lower(s);
    assert forall i :: 0 <= i < |r| ==> Lower(r)[i] == r[i];
  }

  /** `sep.join(xs)`: the empty list joins to the empty string. */
  function Join(sep: string, xs: seq<string>): string
  {
    if |xs| == 0 then ""
    else if |xs| == 1 then xs[0]
    else xs[0] + sep + Join(sep, xs[1..])
  }

  /**
   * `s.split(c)` for a one-character separator: every occurrence of `c`
   * separates two parts, empty parts included, so there is always at least
   * one part.
   */
  function Split(s: string, c: char): (parts: seq<string>)
    ensures |parts| >= 1
  {
    if s == [] then [""]
    else
      var rest := Split(s[1..], c);
      if s[0] == c then [""] + rest else [[s[0]] + rest[0]] + rest[1..]
  }

  /** `sub` occurs somewhere in `s` as a contiguous block. */
  predicate IsInfix(sub: string, s: string)
  {
    sub <= s || (|s| > 0 && IsInfix(sub, s[1..]))
  }

  /** `repr` of a string without quotes, backslashes or unprintable characters. */
  function StrRepr(s: string): string
  {
    "'" + s + "'"
  }

  /** `str(xs)` for a list of strings: `['a', 'b']`. */
  function ListRepr(xs: seq<string>): string
  {
    "[" + Join(", ", seq(|xs|, i requires 0 <= i < |xs| => StrRepr(xs[i]))) + "]"
  }

  function DigitChar(d: int): char
    requires 0 <= d < 10
  {
    ('0' as int + d) as char
  }

  /** `str(n)` for a natural number, in decimal without leading zeros. */
  function NatToString(n: nat): (r: string)
    ensures |r| >= 1
    ensures forall i :: 0 <= i < |r| ==> '0' <= r[i] <= '9'
  {
    if n < 10 then [DigitChar(n)] else NatToString(n / 10) + [DigitChar(n % 10)]
  }

  /** Different numbers print differently. */
  lemma {:induction false} NatToStringInjective(m: nat, n: nat)
    ensures NatToString(m) == NatToString(n) ==> m == n
  {
    if m >= 10 && n >= 10 {
      var a, b := NatToString(m), NatToString(n);
      if a == b {
        assert a[..|a| - 1] == NatToString(m / 10);
        assert b[..|b| - 1] == NatToString(n / 10);
        NatToStringInjective(m / 10, n / 10);
        assert DigitChar(m % 10) == a[|a| - 1];
      }
    } else if m >= 10 {
      assert |NatToString(m)| >= 2;
    } else if n >= 10 {
      assert |NatToString(n)| >= 2;
    }
  }

  /** `str(i)` for an integer. */
  function IntToString(i: int): string
  {
    if i < 0 then "-" + NatToString(-i) else NatToString(i)
  }

  // ---------------------------------------------------------------------
  // Case folding

  lemma LowerCharCases(c: char)
    ensures LowerChar(c) == 't' <==> c == 't' || c == 'T'
    ensures LowerChar(c) == 'r' <==> c == 'r' || c == 'R'
    ensures LowerChar(c) == 'u' <==> c == 'u' || c == 'U'
    ensures LowerChar(c) == 'e' <==> c == 'e' || c == 'E'
  {
  }

  /**
   * A string lower-cases to "true" exactly when it is "true" spelled with
   * any mixture of upper- and lower-case letters.
   */
  lemma LowerIsTrue(s: string)
    ensures Lower(s) == "true" <==>
      |s| == 4 && s[0] in "tT" && s[1] in "rR" && s[2] in "uU" && s[3] in "eE"
  {
    if |s| == 4 {
      LowerCharCases(s[0]);
      LowerCharCases(s[1]);
      LowerCharCases(s[2]);
      LowerCharCases(s[3]);
      if s[0] in "tT" && s[1] in "rR" && s[2] in "uU" && s[3] in "eE" {
        assert Lower(s) == [Lower(s)[0], Lower(s)[1], Lower(s)[2], Lower(s)[3]];
      }
    }
  }

  // ---------------------------------------------------------------------
  // join and split

  lemma JoinCons(sep: string, x: string, xs: seq<string>)
    requires |xs| >= 1
    ensures Join(sep, [x] + xs) == x + sep + Join(sep, xs)
  {
    assert ([x] + xs)[1..] == xs;
  }

  /** Joining a concatenation puts one separator between the two joins. */
  lemma {:induction false} JoinAppend(sep: string, xs: seq<string>, ys: seq<string>)
    requires |xs| >= 1 && |ys| >= 1
    ensures Join(sep, xs + ys) == Join(sep, xs) + sep + Join(sep, ys)
  {
    if |xs| == 1 {
      JoinCons(sep, xs[0], ys);
      assert xs + ys == [xs[0]] + ys;
    } else {
      JoinAppend(sep, xs[1..], ys);
      assert xs + ys == [xs[0]] + (xs[1..] + ys);
      JoinCons(sep, xs[0], xs[1..] + ys);
    }
  }

  /** Splitting on `c` and joining back with `c` gives the original string. */
  lemma {:induction false} JoinSplit(s: string, c: char)
    ensures Join([c], Split(s, c)) == s
  {
    if s != [] {
      var rest := Split(s[1..], c);
      JoinSplit(s[1..], c);
      if s[0] == c {
        JoinCons([c], "", rest);
        assert s == [c] + s[1..];
      } else if |rest| == 1 {
        assert Split(s, c) == [[s[0]] + rest[0]];
        assert s == [s[0]] + s[1..];
      } else {
        assert Split(s, c) == [[s[0]] + rest[0]] + rest[1..];
        JoinCons([c], [s[0]] + rest[0], rest[1..]);
        JoinCons([c], rest[0], rest[1..]);
        assert rest == [rest[0]] + rest[1..];
        assert s == [s[0]] + s[1..];
      }
    }
  }

  /** No part of a split contains the separator. */
  lemma {:induction false} SplitPartsFree(s: string, c: char)
    ensures forall i :: 0 <= i < |Split(s, c)| ==> c !in Split(s, c)[i]
  {
    if s != [] {
      SplitPartsFree(s[1..], c);
      var rest := Split(s[1..], c);
      if s[0] != c {
        assert c !in [s[0]] + rest[0];
      }
    }
  }

  /** A split has one more part than the string has separators. */
  lemma {:induction false} SplitCount(s: string, c: char)
    ensures |Split(s, c)| == multiset(s)[c] + 1
  {
    if s != [] {
      SplitCount(s[1..], c);
      assert s == [s[0]] + s[1..];
      assert multiset(s) == multiset{s[0]} + multiset(s[1..]);
    }
  }

  /**
   * Joining parts that do not contain `c` with `c` and splitting again
   * gives back exactly those parts.
   */
  lemma {:induction false} SplitJoin(xs: seq<string>, c: char)
    requires |xs| >= 1
    requires forall i :: 0 <= i < |xs| ==> c !in xs[i]
    ensures Split(Join([c], xs), c) == xs
  {
    if |xs| == 1 {
      SplitFree(xs[0], c);
    } else {
      SplitJoin(xs[1..], c);
      JoinCons([c], xs[0], xs[1..]);
      SplitPrefix(xs[0], c, Join([c], xs[1..]));
      assert xs == [xs[0]] + xs[1..];
    }
  }

  /** A string without the separator splits into itself alone. */
  lemma {:induction false} SplitFree(s: string, c: char)
    requires c !in s
    ensures Split(s, c) == [s]
  {
    if s != [] {
      SplitFree(s[1..], c);
      assert s == [s[0]] + s[1..];
    }
  }

  /** Splitting `p + [c] + t` where `p` has no separator cuts off `p` first. */
  lemma {:induction false} SplitPrefix(p: string, c: char, t: string)
    requires c !in p
    ensures Split(p + [c] + t, c) == [p] + Split(t, c)
  {
    if p == [] {
      assert p + [c] + t == [c] + t;
      assert ([c] + t)[1..] == t;
    } else {
      var s := p + [c] + t;
      assert s[1..] == p[1..] + [c] + t;
      SplitPrefix(p[1..], c, t);
      assert [p[0]] + p[1..] == p;
    }
  }

  // ---------------------------------------------------------------------
  // Substrings

  lemma {:induction false} InfixOfSuffix(sub: string, p: string, s: string)
    requires IsInfix(sub, s)
    ensures IsInfix(sub, p + s)
  {
    if p != [] {
      InfixOfSuffix(sub, p[1..], s);
      assert (p + s)[1..] == p[1..] + s;
      assert IsInfix(sub, (p + s)[1..]);
    } else {
      assert p + s == s;
    }
  }

  lemma {:induction false} InfixOfPrefix(sub: string, s: string, q: string)
    requires IsInfix(sub, s)
    ensures IsInfix(sub, s + q)
  {
    if sub <= s {
      assert sub <= s + q;
    } else {
      InfixOfPrefix(sub, s[1..], q);
      assert (s + q)[1..] == s[1..] + q;
    }
  }

  /** `sub` occurs in any string that has it between some prefix and suffix. */
  lemma InfixOf(sub: string, p: string, q: string)
    ensures IsInfix(sub, p + sub + q)
  {
    assert sub <= sub + q;
    InfixOfSuffix(sub, p, sub + q);
    assert p + sub + q == p + (sub + q);
  }

  /** Every joined element occurs verbatim in the join. */
  lemma {:induction false} JoinContainsEach(sep: string, xs: seq<string>, i: nat)
    requires i < |xs|
    ensures IsInfix(xs[i], Join(sep, xs))
  {
    if |xs| == 1 {
      InfixOf(xs[0], "", "");
      assert "" + xs[0] + "" == xs[0];
    } else if i == 0 {
      InfixOf(xs[0], "", sep + Join(sep, xs[1..]));
      assert "" + xs[0] + (sep + Join(sep, xs[1..])) == Join(sep, xs);
    } else {
      JoinContainsEach(sep, xs[1..], i - 1);
      InfixOfSuffix(xs[i], xs[0] + sep, Join(sep, xs[1..]));
      assert xs[0] + sep + Join(sep, xs[1..]) == Join(sep, xs);
    }
  }

  /** `t` is a suffix of `s`. */
  predicate IsSuffix(t: string, s: string)
  {
    |t| <= |s| && s[|s| - |t|..] == t
  }

  /** The join of a non-empty list starts like its first element and ends like its last. */
  lemma {:induction false} JoinEnds(sep: string, xs: seq<string>)
    requires |xs| >= 1
    ensures xs[0] <= Join(sep, xs)
    ensures IsSuffix(xs[|xs| - 1], Join(sep, xs))
  {
    if |xs| > 1 {
      JoinEnds(sep, xs[1..]);
      var j := Join(sep, xs[1..]);
      var last := xs[|xs| - 1];
      assert xs[1..][|xs[1..]| - 1] == last;
      assert Join(sep, xs) == (xs[0] + sep) + j;
      assert IsSuffix(last, j);
      assert ((xs[0] + sep) + j)[|(xs[0] + sep) + j| - |last|..] == j[|j| - |last|..];
    }
  }

  /** An occurrence inside an occurrence is an occurrence. */
  lemma {:induction false} InfixTransitive(a: string, b: string, c: string)
    requires IsInfix(a, b) && IsInfix(b, c)
    ensures IsInfix(a, c)
  {
    if b <= c {
      PrefixInfix(a, b, c);
    } else {
      InfixTransitive(a, b, c[1..]);
    }
  }

  /** An occurrence in a prefix is an occurrence in the whole. */
  lemma {:induction false} PrefixInfix(a: string, b: string, c: string)
    requires IsInfix(a, b) && b <= c
    ensures IsInfix(a, c)
  {
    if !(a <= b) {
      PrefixInfix(a, b[1..], c[1..]);
    }
  }

  // ---------------------------------------------------------------------
  // Searching

  /** The position of the first `c` in `s`, if any. */
  function IndexOf(s: string, c: char): (r: Option<nat>)
    ensures r.Some? ==> r.value < |s| && s[r.value] == c && c !in s[..r.value]
    ensures r.None? ==> c !in s
  {
    if s == [] then None
    else if s[0] == c then Some(0)
    else
      var rest := IndexOf(s[1..], c);
      if rest.None? then None
      else
        assert s[..rest.value + 1] == [s[0]] + s[1..][..rest.value];
        Some(rest.value + 1)
  }

  /** The first `c` of `a + [c] + b` is the one right after `a` when `a` has none. */
  lemma IndexOfAfter(a: string, c: char, b: string)
    requires c !in a
    ensures IndexOf(a + [c] + b, c) == Some(|a|)
  {
    var s := a + [c] + b;
    assert s[|a|] == c;
    assert s[..|a|] == a;
    assert forall k :: 0 <= k < |a| ==> s[k] == a[k];
  }

  /** The parts before and after the first `c` in `s`, if there is one. */
  function SplitAt(s: string, c: char): Option<(string, string)>
  {
    match IndexOf(s, c)
    case None => None
    case Some(i) => Some((s[..i], s[i + 1..]))
  }

  /** Splitting `a + [c] + b` at its first `c` gives back `a` and `b` when `a` has none. */
  lemma SplitAtAfter(a: string, c: char, b: string)
    requires c !in a
    ensures SplitAt(a + [c] + b, c) == Some((a, b))
  {
    IndexOfAfter(a, c, b);
    assert (a + [c] + b)[..|a|] == a;
    assert (a + [c] + b)[|a| + 1..] == b;
  }
}
