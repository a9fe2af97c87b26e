/** The handful of JavaScript string operations the core relies on:
    `indexOf(t) !== -1`, prefix tests, `split` on a one-character
    separator, and ASCII upper-casing. */
module Strings {

  predicate StartsWith(s: string, prefix: string) {
    |prefix| <= |s| && s[..|prefix|] == prefix
  }

  /** `t` occurs in `s` at index `i`. */
  predicate OccursAt(s: string, t: string, i: int) {
    0 <= i <= |s| - |t| && s[i..i + |t|] == t
  }

  /** `s.indexOf(t) !== -1` */
  predicate Contains(s: string, t: string) {
    exists i | 0 <= i <= |s| - |t| :: OccursAt(s, t, i)
  }

  /** `c` as `toUpperCase` maps it for the ASCII letters; other characters unchanged. */
  function UpperChar(c: char): char {
    if 'a' <= c <= 'z' then (c as int - 32) as char else c
  }

  function ToUpper(s: string): (r: string)
    ensures |r| == |s|
    ensures forall i :: 0 <= i < |s| ==> r[i] == UpperChar(s[i])
  {
    if s == [] then [] else [UpperChar(s[0])] + ToUpper(s[1..])
  }

  /** `s.split(d)` for a one-character separator `d`: the pieces between
      occurrences of `d`; an empty string gives one empty piece. */
  function Split(s: string, d: char): (parts: seq<string>)
    ensures |parts| >= 1
  {
    if s == [] then [[]]
    else if s[0] == d then [[]] + Split(s[1..], d)
    else var rest := Split(s[1..], d); [[s[0]] + rest[0]] + rest[1..]
  }

  /** `parts.join(d)` */
  function Join(parts: seq<string>, d: char): string
    requires |parts| >= 1
  {
    if |parts| == 1 then parts[0] else parts[0] + [d] + Join(parts[1..], d)
  }

  /** Splitting loses nothing: joining the pieces back gives the string,
      and no piece holds the separator. */
  lemma SplitJoin(s: string, d: char)
    ensures Join(Split(s, d), d) == s
    ensures forall p :: p in Split(s, d) ==> d !in p
  {
    JoinSplit(s, d);
    SplitPiecesClean(s, d);
  }

  lemma {:induction false} JoinSplit(s: string, d: char)
    ensures Join(Split(s, d), d) == s
  {
    if s == [] {
    } else if s[0] == d {
      JoinSplit(s[1..], d);
      assert Split(s, d)[1..] == Split(s[1..], d);
      assert s == [d] + s[1..];
    } else {
      JoinSplit(s[1..], d);
      var rest := Split(s[1..], d);
      var parts := Split(s, d);
      assert parts[0] == [s[0]] + rest[0];
      assert parts[1..] == rest[1..];
      assert s == [s[0]] + s[1..];
      if |rest| > 1 {
        assert Join(rest, d) == rest[0] + [d] + Join(rest[1..], d);
      }
    }
  }

  lemma {:induction false} SplitPiecesClean(s: string, d: char)
    ensures forall p :: p in Split(s, d) ==> d !in p
  {
    if s == [] {
    } else if s[0] == d {
      SplitPiecesClean(s[1..], d);
      assert Split(s, d)[1..] == Split(s[1..], d);
    } else {
      SplitPiecesClean(s[1..], d);
      var rest := Split(s[1..], d);
      var parts := Split(s, d);
      assert parts[0] == [s[0]] + rest[0];
      assert parts[1..] == rest[1..];
      forall p | p in parts ensures d !in p {
        if p == parts[0] {
          assert rest[0] in rest;
        } else {
          assert p in rest[1..];
        }
      }
    }
  }

  /** The first piece ends at the first separator. */
  lemma {:induction false} SplitAtSeparator(a: string, b: string, d: char)
    requires d !in a
    ensures Split(a + [d] + b, d) == [a] + Split(b, d)
  {
    if a == [] {
      assert a + [d] + b == [d] + b;
    } else {
      var s := a + [d] + b;
      SplitAtSeparator(a[1..], b, d);
      assert s[0] == a[0] && s[1..] == a[1..] + [d] + b;
      var rest := Split(s[1..], d);
      assert rest[0] == a[1..] && rest[1..] == Split(b, d);
      assert [s[0]] + rest[0] == a;
    }
  }

  /** Decimal digits of `n`, as `String(n)` writes an array index. */
  function NatToString(n: nat): (r: string)
    ensures |r| >= 1
    ensures forall i :: 0 <= i < |r| ==> '0' <= r[i] <= '9'
    decreases n
  {
    if n < 10 then [Digit(n)] else NatToString(n / 10) + [Digit(n % 10)]
  }

  function Digit(d: nat): (c: char)
    requires d < 10
    ensures '0' <= c <= '9'
  {
    "0123456789"[d]
  }
}
