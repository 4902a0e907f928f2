/** The Python string operations the callback tokens rely on: `s.split(d)`,
    `d.join(parts)`, list slicing `parts[n:]`, `parts[-1]`, the substring
    test `t in s` and `str(i)` for integers. */
module Strings {

  /** Python's `s.split(d)` for a one-character separator: the pieces of `s`
      between occurrences of `d`, empty pieces included. There is always at
      least one piece and no piece contains `d`. */
  function Split(s: string, d: char): (r: seq<string>)
    ensures |r| >= 1
    ensures forall i :: 0 <= i < |r| ==> d !in r[i]
    decreases |s|
  {
    if |s| == 0 then [""]
    else
      var rest := Split(s[1..], d);
      if s[0] == d then [""] + rest
      else [[s[0]] + rest[0]] + rest[1..]
  }

  /** Python's `d.join(parts)`. */
  function Join(parts: seq<string>, d: char): string
    decreases |parts|
  {
    if |parts| == 0 then ""
    else if |parts| == 1 then parts[0]
    else parts[0] + [d] + Join(parts[1..], d)
  }

  /** Python's slice `parts[n:]`, which is empty when the list is too short. */
  function Drop<T>(parts: seq<T>, n: nat): (r: seq<T>)
    ensures |parts| <= n ==> r == []
    ensures |parts| > n ==> r == parts[n..]
  {
    if |parts| <= n then [] else parts[n..]
  }

  /** Python's `s.split(d)[-1]`. */
  function LastPiece(s: string, d: char): string {
    var parts := Split(s, d);
    parts[|parts| - 1]
  }

  /** Python's substring test `t in s`. */
  function Contains(s: string, t: string): (r: bool)
    ensures r <==> exists i :: 0 <= i <= |s| && t <= s[i..]
    decreases |s|
  {
    if t <= s then
      assert t <= s[0..];
      true
    else if |s| == 0 then false
    else
      var r' := Contains(s[1..], t);
      assert forall i :: 1 <= i <= |s| ==> s[i..] == s[1..][i - 1..];
      assert r' ==> exists i :: 1 <= i <= |s| && t <= s[i..];
      r'
  }

  function Digit(n: nat): (c: char)
    requires n < 10
    ensures '0' <= c <= '9'
  {
    "0123456789"[n]
  }

  /** Python's `str(n)` for a non-negative integer: its decimal digits. */
  function NatToString(n: nat): (r: string)
    ensures |r| >= 1
    ensures forall i :: 0 <= i < |r| ==> '0' <= r[i] <= '9'
    decreases n
  {
    if n < 10 then [Digit(n)] else NatToString(n / 10) + [Digit(n % 10)]
  }

  /** Python's `str(i)` for any integer. */
  function IntToString(i: int): (r: string)
    ensures '_' !in r
    ensures i < 0 <==> |r| > 0 && r[0] == '-'
  {
    if i < 0 then "-" + NatToString(-i) else NatToString(i)
  }

  /** The number a string of decimal digits denotes. */
  function DecimalValue(s: string): int
    decreases |s|
  {
    if |s| == 0 then 0
    else 10 * DecimalValue(s[..|s| - 1]) + (s[|s| - 1] as int - '0' as int)
  }

  /** A string without the separator is a single piece. */
  lemma {:induction false} SplitNoSeparator(s: string, d: char)
    requires d !in s
    ensures Split(s, d) == [s]
    decreases |s|
  {
    if |s| > 0 {
      SplitNoSeparator(s[1..], d);
      assert [s[0]] + s[1..] == s;
    }
  }

  /** Splitting `a + d + b` where `a` has no separator yields `a` followed by
      the pieces of `b`. */
  lemma {:induction false} SplitAfterPiece(a: string, b: string, d: char)
    requires d !in a
    ensures Split(a + [d] + b, d) == [a] + Split(b, d)
    decreases |a|
  {
    var s := a + [d] + b;
    if |a| == 0 {
      assert s[0] == d && s[1..] == b;
    } else {
      assert s[0] == a[0];
      assert s[1..] == a[1..] + [d] + b;
      SplitAfterPiece(a[1..], b, d);
      assert [a[0]] + a[1..] == a;
    }
  }

  /** A string that contains the separator splits into at least two pieces. */
  lemma {:induction false} SplitAtSeparator(s: string, d: char)
    requires d in s
    ensures |Split(s, d)| >= 2
    decreases |s|
  {
    if s[0] != d {
      SplitAtSeparator(s[1..], d);
    }
  }

  /** Joining the pieces of a split gives back the string. */
  lemma {:induction false} JoinSplit(s: string, d: char)
    ensures Join(Split(s, d), d) == s
    decreases |s|
  {
    if |s| > 0 {
      var rest := Split(s[1..], d);
      JoinSplit(s[1..], d);
      if s[0] == d {
        assert Split(s, d) == [""] + rest;
        assert ([""] + rest)[1..] == rest;
      } else {
        var parts := [[s[0]] + rest[0]] + rest[1..];
        assert Split(s, d) == parts;
        if |rest| == 1 {
          assert Join(parts, d) == [s[0]] + rest[0];
        } else {
          assert parts[1..] == rest[1..];
          assert Join(rest, d) == rest[0] + [d] + Join(rest[1..], d);
          assert Join(parts, d) == [s[0]] + (rest[0] + [d] + Join(rest[1..], d));
        }
        assert [s[0]] + s[1..] == s;
      }
    }
  }

  /** Splitting a join of separator-free pieces gives back the pieces. */
  lemma {:induction false} SplitJoin(parts: seq<string>, d: char)
    requires |parts| >= 1
    requires forall i :: 0 <= i < |parts| ==> d !in parts[i]
    ensures Split(Join(parts, d), d) == parts
    decreases |parts|
  {
    if |parts| == 1 {
      SplitNoSeparator(parts[0], d);
    } else {
      SplitJoin(parts[1..], d);
      SplitAfterPiece(parts[0], Join(parts[1..], d), d);
      assert [parts[0]] + parts[1..] == parts;
    }
  }

  /** `s.split(d)[-1]` is the suffix of `s` after its last `d`: it is a
      suffix of `s`, holds no `d`, and is preceded by a `d` unless it is all
      of `s`. In particular it is `s` itself exactly when `s` holds no `d`. */
  lemma {:induction false} LastPieceIsSuffix(s: string, d: char)
    ensures var r := LastPiece(s, d);
      && |r| <= |s| && s[|s| - |r|..] == r
      && d !in r
      && (|r| < |s| ==> s[|s| - |r| - 1] == d)
    ensures LastPiece(s, d) == s <==> d !in s
    decreases |s|
  {
    var r := LastPiece(s, d);
    if |s| == 0 {
    } else {
      var rest := Split(s[1..], d);
      LastPieceIsSuffix(s[1..], d);
      if s[0] == d {
        assert Split(s, d) == [""] + rest;
        assert r == rest[|rest| - 1];
      } else if |rest| == 1 {
        JoinSplit(s[1..], d);
        assert rest[0] == s[1..];
        assert Split(s, d) == [[s[0]] + s[1..]];
        assert [s[0]] + s[1..] == s;
        assert r == s;
      } else {
        assert r == rest[|rest| - 1];
      }
    }
    if d !in s {
      SplitNoSeparator(s, d);
    }
  }
}
