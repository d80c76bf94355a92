/** String helpers with the semantics of the Python `str` operations the
    analysis scripts use: `split` on one separator character, `'sep'.join`,
    the `in` substring test, slicing up to the n-th separator, `isdigit`,
    `int` of a digit string and `str` of a natural number. Only ASCII digits
    are treated as digits. */
module Text {

  import opened Wrappers

  function Min(a: int, b: int): int
  {
    if a <= b then a else b
  }

  /** Number of occurrences of `c` in `s`. */
  function Count(s: string, c: char): nat
  {
    if |s| == 0 then 0 else (if s[0] == c then 1 else 0) + Count(s[1..], c)
  }

  /** Python's `s.split(c)`: the fields between separators, never an empty list. */
  function Split(s: string, c: char): (fields: seq<string>)
    ensures |fields| == Count(s, c) + 1
    decreases |s|
  {
    if |s| == 0 then [""]
    else
      var rest := Split(s[1..], c);
      if s[0] == c then [""] + rest
      else [[s[0]] + rest[0]] + rest[1..]
  }

  /** Python's `c.join(fields)`. */
  function Join(fields: seq<string>, c: char): string
  {
    if |fields| == 0 then ""
    else if |fields| == 1 then fields[0]
    else fields[0] + [c] + Join(fields[1..], c)
  }

  /** The last field of `s.split(c)`, Python's `s.split(c)[-1]`. */
  function LastField(s: string, c: char): string
  {
    var fields := Split(s, c);
    fields[|fields| - 1]
  }

  /** Python's `s[0:n]`: slicing past the end stops at the end. */
  function Prefix(s: string, n: nat): (p: string)
    ensures |p| == Min(n, |s|) && p == s[..|p|]
  {
    if n <= |s| then s[..n] else s
  }

  /** Python's `sub in s` on strings. */
  predicate Contains(s: string, sub: string)
  {
    exists i | 0 <= i <= |s| - |sub| :: OccursAt(s, sub, i)
  }

  predicate OccursAt(s: string, sub: string, i: nat)
  {
    i + |sub| <= |s| && s[i..i + |sub|] == sub
  }

  /** The text of `s` before its `n`-th (0-based) occurrence of `c`, that is
      `s[0:[i for i, p in enumerate(s) if p == c][n]]`; None when `s` has at
      most `n` occurrences (the Python index expression raises). */
  function BeforeNth(s: string, c: char, n: nat): (r: Option<string>)
    ensures r.None? <==> Count(s, c) <= n
    ensures r.Some? ==> |r.value| < |s|
    decreases |s|
  {
    if |s| == 0 then None
    else if s[0] == c then
      if n == 0 then Some("")
      else
        match BeforeNth(s[1..], c, n - 1)
        case None => None
        case Some(p) => Some([c] + p)
    else
      match BeforeNth(s[1..], c, n)
      case None => None
      case Some(p) => Some([s[0]] + p)
  }

  predicate IsDigit(ch: char)
  {
    '0' <= ch <= '9'
  }

  /** Python's `s.isdigit()` restricted to ASCII: non-empty and all digits. */
  predicate IsDigits(s: string)
  {
    |s| > 0 && AllDigits(s)
  }

  predicate AllDigits(s: string)
  {
    forall i | 0 <= i < |s| :: IsDigit(s[i])
  }

  /** Python's `int(s)` for a string of ASCII digits. */
  function DigitsValue(s: string): nat
    requires AllDigits(s)
  {
    if |s| == 0 then 0
    else DigitsValue(s[..|s| - 1]) * 10 + (s[|s| - 1] as int - '0' as int)
  }

  function DigitChar(d: nat): (ch: char)
    requires d < 10
    ensures IsDigit(ch)
  {
    ('0' as int + d) as char
  }

  /** Python's `str(n)` for a natural number. */
  function NatToString(n: nat): string
  {
    if n < 10 then [DigitChar(n)]
    else NatToString(n / 10) + [DigitChar(n % 10)]
  }

  // ---------------------------------------------------------------------
  // Lemmas

  lemma {:induction false} SplitNoSeparator(s: string, c: char)
    requires Count(s, c) == 0
    ensures Split(s, c) == [s]
    decreases |s|
  {
    if |s| > 0 {
      CountUnfold(s, c);
      SplitNoSeparator(s[1..], c);
      SplitUnfold(s, c);
      assert [s[0]] + s[1..] == s;
    }
  }

  lemma JoinCons(x: char, fields: seq<string>, c: char)
    requires |fields| > 0
    ensures Join([[x] + fields[0]] + fields[1..], c) == [x] + Join(fields, c)
  {
    var g := [[x] + fields[0]] + fields[1..];
    if |fields| > 1 {
      assert g[1..] == fields[1..];
    }
  }

  /** Joining the fields of a split gives the string back. */
  lemma {:induction false} JoinSplit(s: string, c: char)
    ensures Join(Split(s, c), c) == s
    decreases |s|
  {
    if |s| > 0 {
      JoinSplit(s[1..], c);
      var rest := Split(s[1..], c);
      assert s == [s[0]] + s[1..];
      if s[0] == c {
        assert ([""] + rest)[1..] == rest;
      } else {
        JoinCons(s[0], rest, c);
      }
    }
  }

  lemma {:induction false} SplitAfterSeparator(a: string, b: string, c: char)
    requires Count(a, c) == 0
    ensures Split(a + [c] + b, c) == [a] + Split(b, c)
    decreases |a|
  {
    var s := a + [c] + b;
    SplitUnfold(s, c);
    if |a| == 0 {
      assert s[1..] == b;
    } else {
      CountUnfold(a, c);
      assert s[1..] == a[1..] + [c] + b;
      SplitAfterSeparator(a[1..], b, c);
      assert [a[0]] + a[1..] == a;
    }
  }

  /** Splitting a join of separator-free fields gives the fields back. */
  lemma {:induction false} SplitJoin(fields: seq<string>, c: char)
    requires |fields| > 0
    requires forall i | 0 <= i < |fields| :: Count(fields[i], c) == 0
    ensures Split(Join(fields, c), c) == fields
    decreases |fields|
  {
    if |fields| == 1 {
      SplitNoSeparator(fields[0], c);
    } else {
      SplitJoin(fields[1..], c);
      SplitAfterSeparator(fields[0], Join(fields[1..], c), c);
      assert [fields[0]] + fields[1..] == fields;
    }
  }

  /** The first `n` fields of `s.split(c)`, joined again with `c`: Python's
      `c.join(s.split(c)[0:n])`. */
  function JoinFirst(s: string, c: char, n: nat): string
  {
    var fs := Split(s, c);
    Join(fs[..Min(n, |fs|)], c)
  }

  /** `c.join(s.split(c)[0:n])` is the prefix of `s` up to (excluding) its
      n-th separator, or all of `s` when it has fewer than n separators. */
  lemma {:induction false} JoinFirstFields(s: string, c: char, n: nat)
    requires n >= 1
    ensures var j := JoinFirst(s, c, n);
            && |j| <= |s| && j == s[..|j|]
            && Count(j, c) == Min(n, Count(s, c) + 1) - 1
            && (if n <= Count(s, c) then |j| < |s| && s[|j|] == c else j == s)
    decreases |s|, 1
  {
    if |s| == 0 {
      assert Split(s, c) == [""];
      assert Split(s, c)[..1] == [""];
    } else if s[0] == c {
      JoinFirstFieldsAfterSeparator(s, c, n);
    } else {
      JoinFirstFieldsAfterOther(s, c, n);
    }
  }

  lemma {:induction false} JoinFirstFieldsAfterSeparator(s: string, c: char, n: nat)
    requires n >= 1 && |s| > 0 && s[0] == c
    ensures var j := JoinFirst(s, c, n);
            && |j| <= |s| && j == s[..|j|]
            && Count(j, c) == Min(n, Count(s, c) + 1) - 1
            && (if n <= Count(s, c) then |j| < |s| && s[|j|] == c else j == s)
    decreases |s|, 0
  {
    var fs, rest := Split(s, c), Split(s[1..], c);
    assert fs == [""] + rest;
    if n == 1 {
      assert fs[..1] == [""];
    } else {
      JoinFirstFields(s[1..], c, n - 1);
      var m := Min(n - 1, |rest|);
      var j' := Join(rest[..m], c);
      assert fs[..m + 1] == [""] + rest[..m];
      assert ([""] + rest[..m])[1..] == rest[..m];
      assert JoinFirst(s, c, n) == [c] + j';
      assert ([c] + j')[1..] == j';
      assert s == [c] + s[1..];
    }
  }

  lemma {:induction false} JoinFirstFieldsAfterOther(s: string, c: char, n: nat)
    requires n >= 1 && |s| > 0 && s[0] != c
    ensures var j := JoinFirst(s, c, n);
            && |j| <= |s| && j == s[..|j|]
            && Count(j, c) == Min(n, Count(s, c) + 1) - 1
            && (if n <= Count(s, c) then |j| < |s| && s[|j|] == c else j == s)
    decreases |s|, 0
  {
    var fs, rest := Split(s, c), Split(s[1..], c);
    var m := Min(n, |fs|);
    assert fs == [[s[0]] + rest[0]] + rest[1..];
    JoinFirstFields(s[1..], c, n);
    var j' := Join(rest[..m], c);
    assert fs[..m] == [[s[0]] + rest[..m][0]] + rest[..m][1..];
    JoinCons(s[0], rest[..m], c);
    assert JoinFirst(s, c, n) == [s[0]] + j';
    assert ([s[0]] + j')[1..] == j';
    assert s == [s[0]] + s[1..];
  }

  /** The last field of a split is everything after the last separator. */
  lemma {:induction false} LastFieldAfterLastSeparator(s: string, c: char)
    requires Count(s, c) >= 1
    ensures BeforeNth(s, c, Count(s, c) - 1).Some?
    ensures s == BeforeNth(s, c, Count(s, c) - 1).value + [c] + LastField(s, c)
    decreases |s|
  {
    CountUnfold(s, c);
    if s[0] == c && Count(s[1..], c) == 0 {
      LastFieldAfterOnlySeparator(s, c);
    } else {
      LastFieldAfterLastSeparator(s[1..], c);
      LastFieldAfterLaterSeparator(s, c);
    }
  }

  lemma LastFieldAfterOnlySeparator(s: string, c: char)
    requires |s| > 0 && s[0] == c && Count(s[1..], c) == 0
    ensures BeforeNth(s, c, 0) == Some("")
    ensures s == [c] + LastField(s, c)
  {
    LastFieldOfTailAtSeparator(s, c);
    SplitNoSeparator(s[1..], c);
    assert s == [c] + s[1..];
  }

  /** The induction step: the tail already has its last separator split off. */
  lemma LastFieldAfterLaterSeparator(s: string, c: char)
    requires |s| > 0 && Count(s[1..], c) >= 1
    requires BeforeNth(s[1..], c, Count(s[1..], c) - 1).Some?
    requires s[1..] == BeforeNth(s[1..], c, Count(s[1..], c) - 1).value + [c] + LastField(s[1..], c)
    ensures Count(s, c) >= 1
    ensures BeforeNth(s, c, Count(s, c) - 1).Some?
    ensures s == BeforeNth(s, c, Count(s, c) - 1).value + [c] + LastField(s, c)
  {
    var n' := Count(s[1..], c) - 1;
    var p', t := BeforeNth(s[1..], c, n').value, LastField(s[1..], c);
    var n := if s[0] == c then n' + 1 else n';
    CountUnfold(s, c);
    assert Count(s, c) - 1 == n;
    if s[0] == c {
      LastFieldOfTailAtSeparator(s, c);
    } else {
      LastFieldOfTailAtOther(s, c);
    }
    assert LastField(s, c) == t;
    assert (if s[0] == c then n - 1 else n) == n';
    assert BeforeNth(s[1..], c, n') == Some(p');
    PrefixBeforeNth(s, c, n, p', t);
  }

  /** Putting back the first character of a string split around a separator. */
  lemma PrefixBeforeNth(s: string, c: char, n: nat, p: string, t: string)
    requires |s| > 0 && (s[0] == c ==> n > 0)
    requires BeforeNth(s[1..], c, if s[0] == c then n - 1 else n) == Some(p)
    requires s[1..] == p + [c] + t
    ensures BeforeNth(s, c, n) == Some([s[0]] + p)
    ensures s == [s[0]] + p + [c] + t
  {
    BeforeNthOfTail(s, c, n);
    ConsConcat(s[0], p, [c] + t);
    assert s == [s[0]] + s[1..];
  }

  /** Whatever precedes the last separator, the last field is what follows it. */
  lemma {:induction false} LastFieldAfterSeparator(a: string, t: string, c: char)
    requires Count(t, c) == 0
    ensures LastField(a + [c] + t, c) == t
    decreases |a|
  {
    var s := a + [c] + t;
    if |a| == 0 {
      assert s[1..] == t;
      LastFieldOfTailAtSeparator(s, c);
      SplitNoSeparator(t, c);
    } else {
      assert s[1..] == a[1..] + [c] + t;
      LastFieldAfterSeparator(a[1..], t, c);
      if s[0] == c {
        LastFieldOfTailAtSeparator(s, c);
      } else {
        assert s[1..][|a| - 1] == c;
        CountPositive(s[1..], c, |a| - 1);
        LastFieldOfTailAtOther(s, c);
      }
    }
  }

  lemma LastFieldOfTailAtSeparator(s: string, c: char)
    requires |s| > 0 && s[0] == c
    ensures LastField(s, c) == LastField(s[1..], c)
  {
    var rest := Split(s[1..], c);
    SplitUnfold(s, c);
    LastOfConcat([""], rest);
  }

  lemma LastFieldOfTailAtOther(s: string, c: char)
    requires |s| > 0 && s[0] != c && Count(s[1..], c) >= 1
    ensures LastField(s, c) == LastField(s[1..], c)
  {
    var rest := Split(s[1..], c);
    var head, tail := [s[0]] + rest[0], rest[1..];
    SplitUnfold(s, c);
    LastOfConcat([head], tail);
    assert tail[|tail| - 1] == rest[|rest| - 1];
  }

  lemma ConsConcat<T>(x: T, a: seq<T>, b: seq<T>)
    ensures [x] + (a + b) == ([x] + a) + b
  {
  }

  lemma SplitUnfold(s: string, c: char)
    requires |s| > 0
    ensures var rest := Split(s[1..], c);
            Split(s, c) == if s[0] == c then [""] + rest else [[s[0]] + rest[0]] + rest[1..]
  {
  }

  lemma CountUnfold(s: string, c: char)
    requires |s| > 0
    ensures Count(s, c) == (if s[0] == c then 1 else 0) + Count(s[1..], c)
  {
  }

  lemma LastOfConcat<T>(a: seq<T>, b: seq<T>)
    requires |b| >= 1
    ensures (a + b)[|a + b| - 1] == b[|b| - 1]
  {
  }

  /** What `BeforeNth` finds is a prefix of `s` that stops just before a
      separator and holds exactly `n` separators. */
  lemma {:induction false} BeforeNthPrefix(s: string, c: char, n: nat)
    requires BeforeNth(s, c, n).Some?
    ensures var p := BeforeNth(s, c, n).value;
            p == s[..|p|] && s[|p|] == c && Count(p, c) == n
    decreases |s|
  {
    var p := BeforeNth(s, c, n).value;
    if s[0] == c && n == 0 {
      assert p == "";
    } else {
      var n' := if s[0] == c then n - 1 else n;
      BeforeNthPrefix(s[1..], c, n');
      var p' := BeforeNth(s[1..], c, n').value;
      assert p == [s[0]] + p';
      assert p[1..] == p';
      CountUnfold(p, c);
    }
  }

  /** The prefix before the n-th separator, found in the tail of `s`. */
  lemma BeforeNthOfTail(s: string, c: char, n: nat)
    requires |s| > 0 && (s[0] == c ==> n > 0)
    requires BeforeNth(s[1..], c, if s[0] == c then n - 1 else n).Some?
    ensures BeforeNth(s, c, n) == Some([s[0]] + BeforeNth(s[1..], c, if s[0] == c then n - 1 else n).value)
  {
  }

  lemma NoSeparatorWhenCountZero(s: string, c: char)
    requires Count(s, c) == 0
    ensures c !in s
  {
    if c in s {
      var i :| 0 <= i < |s| && s[i] == c;
      CountPositive(s, c, i);
    }
  }

  /** `c` occurs in `s` exactly when `Count` finds it. */
  lemma {:induction false} CountZeroIffAbsent(s: string, c: char)
    ensures Count(s, c) == 0 <==> c !in s
    decreases |s|
  {
    if |s| > 0 {
      CountZeroIffAbsent(s[1..], c);
      CountUnfold(s, c);
      assert s == [s[0]] + s[1..];
    }
  }

  lemma CountPositive(s: string, c: char, i: nat)
    requires i < |s| && s[i] == c
    ensures Count(s, c) >= 1
    decreases i
  {
    if i > 0 {
      CountPositive(s[1..], c, i - 1);
    }
  }

  /** `int(str(n)) == n`, and `str(n)` is a digit string. */
  lemma {:induction false} NatToStringRoundTrip(n: nat)
    ensures IsDigits(NatToString(n))
    ensures DigitsValue(NatToString(n)) == n
    decreases n
  {
    var s := NatToString(n);
    if n < 10 {
      assert s[..|s| - 1] == "";
    } else {
      NatToStringRoundTrip(n / 10);
      var p := NatToString(n / 10);
      assert s[..|s| - 1] == p;
    }
  }

  /** Whatever precedes and follows it, a string contains itself. */
  lemma ContainsInfix(a: string, b: string, d: string)
    ensures Contains(a + b + d, b)
  {
    var s := a + b + d;
    assert OccursAt(s, b, |a|);
  }
}
