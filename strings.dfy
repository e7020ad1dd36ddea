/**
 * Operations on Python `str` values, modelled as `seq<char>`: substring search
 * (`in`), first-occurrence replacement (`str.replace(target, repl, 1)`),
 * `sep.join(parts)`, `s.split(c)`, the ordering `sorted` uses, and the
 * decimal rendering of a count in an f-string, and the universal-newline
 * decoding of text-mode reads.
 */
module Strings {
  import opened Wrappers

  /** `pat` occurs in `s` at index `i`. */
  predicate OccursAt(s: string, pat: string, i: nat) {
    i + |pat| <= |s| && s[i..i + |pat|] == pat
  }

  /** Python's `pat in s`. */
  ghost predicate Contains(s: string, pat: string) {
    exists i: nat :: OccursAt(s, pat, i)
  }

  /** `k` is the leftmost index at which `pat` occurs in `s`. */
  ghost predicate FirstOccurrence(s: string, pat: string, k: nat) {
    OccursAt(s, pat, k) && forall j: nat :: j < k ==> !OccursAt(s, pat, j)
  }

  /** Leftmost occurrence of `pat` in `s` at or after `from`. */
  function FindFrom(s: string, pat: string, from: nat): (r: Option<nat>)
    requires from <= |s|
    decreases |s| - from
    ensures r.Some? ==> from <= r.value <= |s| && OccursAt(s, pat, r.value)
    ensures forall j: nat :: from <= j && (r.None? || j < r.value) ==> !OccursAt(s, pat, j)
  {
    if OccursAt(s, pat, from) then Some(from)
    else if from == |s| then None
    else FindFrom(s, pat, from + 1)
  }

  /** Leftmost occurrence of `pat` in `s`, the index `str.replace` and `in` look for. */
  function FirstMatch(s: string, pat: string): (r: Option<nat>)
    ensures r.Some? <==> Contains(s, pat)
    ensures r.Some? ==> FirstOccurrence(s, pat, r.value)
  {
    FindFrom(s, pat, 0)
  }

  /** Python's `s.replace(target, repl, 1)`. */
  function ReplaceFirst(s: string, target: string, repl: string): string {
    match FirstMatch(s, target)
    case None => s
    case Some(k) => s[..k] + repl + s[k + |target|..]
  }

  /** Without an occurrence of `target`, the replacement returns `s` itself. */
  lemma ReplaceAbsent(s: string, target: string, repl: string)
    requires !Contains(s, target)
    ensures ReplaceFirst(s, target, repl) == s
  {
  }

  /**
   * With its leftmost occurrence at `k`, the replacement keeps the text before
   * `k`, puts `repl` at `k` and keeps everything after that occurrence.
   */
  lemma ReplaceAtFirst(s: string, target: string, repl: string, k: nat)
    requires FirstOccurrence(s, target, k)
    ensures |ReplaceFirst(s, target, repl)| == |s| - |target| + |repl|
    ensures ReplaceFirst(s, target, repl)[..k] == s[..k]
    ensures ReplaceFirst(s, target, repl)[k..k + |repl|] == repl
    ensures ReplaceFirst(s, target, repl)[k + |repl|..] == s[k + |target|..]
  {
  }

  /**
   * Only the first occurrence is replaced: an occurrence of `target` that starts
   * after the first one ends is still there, shifted by `|repl| - |target|`.
   */
  lemma LaterOccurrenceKept(s: string, target: string, repl: string, k: nat, j: nat)
    requires FirstOccurrence(s, target, k)
    requires OccursAt(s, target, j) && k + |target| <= j
    ensures OccursAt(ReplaceFirst(s, target, repl), target, j - |target| + |repl|)
  {
    ReplaceAtFirst(s, target, repl, k);
    var r := ReplaceFirst(s, target, repl);
    var j' := j - |target| + |repl|;
    assert r[k + |repl|..] == s[k + |target|..];
    assert r[j'..j' + |target|] == r[k + |repl|..][j' - (k + |repl|)..j' - (k + |repl|) + |target|];
    assert s[j..j + |target|] == s[k + |target|..][j - (k + |target|)..j - (k + |target|) + |target|];
  }

  /** Python's `sep.join(parts)`. */
  function Join(parts: seq<string>, sep: string): string
    decreases |parts|
  {
    if |parts| == 0 then ""
    else if |parts| == 1 then parts[0]
    else parts[0] + sep + Join(parts[1..], sep)
  }

  /** Python's `s.split(c)` for a one-character separator. */
  function SplitOn(s: string, c: char): (r: seq<string>)
    ensures |r| >= 1
    ensures forall i :: 0 <= i < |r| ==> c !in r[i]
    decreases |s|
  {
    if s == [] then [""]
    else
      var rest := SplitOn(s[1..], c);
      if s[0] == c then [""] + rest else [[s[0]] + rest[0]] + rest[1..]
  }

  /** Splitting a text that starts with a separator-free `x` puts `x` in front of the first part. */
  lemma {:induction false} SplitAfterPlain(x: string, t: string, c: char)
    requires c !in x
    ensures SplitOn(x + t, c) == [x + SplitOn(t, c)[0]] + SplitOn(t, c)[1..]
    decreases |x|
  {
    if x != [] {
      assert (x + t)[1..] == x[1..] + t;
      SplitAfterPlain(x[1..], t, c);
      assert [x[0]] + (x[1..] + SplitOn(t, c)[0]) == x + SplitOn(t, c)[0];
    } else {
      assert x + t == t;
      assert x + SplitOn(t, c)[0] == SplitOn(t, c)[0];
      assert SplitOn(t, c) == [SplitOn(t, c)[0]] + SplitOn(t, c)[1..];
    }
  }

  /** Splitting undoes joining, when no part contains the separator. */
  lemma {:induction false} SplitJoin(parts: seq<string>, c: char)
    requires |parts| >= 1
    requires forall i :: 0 <= i < |parts| ==> c !in parts[i]
    ensures SplitOn(Join(parts, [c]), c) == parts
    decreases |parts|
  {
    if |parts| == 1 {
      SplitAfterPlain(parts[0], [], c);
      assert parts[0] + [] == parts[0];
    } else {
      var rest := Join(parts[1..], [c]);
      assert Join(parts, [c]) == parts[0] + ([c] + rest);
      SplitAfterPlain(parts[0], [c] + rest, c);
      assert ([c] + rest)[1..] == rest;
      SplitJoin(parts[1..], c);
      assert SplitOn([c] + rest, c) == [""] + parts[1..];
      assert parts[0] + "" == parts[0];
    }
  }

  /** Python's `a < b` on `str`: lexicographic by code point, a proper prefix first. */
  predicate Below(a: string, b: string)
    decreases |a|
  {
    if |a| == 0 then |b| > 0
    else |b| > 0 && (a[0] < b[0] || (a[0] == b[0] && Below(a[1..], b[1..])))
  }

  lemma {:induction false} BelowIrreflexive(a: string)
    ensures !Below(a, a)
    decreases |a|
  {
    if |a| > 0 {
      BelowIrreflexive(a[1..]);
    }
  }

  lemma {:induction false} BelowTransitive(a: string, b: string, c: string)
    requires Below(a, b) && Below(b, c)
    ensures Below(a, c)
    decreases |a|
  {
    if |a| > 0 && a[0] == b[0] && b[0] == c[0] {
      BelowTransitive(a[1..], b[1..], c[1..]);
    }
  }

  lemma {:induction false} BelowTotal(a: string, b: string)
    requires a != b
    ensures Below(a, b) || Below(b, a)
    decreases |a|
  {
    if |a| > 0 && |b| > 0 && a[0] == b[0] {
      assert a == [a[0]] + a[1..] && b == [b[0]] + b[1..];
      BelowTotal(a[1..], b[1..]);
    }
  }

  lemma BelowAsymmetric(a: string, b: string)
    requires Below(a, b)
    ensures !Below(b, a)
  {
    if Below(b, a) {
      BelowTransitive(a, b, a);
      BelowIrreflexive(a);
    }
  }

  /** `m` is the smallest of `names`. */
  predicate Least(m: string, names: set<string>) {
    m in names && forall x :: x in names && x != m ==> Below(m, x)
  }

  lemma {:induction false} LeastExists(names: set<string>)
    requires names != {}
    ensures exists m :: Least(m, names)
    decreases |names|
  {
    var x :| x in names;
    var rest := names - {x};
    if rest == {} {
      assert names == {x};
      assert Least(x, names);
    } else {
      LeastExists(rest);
      var m :| Least(m, rest);
      if Below(x, m) {
        forall y | y in names && y != x
          ensures Below(x, y)
        {
          if y != m {
            BelowTransitive(x, m, y);
          }
        }
        assert Least(x, names);
      } else {
        BelowTotal(x, m);
        assert Least(m, names);
      }
    }
  }

  lemma LeastUnique(names: set<string>, a: string, b: string)
    requires Least(a, names) && Least(b, names)
    ensures a == b
  {
    if a != b {
      BelowAsymmetric(a, b);
    }
  }

  /** Every element of `r` is below every later one. */
  predicate Ascending(r: seq<string>) {
    forall i, j :: 0 <= i < j < |r| ==> Below(r[i], r[j])
  }

  /** Python's `sorted(names)` for a set of distinct names. */
  function SortedNames(names: set<string>): (r: seq<string>)
    ensures Ascending(r)
    ensures |r| == |names|
    ensures forall x :: x in r <==> x in names
    decreases |names|
  {
    if names == {} then []
    else
      LeastExists(names);
      assert forall a, b :: Least(a, names) && Least(b, names) ==> a == b by {
        forall a, b | Least(a, names) && Least(b, names) ensures a == b {
          LeastUnique(names, a, b);
        }
      }
      var m :| Least(m, names);
      var rest := SortedNames(names - {m});
      assert forall j :: 0 <= j < |rest| ==> Below(m, rest[j]) by {
        forall j | 0 <= j < |rest| ensures Below(m, rest[j]) {
          assert rest[j] in names - {m};
        }
      }
      [m] + rest
  }

  /** The digit character for `d`. */
  function DigitChar(d: nat): char
    requires d < 10
  {
    (d + '0' as int) as char
  }

  /** The decimal text of `n`, as an f-string renders an `int`. */
  function NatToString(n: nat): (r: string)
    ensures |r| >= 1
    ensures forall i :: 0 <= i < |r| ==> '0' <= r[i] <= '9'
    ensures r[0] == '0' ==> n == 0
    decreases n
  {
    if n < 10 then [DigitChar(n)] else NatToString(n / 10) + [DigitChar(n % 10)]
  }

  /** The number a text of decimal digits denotes. */
  function DecimalValue(s: string): nat
    requires forall i :: 0 <= i < |s| ==> '0' <= s[i] <= '9'
    decreases |s|
  {
    if s == [] then 0
    else DecimalValue(s[..|s| - 1]) * 10 + (s[|s| - 1] as int - '0' as int)
  }

  /** Reading the decimal text back gives the number. */
  lemma {:induction false} DecimalRoundTrip(n: nat)
    ensures DecimalValue(NatToString(n)) == n
    decreases n
  {
    if n >= 10 {
      DecimalRoundTrip(n / 10);
      var s := NatToString(n);
      assert s[..|s| - 1] == NatToString(n / 10);
    }
  }

  /**
   * Universal-newline decoding, which `read_text` applies in text mode:
   * `"\r\n"` and a lone `"\r"` each become `"\n"`; nothing else changes.
   */
  function Universal(t: string): (r: string)
    ensures |r| <= |t|
    decreases |t|
  {
    if t == [] then []
    else if t[0] == '\r' then "\n" + Universal(if |t| > 1 && t[1] == '\n' then t[2..] else t[1..])
    else [t[0]] + Universal(t[1..])
  }

  /** Decoded text holds no carriage return. */
  lemma {:induction false} UniversalNoCr(t: string)
    ensures '\r' !in Universal(t)
    decreases |t|
  {
    if t != [] {
      if t[0] == '\r' {
        UniversalNoCr(if |t| > 1 && t[1] == '\n' then t[2..] else t[1..]);
      } else {
        UniversalNoCr(t[1..]);
      }
    }
  }

  /** Decoding gives back the text itself exactly when it holds no carriage return. */
  lemma {:induction false} UniversalIdentity(t: string)
    ensures Universal(t) == t <==> '\r' !in t
    decreases |t|
  {
    UniversalNoCr(t);
    if t != [] && t[0] != '\r' {
      UniversalIdentity(t[1..]);
      assert t == [t[0]] + t[1..];
    }
  }

  /** Decoding a decoded text changes nothing. */
  lemma UniversalIdempotent(t: string)
    ensures Universal(Universal(t)) == Universal(t)
  {
    UniversalIdentity(Universal(t));
  }

  /** A pattern holding a carriage return never occurs in decoded text. */
  lemma CrNeverFound(t: string, pat: string)
    requires '\r' in pat
    ensures !Contains(Universal(t), pat)
  {
    var u := Universal(t);
    UniversalNoCr(t);
    var j :| 0 <= j < |pat| && pat[j] == '\r';
    forall i: nat ensures !OccursAt(u, pat, i) {
      if i + |pat| <= |u| {
        assert u[i..i + |pat|][j] != pat[j];
      }
    }
  }
}
