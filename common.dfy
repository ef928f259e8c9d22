/** Option, the one wrapper the model needs for JavaScript's `null`/`undefined`. */
module Wrappers {

  datatype Option<+T> = None | Some(value: T) {
    function GetOr(default: T): T {
      match this
      case Some(v) => v
      case None => default
    }
  }
}

/**
 * The plain string operations the source calls on JavaScript strings:
 * `toLowerCase`, `includes`, `startsWith`, `split`, `trim`, `substring`,
 * and decimal printing of integers. Case mapping and whitespace are the
 * ASCII subset of JavaScript's Unicode tables.
 */
module Text {

  /** JavaScript's `\s`, restricted to ASCII. */
  predicate IsSpace(c: char) {
    c == ' ' || c == '\t' || c == '\n' || c == '\r' || c == '\U{000B}' || c == '\U{000C}'
  }

  function LowerChar(c: char): char {
    if 'A' <= c <= 'Z' then (c as int + 32) as char else c
  }

  /** `s.toLowerCase()` */
  function Lower(s: string): (r: string)
    ensures |r| == |s|
    ensures forall i :: 0 <= i < |s| ==> r[i] == LowerChar(s[i])
  {
    seq(|s|, i requires 0 <= i < |s| => LowerChar(s[i]))
  }

  lemma LowerIdempotent(s: string)
    ensures Lower(Lower(s)) == Lower(s)
  {
  }

  /** `s.startsWith(p)` */
  predicate StartsWith(s: string, p: string) {
    |p| <= |s| && s[..|p|] == p
  }

  /** `s.includes(p)` */
  predicate Contains(s: string, p: string)
    decreases |s|
  {
    StartsWith(s, p) || (|s| > 0 && Contains(s[1..], p))
  }

  /** `s.substring(0, n)` */
  function Take(s: string, n: nat): (r: string)
    ensures |r| == if |s| < n then |s| else n
    ensures r == s[..|r|]
  {
    if |s| <= n then s else s[..n]
  }

  /** Index of the first `c` in `s`, or `|s|` when there is none. */
  function IndexOf(s: string, c: char): (i: nat)
    ensures i <= |s|
    ensures i < |s| ==> s[i] == c
    ensures forall j :: 0 <= j < i ==> s[j] != c
  {
    if s == [] then 0 else if s[0] == c then 0 else 1 + IndexOf(s[1..], c)
  }

  /** Index of the first occurrence of `p` in `s`, or `|s|` when there is none. */
  function Find(s: string, p: string): (i: nat)
    ensures i <= |s|
    ensures i < |s| ==> StartsWith(s[i..], p)
    decreases |s|
  {
    if s == [] then 0 else if StartsWith(s, p) then 0 else 1 + Find(s[1..], p)
  }

  /** `c` occurs in `s` exactly when its first index is inside `s`. */
  lemma IndexOfFound(s: string, c: char)
    ensures c in s <==> IndexOf(s, c) < |s|
  {
  }

  /**
   * `s.split(sep)` for a one-character separator: never empty, the first
   * part runs up to the first separator, and there is a second part exactly
   * when there is a separator.
   */
  function Split(s: string, sep: char): (parts: seq<string>)
    ensures |parts| >= 1
    ensures parts[0] == s[..IndexOf(s, sep)]
    ensures |parts| >= 2 <==> IndexOf(s, sep) < |s|
    decreases |s|
  {
    var i := IndexOf(s, sep);
    if i == |s| then [s] else [s[..i]] + Split(s[i + 1..], sep)
  }

  /** No part holds the separator. */
  lemma {:induction false} SplitPartsFree(s: string, sep: char)
    ensures forall k :: 0 <= k < |Split(s, sep)| ==> sep !in Split(s, sep)[k]
    decreases |s|
  {
    var i := IndexOf(s, sep);
    if i < |s| {
      SplitPartsFree(s[i + 1..], sep);
      var parts := Split(s, sep);
      assert parts == [s[..i]] + Split(s[i + 1..], sep);
      assert forall k :: 1 <= k < |parts| ==> parts[k] == Split(s[i + 1..], sep)[k - 1];
    }
  }

  /** There is a second part exactly when the separator occurs. */
  lemma SplitHasSep(s: string, sep: char)
    ensures sep in s <==> |Split(s, sep)| >= 2
  {
    IndexOfFound(s, sep);
  }

  /** A string without the separator is one part. */
  lemma SplitNoSep(s: string, sep: char)
    requires sep !in s
    ensures Split(s, sep) == [s]
  {
    IndexOfFound(s, sep);
  }

  /** Splitting two strings joined by the separator splits each of them. */
  lemma {:induction false} SplitConcat(a: string, b: string, sep: char)
    ensures Split(a + [sep] + b, sep) == Split(a, sep) + Split(b, sep)
    decreases |a|
  {
    var i := IndexOf(a, sep);
    if i == |a| {
      SplitConcatFirst(a, b, sep);
    } else {
      SplitConcat(a[i + 1..], b, sep);
      SplitConcatLater(a, b, sep);
    }
  }

  /** When `a` holds no separator, the added one ends the first part. */
  lemma SplitConcatFirst(a: string, b: string, sep: char)
    requires IndexOf(a, sep) == |a|
    ensures Split(a + [sep] + b, sep) == Split(a, sep) + Split(b, sep)
  {
    SeparatorAt(a, b, sep, |a|);
    assert a[..|a|] == a;
    assert Split(a, sep) == [a];
  }

  /** When `a` holds a separator, the first part ends there and the rest of `a` carries on. */
  lemma SplitConcatLater(a: string, b: string, sep: char)
    requires IndexOf(a, sep) < |a|
    requires var rest := a[IndexOf(a, sep) + 1..];
             Split(rest + [sep] + b, sep) == Split(rest, sep) + Split(b, sep)
    ensures Split(a + [sep] + b, sep) == Split(a, sep) + Split(b, sep)
  {
    var i := IndexOf(a, sep);
    var head, rest := a[..i], a[i + 1..];
    SplitAtFirst(a, b, sep);
    SplitUnfold(a, sep);
    ConsAppend(head, Split(rest, sep), Split(b, sep));
  }

  lemma ConsAppend<T>(h: T, x: seq<T>, y: seq<T>)
    ensures [h] + (x + y) == ([h] + x) + y
  {
  }

  /** The first separator of `a` ends the first part of `a + [sep] + b` too. */
  lemma SplitAtFirst(a: string, b: string, sep: char)
    requires IndexOf(a, sep) < |a|
    ensures Split(a + [sep] + b, sep) == [a[..IndexOf(a, sep)]] + Split(a[IndexOf(a, sep) + 1..] + [sep] + b, sep)
  {
    SeparatorAt(a, b, sep, IndexOf(a, sep));
  }

  /** A string with a separator splits into the text before the first one and the splitting of the rest. */
  lemma SplitUnfold(s: string, sep: char)
    requires IndexOf(s, sep) < |s|
    ensures Split(s, sep) == [s[..IndexOf(s, sep)]] + Split(s[IndexOf(s, sep) + 1..], sep)
  {
  }

  /** The first separator of `a + [sep] + b` is the first of `a`, or else the added one; and how the text falls around it. */
  lemma SeparatorAt(a: string, b: string, sep: char, i: nat)
    requires i == IndexOf(a, sep)
    ensures IndexOf(a + [sep] + b, sep) == i
    ensures (a + [sep] + b)[..i] == a[..i]
    ensures i < |a| ==> (a + [sep] + b)[i + 1..] == a[i + 1..] + [sep] + b
    ensures i == |a| ==> (a + [sep] + b)[i + 1..] == b
  {
    var s := a + [sep] + b;
    assert s == a + ([sep] + b);
    IndexOfConcat(a, [sep] + b, sep);
  }

  /** A field without the separator, then the separator, splits off as the first part. */
  lemma SplitCons(a: string, t: string, sep: char)
    requires sep !in a
    ensures Split(a + [sep] + t, sep) == [a] + Split(t, sep)
  {
    IndexOfFound(a, sep);
    SplitConcatFirst(a, t, sep);
    assert a[..|a|] == a;
  }

  /** The first `c` of `a + t` is the first of `a`, or else the first of `t` shifted by `|a|`. */
  lemma IndexOfConcat(a: string, t: string, c: char)
    ensures IndexOf(a + t, c) == if IndexOf(a, c) < |a| then IndexOf(a, c) else |a| + IndexOf(t, c)
  {
    var s := a + t;
    var ia := IndexOf(a, c);
    assert forall j :: 0 <= j < |a| ==> s[j] == a[j];
    assert forall j :: 0 <= j < |t| ==> s[|a| + j] == t[j];
    if ia == |a| {
      var it := IndexOf(t, c);
      assert forall j :: |a| <= j < |a| + it ==> s[j] == t[j - |a|];
    }
  }

  /** A one-element list when `b` holds, otherwise the empty list: an optional `push`. */
  function Include<T>(b: bool, x: T): (r: seq<T>)
    ensures |r| == (if b then 1 else 0)
    ensures b ==> r[0] == x
  {
    if b then [x] else []
  }

  /** `parts.join(sep)` for a one-character separator. */
  function Join(parts: seq<string>, sep: char): string {
    if parts == [] then ""
    else if |parts| == 1 then parts[0]
    else parts[0] + [sep] + Join(parts[1..], sep)
  }

  /** Splitting fields joined by a separator none of them holds gives the fields back. */
  lemma {:induction false} SplitJoin(fields: seq<string>, sep: char)
    requires |fields| >= 1 && forall k :: 0 <= k < |fields| ==> sep !in fields[k]
    ensures Split(Join(fields, sep), sep) == fields
    decreases |fields|
  {
    if |fields| == 1 {
      SplitNoSep(fields[0], sep);
    } else {
      SplitJoin(fields[1..], sep);
      SplitCons(fields[0], Join(fields[1..], sep), sep);
      assert [fields[0]] + fields[1..] == fields;
    }
  }

  /** `s.split(sep)[0]` for a multi-character separator: the text before its first occurrence. */
  function Before(s: string, sep: string): (r: string)
    ensures r == s[..Find(s, sep)]
  {
    s[..Find(s, sep)]
  }

  function TrimStart(s: string): (r: string)
    ensures |r| <= |s| && r == s[|s| - |r|..]
    ensures r == [] || !IsSpace(r[0])
  {
    if s != [] && IsSpace(s[0]) then TrimStart(s[1..]) else s
  }

  function TrimEnd(s: string): (r: string)
    ensures |r| <= |s| && r == s[..|r|]
    ensures r == [] || !IsSpace(r[|r| - 1])
  {
    if s != [] && IsSpace(s[|s| - 1]) then TrimEnd(s[..|s| - 1]) else s
  }

  /** `s.trim()` */
  function Trim(s: string): (r: string)
    ensures r == [] || (!IsSpace(r[0]) && !IsSpace(r[|r| - 1]))
  {
    TrimEnd(TrimStart(s))
  }

  /** `s.trim()` is empty exactly when `s` is all whitespace. */
  lemma {:induction false} TrimEmptyIffBlank(s: string)
    ensures Trim(s) == [] <==> forall i :: 0 <= i < |s| ==> IsSpace(s[i])
  {
    if s != [] && IsSpace(s[0]) {
      TrimEmptyIffBlank(s[1..]);
      assert forall i :: 1 <= i < |s| ==> s[i] == s[1..][i - 1];
    } else if s != [] {
      var t := TrimStart(s);
      assert t == s;
      TrimEndKeepsNonBlank(s);
    }
  }

  lemma {:induction false} TrimEndKeepsNonBlank(s: string)
    requires s != [] && !IsSpace(s[0])
    ensures TrimEnd(s) != []
  {
    if IsSpace(s[|s| - 1]) {
      TrimEndKeepsNonBlank(s[..|s| - 1]);
    }
  }

  /** Number of maximal whitespace runs in `s`. */
  function SpaceRuns(s: string): (n: nat)
    ensures n <= |s|
  {
    if s == [] then 0
    else
      var k := |s| - 1;
      SpaceRuns(s[..k]) + (if IsSpace(s[k]) && (k == 0 || !IsSpace(s[k - 1])) then 1 else 0)
  }

  /** `s.split(/\s+/).length`: one piece more than there are whitespace runs. */
  function WordCount(s: string): (n: nat)
    ensures 1 <= n <= |s| + 1
  {
    1 + SpaceRuns(s)
  }

  /** A string without whitespace is one word, itself. */
  lemma {:induction false} NoSpaceIsOneWord(s: string)
    requires forall i :: 0 <= i < |s| ==> !IsSpace(s[i])
    ensures WordCount(s) == 1
    ensures SplitWhitespace(s) == [s]
  {
    if s != [] {
      var k := |s| - 1;
      assert forall i :: 0 <= i < k ==> s[..k][i] == s[i];
      NoSpaceIsOneWord(s[..k]);
      assert s == s[..k] + [s[k]];
    }
  }

  /**
   * `s.split(/\s+/)`: the pieces between whitespace runs, with an empty first
   * piece when `s` starts with whitespace and an empty last one when it ends so.
   */
  function SplitWhitespace(s: string): (parts: seq<string>)
    ensures |parts| == WordCount(s)
    ensures forall k :: 0 <= k < |parts| ==> forall i :: 0 <= i < |parts[k]| ==> !IsSpace(parts[k][i])
  {
    if s == [] then [""]
    else
      var k := |s| - 1;
      var init := SplitWhitespace(s[..k]);
      if IsSpace(s[k]) then
        if k == 0 || !IsSpace(s[k - 1]) then init + [""] else init
      else
        init[..|init| - 1] + [init[|init| - 1] + [s[k]]]
  }

  function DigitChar(d: nat): char
    requires d < 10
  {
    "0123456789"[d]
  }

  /** `String(n)` for a natural number: decimal digits, no leading zero. */
  function NatToString(n: nat): (r: string)
    ensures |r| >= 1
    ensures forall i :: 0 <= i < |r| ==> '0' <= r[i] <= '9'
  {
    if n < 10 then [DigitChar(n)] else NatToString(n / 10) + [DigitChar(n % 10)]
  }

  function Pow10(k: nat): (p: nat)
    ensures p >= 1
  {
    if k == 0 then 1 else 10 * Pow10(k - 1)
  }

  /** A number with k + 1 digits prints as exactly k + 1 characters. */
  lemma {:induction false} NatToStringLength(n: nat, k: nat)
    requires Pow10(k) <= n < Pow10(k + 1)
    ensures |NatToString(n)| == k + 1
  {
    if k > 0 {
      assert Pow10(k) == 10 * Pow10(k - 1);
      assert Pow10(k + 1) == 10 * Pow10(k);
      var q := n / 10;
      assert n == 10 * q + n % 10;
      assert Pow10(k - 1) <= q < Pow10(k);
      NatToStringLength(q, k - 1);
    }
  }

  /** `String(i)` for any integer. */
  function IntToString(i: int): string {
    if i < 0 then "-" + NatToString(-i) else NatToString(i)
  }
}
