/** The string operations of Go's `strings`, `path/filepath` and `fmt` packages that the controller uses. */
module Text {

  predicate StartsWith(s: string, prefix: string) { |prefix| <= |s| && s[..|prefix|] == prefix }

  predicate EndsWith(s: string, suffix: string) { |suffix| <= |s| && s[|s| - |suffix|..] == suffix }

  function TrimSuffix(s: string, suffix: string): string {
    if EndsWith(s, suffix) then s[..|s| - |suffix|] else s
  }

  /** strings.TrimRight with one character. */
  function TrimRight(s: string, c: char): string {
    if s != [] && s[|s| - 1] == c then TrimRight(s[..|s| - 1], c) else s
  }

  function TrimLeftSet(s: string, cutset: set<char>): string {
    if s != [] && s[0] in cutset then TrimLeftSet(s[1..], cutset) else s
  }

  function TrimRightSet(s: string, cutset: set<char>): string {
    if s != [] && s[|s| - 1] in cutset then TrimRightSet(s[..|s| - 1], cutset) else s
  }

  function LowerChar(c: char): char {
    if 'A' <= c <= 'Z' then c - 'A' + 'a' else c
  }

  /** strings.ToLower on ASCII. */
  function ToLower(s: string): string {
    seq(|s|, i requires 0 <= i < |s| => LowerChar(s[i]))
  }

  function ReplaceAll(s: string, from: string, to: string): string
    requires from != []
  {
    if s == [] then []
    else if StartsWith(s, from) then to + ReplaceAll(s[|from|..], from, to)
    else [s[0]] + ReplaceAll(s[1..], from, to)
  }

  function Join(parts: seq<string>, sep: string): string {
    if parts == [] then []
    else if |parts| == 1 then parts[0]
    else parts[0] + sep + Join(parts[1..], sep)
  }

  /** The first position from `i` on at which `sep` occurs, or |s| + 1. */
  function Find(s: string, sep: string, i: nat): (k: nat)
    requires i <= |s|
    ensures k <= |s| ==> i <= k && StartsWith(s[k..], sep)
    ensures forall j :: i <= j < k && j <= |s| ==> !StartsWith(s[j..], sep)
    decreases |s| - i
  {
    if StartsWith(s[i..], sep) then i
    else if i == |s| then |s| + 1
    else Find(s, sep, i + 1)
  }

  function Split(s: string, sep: string): (parts: seq<string>)
    requires sep != []
    ensures parts != []
    decreases |s|
  {
    var k := Find(s, sep, 0);
    if k > |s| then [s] else [s[..k]] + Split(s[k + |sep|..], sep)
  }

  function Decimal(n: nat): string {
    if n < 10 then [Digit(n)] else Decimal(n / 10) + [Digit(n % 10)]
  }

  function Digit(d: nat): char
    requires d < 10
  {
    '0' + d as char
  }

  // ------------------------------------------------------------------ laws

  // `sep` does not occur in `first + sep + rest` before the end of `first`.
  predicate OnlyAtItsPlace(first: string, sep: string, rest: string) {
    forall j :: 0 <= j < |first| ==> !StartsWith((first + sep + rest)[j..], sep)
  }

  lemma SplitOffFirst(first: string, sep: string, rest: string)
    requires sep != [] && OnlyAtItsPlace(first, sep, rest)
    ensures Split(first + sep + rest, sep) == [first] + Split(rest, sep)
  {
    var s := first + sep + rest;
    assert s[|first|..] == sep + rest;
    assert StartsWith(s[|first|..], sep);
    var k := Find(s, sep, 0);
    assert k == |first|;
    assert s[..k] == first && s[k + |sep|..] == rest;
  }

  lemma OccurrenceAt(s: string, k: nat, sep: string, i: nat)
    requires k <= |s| && StartsWith(s[k..], sep) && i < |sep|
    ensures k + i < |s| && s[k + i] == sep[i]
  {
    assert s[k..][..|sep|][i] == sep[i];
  }

  lemma SplitNothing(s: string, sep: string, i: nat)
    requires i < |sep| && sep[i] !in s
    ensures Split(s, sep) == [s]
  {
    forall k | 0 <= k <= |s| ensures !StartsWith(s[k..], sep) {
      if StartsWith(s[k..], sep) { OccurrenceAt(s, k, sep, i); }
    }
  }

  /** Splitting undoes joining, when `sep`'s second character occurs neither in a part nor first in `sep`. */
  lemma {:induction false} SplitUndoesJoin(parts: seq<string>, sep: string)
    requires parts != [] && |sep| >= 2 && sep[0] != sep[1]
    requires forall p <- parts :: sep[1] !in p
    ensures Split(Join(parts, sep), sep) == parts
    decreases |parts|
  {
    if |parts| == 1 {
      SplitNothing(parts[0], sep, 1);
    } else {
      var first, rest := parts[0], Join(parts[1..], sep);
      var s := first + sep + rest;
      forall j | 0 <= j < |first| ensures !StartsWith(s[j..], sep) {
        assert first in parts;
        assert s[j + 1] == if j + 1 < |first| then first[j + 1] else sep[0];
        assert s[j + 1] != sep[1];
        assert s[j..][1] == s[j + 1];
      }
      SplitOffFirst(first, sep, rest);
      SplitUndoesJoin(parts[1..], sep);
    }
  }

  lemma DigitsAreDistinct(a: nat, b: nat)
    requires a < 10 && b < 10 && Digit(a) == Digit(b)
    ensures a == b
  {
    assert Digit(a) as int == '0' as int + a && Digit(b) as int == '0' as int + b;
  }

  predicate IsDigit(c: char) { '0' <= c <= '9' }

  lemma {:induction false} DecimalIsDigits(n: nat)
    ensures Decimal(n) != [] && forall c <- Decimal(n) :: IsDigit(c)
  {
    if n >= 10 { DecimalIsDigits(n / 10); }
  }

  /** Printing in decimal is injective. */
  lemma {:induction false} DecimalIsInjective(m: nat, n: nat)
    requires Decimal(m) == Decimal(n)
    ensures m == n
  {
    var s, t := Decimal(m), Decimal(n);
    DecimalIsDigits(m / 10);
    DecimalIsDigits(n / 10);
    assert m >= 10 ==> s[..|s| - 1] == Decimal(m / 10) && s[|s| - 1] == Digit(m % 10);
    assert n >= 10 ==> t[..|t| - 1] == Decimal(n / 10) && t[|t| - 1] == Digit(n % 10);
    if m >= 10 && n >= 10 {
      DecimalIsInjective(m / 10, n / 10);
      DigitsAreDistinct(m % 10, n % 10);
    } else {
      DigitsAreDistinct(m % 10, n % 10);
    }
  }
}
