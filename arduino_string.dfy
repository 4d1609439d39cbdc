/** Value semantics of the Arduino `String` operations the controller relies on:
    `indexOf`, `substring(0, n)`, `remove`, `trim`, `startsWith`, `toInt` and the
    decimal `String(int)` constructor. Positions that the library takes as
    `unsigned int` are taken here as `int` and converted explicitly: a negative
    value stands for a value beyond every string length. */
module ArduinoString {

  /** `isspace` of the C library. */
  predicate IsSpace(c: char) {
    c == ' ' || c == '\t' || c == '\n' || c == '\U{000B}' || c == '\U{000C}' || c == '\r'
  }

  predicate NoSpace(s: string) {
    forall i :: 0 <= i < |s| ==> !IsSpace(s[i])
  }

  predicate IsDigit(c: char) {
    '0' <= c <= '9'
  }

  predicate AllDigits(s: string) {
    forall i :: 0 <= i < |s| ==> IsDigit(s[i])
  }

  /** `s.indexOf(c)`: the first position of `c` in `s`, or -1 when it is absent. */
  function IndexOf(s: string, c: char): int {
    if s == [] then -1
    else if s[0] == c then 0
    else
      var k := IndexOf(s[1..], c);
      if k < 0 then -1 else k + 1
  }

  /** `indexOf` finds the first occurrence, and -1 exactly when there is none. */
  lemma {:induction false} IndexOfFirst(s: string, c: char)
    ensures var r := IndexOf(s, c);
      -1 <= r < |s| && (r == -1 <==> c !in s) && (0 <= r ==> s[r] == c && c !in s[..r])
  {
    if s != [] && s[0] != c {
      IndexOfFirst(s[1..], c);
      assert s == [s[0]] + s[1..];
      var k := IndexOf(s[1..], c);
      if 0 <= k {
        assert s[..k + 1] == [s[0]] + s[1..][..k];
      }
    }
  }

  /** The first occurrence of `c` is right after a prefix free of `c`. */
  lemma IndexOfAfter(a: string, c: char, b: string)
    requires c !in a
    ensures IndexOf(a + [c] + b, c) == |a|
  {
    var s := a + [c] + b;
    IndexOfFirst(s, c);
    assert s[|a|] == c && s[..|a|] == a;
  }

  /** `s.substring(0, right)`: `right` is unsigned, so a negative value (the -1 of
      a failed `indexOf`) lies past the end and the whole string is kept. */
  function Substring(s: string, right: int): string {
    if 0 <= right <= |s| then s[..right] else s
  }

  /** `s.remove(index, count)`; both are unsigned: a negative index removes
      nothing, a negative count removes everything from `index` on, and a zero
      count is a no-op. `s.remove(index)` is `Remove(s, index, -1)`. */
  function Remove(s: string, index: int, count: int): string {
    if index < 0 || |s| <= index || count == 0 then s
    else if count < 0 || |s| - index < count then s[..index]
    else s[..index] + s[index + count..]
  }

  function TrimStart(s: string): string {
    if s != [] && IsSpace(s[0]) then TrimStart(s[1..]) else s
  }

  function TrimEnd(s: string): string {
    if s != [] && IsSpace(s[|s| - 1]) then TrimEnd(s[..|s| - 1]) else s
  }

  /** `s.trim()`: drops the leading and the trailing white space. */
  function Trim(s: string): string {
    TrimEnd(TrimStart(s))
  }

  /** `TrimStart` drops a run of white space from the front and nothing else. */
  lemma {:induction false} TrimStartDrops(s: string)
    ensures var r := TrimStart(s);
      |r| <= |s| && r == s[|s| - |r|..] && (r == [] || !IsSpace(r[0]))
      && (forall i :: 0 <= i < |s| - |r| ==> IsSpace(s[i]))
  {
    if s != [] && IsSpace(s[0]) {
      var t := s[1..];
      TrimStartDrops(t);
      var r := TrimStart(t);
      assert TrimStart(s) == r;
      assert t[|t| - |r|..] == s[|s| - |r|..];
      forall i | 0 <= i < |s| - |r|
        ensures IsSpace(s[i])
      {
        if 0 < i {
          assert s[i] == t[i - 1];
        }
      }
    }
  }

  /** `TrimEnd` drops a run of white space from the back and nothing else. */
  lemma {:induction false} TrimEndDrops(s: string)
    ensures var r := TrimEnd(s);
      r <= s && (r == [] || !IsSpace(r[|r| - 1]))
      && (forall i :: |r| <= i < |s| ==> IsSpace(s[i]))
  {
    if s != [] && IsSpace(s[|s| - 1]) {
      TrimEndDrops(s[..|s| - 1]);
    }
  }

  /** `trim` keeps a middle part of the text, from the first character that is
      not white space, which neither starts nor ends with white space, and drops
      only white space around it. */
  lemma TrimKeepsMiddle(s: string)
    ensures var k, r := |s| - |TrimStart(s)|, Trim(s);
      0 <= k && k + |r| <= |s| && r == s[k..k + |r|]
      && (forall i :: 0 <= i < k ==> IsSpace(s[i]))
      && (forall i :: k + |r| <= i < |s| ==> IsSpace(s[i]))
      && (r == [] || (!IsSpace(r[0]) && !IsSpace(r[|r| - 1])))
  {
    var t := TrimStart(s);
    TrimStartDrops(s);
    TrimEndDrops(t);
    var r := TrimEnd(t);
    var k := |s| - |t|;
    assert r == t[..|r|];
    assert forall i :: k + |r| <= i < |s| ==> s[i] == t[i - k];
    if r != [] {
      assert r[0] == t[0];
    }
  }

  /** Text without white space is its own trim. */
  lemma {:induction false} TrimNoSpace(s: string)
    requires NoSpace(s)
    ensures Trim(s) == s
  {
    assert s == [] || !IsSpace(s[0]);
    assert s == [] || !IsSpace(s[|s| - 1]);
  }

  /** `s.startsWith(p)`. */
  predicate StartsWith(s: string, p: string) {
    |p| <= |s| && s[..|p|] == p
  }

  function DigitValue(c: char): (r: nat)
    requires IsDigit(c)
    ensures r < 10
  {
    c as int - '0' as int
  }

  function DigitChar(d: nat): (c: char)
    requires d < 10
    ensures IsDigit(c) && DigitValue(c) == d
  {
    ('0' as int + d) as char
  }

  /** The run of decimal digits at the front of `s` read as a number, after
      the digits already read, which stand for `acc`. */
  function DigitsValue(s: string, acc: nat): nat {
    if s != [] && IsDigit(s[0]) then DigitsValue(s[1..], 10 * acc + DigitValue(s[0])) else acc
  }

  /** `s.toInt()`, that is `atol`: leading white space, an optional sign, then
      the longest run of digits; no digits give 0. */
  function ToInt(s: string): int {
    var t := TrimStart(s);
    if t != [] && t[0] == '-' then -(DigitsValue(t[1..], 0) as int)
    else if t != [] && t[0] == '+' then DigitsValue(t[1..], 0)
    else DigitsValue(t, 0)
  }

  function NatToString(n: nat): string {
    if n < 10 then [DigitChar(n)] else NatToString(n / 10) + [DigitChar(n % 10)]
  }

  /** `String(n)`: decimal, with a leading `-` for a negative number. */
  function IntToString(n: int): string {
    if n < 0 then "-" + NatToString(-n) else NatToString(n)
  }

  /** The decimal text of a natural number is a non-empty run of digits. */
  lemma {:induction false} NatToStringDigits(n: nat)
    ensures NatToString(n) != [] && AllDigits(NatToString(n))
  {
    if n >= 10 {
      NatToStringDigits(n / 10);
    }
  }

  /** The decimal text of a number is not empty, and starts with `-` exactly
      when the number is negative, followed by the digits of its magnitude. */
  lemma IntToStringSign(n: int)
    ensures var r := IntToString(n);
      r != [] && (n >= 0 <==> r[0] != '-')
      && (n < 0 ==> AllDigits(r[1..])) && (n >= 0 ==> AllDigits(r))
  {
    if n < 0 {
      NatToStringDigits(-n);
      assert IntToString(n)[1..] == NatToString(-n);
    } else {
      NatToStringDigits(n);
    }
  }

  /** Reading a run of digits and then what follows it is reading what
      follows after the run's value. */
  lemma {:induction false} DigitsValueAppend(d: string, rest: string, acc: nat)
    requires AllDigits(d)
    ensures DigitsValue(d + rest, acc) == DigitsValue(rest, DigitsValue(d, acc))
    decreases |d|
  {
    if d != [] {
      assert (d + rest)[0] == d[0] && (d + rest)[1..] == d[1..] + rest;
      DigitsValueAppend(d[1..], rest, 10 * acc + DigitValue(d[0]));
    } else {
      assert d + rest == rest;
    }
  }

  /** The decimal text of `n` reads as `n`. */
  lemma {:induction false} NatToStringValue(n: nat)
    ensures DigitsValue(NatToString(n), 0) == n
  {
    var d := DigitChar(n % 10);
    if n < 10 {
      assert DigitsValue([d], 0) == DigitsValue([], n);
    } else {
      var r := NatToString(n / 10);
      NatToStringDigits(n / 10);
      NatToStringValue(n / 10);
      DigitsValueAppend(r, [d], 0);
      assert DigitsValue([d], n / 10) == DigitsValue([], 10 * (n / 10) + n % 10);
    }
  }

  /** `toInt` reads back what `String(int)` writes. */
  lemma ToIntOfIntToString(n: int)
    ensures ToInt(IntToString(n)) == n
  {
    if n < 0 {
      var d := NatToString(-n);
      var r := "-" + d;
      assert !IsSpace(r[0]) && r[1..] == d;
      NatToStringValue(-n);
    } else {
      var d := NatToString(n);
      NatToStringDigits(n);
      assert !IsSpace(d[0]) && d[0] != '-' && d[0] != '+';
      NatToStringValue(n);
    }
  }

  /** `toInt` of text without digits, sign or leading space is 0. */
  lemma ToIntWithoutDigits(s: string)
    requires s == [] || (!IsSpace(s[0]) && !IsDigit(s[0]) && s[0] != '-' && s[0] != '+')
    ensures ToInt(s) == 0
  {
  }
}
