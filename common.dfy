/** Small value-level building blocks shared by the rest of the model:
    an Option type, Python's decimal rendering of integers (`str(n)`),
    `str.join`, and the subsequence relation used to state "keeps the
    relative order" properties. */
module Common {

  datatype Option<+T> = None | Some(value: T)

  /** The character of one decimal digit. */
  function DigitChar(d: nat): (c: char)
    requires d < 10
    ensures '0' <= c <= '9'
  {
    ['0', '1', '2', '3', '4', '5', '6', '7', '8', '9'][d]
  }

  /** The value of a character produced by DigitChar. */
  function DigitValue(c: char): nat
  {
    if '0' <= c <= '9' then (c as int - '0' as int) else 0
  }

  /** Python's `str(n)` for a non-negative integer: decimal, no leading zeros. */
  function NatToString(n: nat): (s: string)
    ensures |s| >= 1
    ensures forall j :: 0 <= j < |s| ==> '0' <= s[j] <= '9'
    ensures |s| > 1 ==> s[0] != '0'
  {
    if n < 10 then [DigitChar(n)] else NatToString(n / 10) + [DigitChar(n % 10)]
  }

  /** Reading a string of decimal digits back as a number. */
  function DecimalValue(s: string): nat
  {
    if s == [] then 0 else 10 * DecimalValue(s[..|s| - 1]) + DigitValue(s[|s| - 1])
  }

  /** Python's `str(i)` for any integer: a minus sign before the magnitude. */
  function IntToString(i: int): (s: string)
    ensures i < 0 <==> (|s| > 0 && s[0] == '-')
    ensures forall j :: 0 <= j < |s| ==> s[j] != '\n'
  {
    if i < 0 then "-" + NatToString(-i) else NatToString(i)
  }

  /** Rendering a natural number in decimal and reading it back gives the number. */
  lemma {:induction false} DecimalRoundTrip(n: nat)
    ensures DecimalValue(NatToString(n)) == n
  {
    var s := NatToString(n);
    if n < 10 {
      DigitRoundTrip(n);
    } else {
      var q, d := n / 10, n % 10;
      DecimalRoundTrip(q);
      DigitRoundTrip(d);
      assert s == NatToString(q) + [DigitChar(d)];
      assert s[..|s| - 1] == NatToString(q);
      assert DecimalValue(s) == 10 * q + d;
    }
  }

  lemma DigitRoundTrip(d: nat)
    requires d < 10
    ensures DigitValue(DigitChar(d)) == d
  {
  }

  /** Distinct numbers render as distinct strings, so the numbering of an
      outline is unambiguous. */
  lemma NatToStringInjective(m: nat, n: nat)
    requires NatToString(m) == NatToString(n)
    ensures m == n
  {
    DecimalRoundTrip(m);
    DecimalRoundTrip(n);
  }

  /** Python's `sep.join(parts)`. */
  function Join(sep: string, parts: seq<string>): string
  {
    if parts == [] then ""
    else if |parts| == 1 then parts[0]
    else parts[0] + sep + Join(sep, parts[1..])
  }

  /** Python's `"".join(parts)`. */
  function Concat(parts: seq<string>): string
  {
    if parts == [] then "" else parts[0] + Concat(parts[1..])
  }

  /** The length of a joined string: every part plus one separator between
      neighbouring parts. */
  lemma {:induction false} JoinLength(sep: string, parts: seq<string>)
    ensures |Join(sep, parts)| == TotalLength(parts) + (if parts == [] then 0 else (|parts| - 1) * |sep|)
  {
    if |parts| > 1 {
      JoinLength(sep, parts[1..]);
    }
  }

  function TotalLength(parts: seq<string>): nat
  {
    if parts == [] then 0 else |parts[0]| + TotalLength(parts[1..])
  }

  lemma {:induction false} ConcatAppend(parts: seq<string>, last: string)
    ensures Concat(parts + [last]) == Concat(parts) + last
  {
    if parts == [] {
      assert parts + [last] == [last];
    } else {
      assert (parts + [last])[1..] == parts[1..] + [last];
      ConcatAppend(parts[1..], last);
    }
  }

  /** `a` is obtained from `b` by deleting elements: `b` contains the
      elements of `a` in the same relative order. */
  predicate IsSubsequence<T(==)>(a: seq<T>, b: seq<T>)
    decreases |b|
  {
    if a == [] then true
    else if b == [] then false
    else (a[0] == b[0] && IsSubsequence(a[1..], b[1..])) || IsSubsequence(a, b[1..])
  }

  lemma {:induction false} SubsequenceReflexive<T>(a: seq<T>)
    ensures IsSubsequence(a, a)
  {
    if a != [] {
      SubsequenceReflexive(a[1..]);
    }
  }

  /** A subsequence is no longer than the sequence it comes from, and each of
      its elements occurs there. */
  lemma {:induction false} SubsequenceBounds<T>(a: seq<T>, b: seq<T>)
    requires IsSubsequence(a, b)
    ensures |a| <= |b|
    ensures forall x :: x in a ==> x in b
  {
    if a != [] {
      if a[0] == b[0] && IsSubsequence(a[1..], b[1..]) {
        SubsequenceBounds(a[1..], b[1..]);
        assert forall x :: x in a ==> x == a[0] || x in a[1..];
      } else {
        SubsequenceBounds(a, b[1..]);
      }
    }
  }

  /** Inserting one element anywhere into `b` keeps every subsequence of `b`
      a subsequence. */
  lemma {:induction false} SubsequenceInsert<T>(a: seq<T>, b: seq<T>, i: nat, x: T)
    requires IsSubsequence(a, b)
    requires i <= |b|
    ensures IsSubsequence(a, b[..i] + [x] + b[i..])
  {
    var c := b[..i] + [x] + b[i..];
    if a == [] {
    } else if i == 0 {
      assert c[1..] == b;
    } else {
      assert c[0] == b[0];
      assert c[1..] == b[1..][..i - 1] + [x] + b[1..][i - 1..];
      if a[0] == b[0] && IsSubsequence(a[1..], b[1..]) {
        SubsequenceInsert(a[1..], b[1..], i - 1, x);
      } else {
        SubsequenceInsert(a, b[1..], i - 1, x);
      }
    }
  }
}
