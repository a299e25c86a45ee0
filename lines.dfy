/** Python's `file.readlines()` on a text file: the content split after every
    newline, each line keeping its terminating "\n" (the last line may lack
    one). The working-directory tools read files only through this view. */
module Lines {
  import opened Common

  /** A single line as readlines returns it: not empty, and no newline other
      than possibly a final one. */
  predicate IsLine(l: string)
  {
    l != [] && forall j :: 0 <= j < |l| - 1 ==> l[j] != '\n'
  }

  predicate Terminated(l: string)
  {
    l != [] && l[|l| - 1] == '\n'
  }

  /** A list of lines that readlines could have produced: every element is a
      line and every element but the last ends with a newline. */
  predicate WellFormed(ls: seq<string>)
  {
    && (forall i :: 0 <= i < |ls| ==> IsLine(ls[i]))
    && (forall i :: 0 <= i < |ls| - 1 ==> Terminated(ls[i]))
  }

  /** The length of the first line of a non-empty text: up to and including
      the first newline, or all of it when there is none. */
  function LineEnd(s: string): (k: nat)
    requires s != []
    ensures 1 <= k <= |s|
    ensures forall j :: 0 <= j < k - 1 ==> s[j] != '\n'
    ensures s[k - 1] == '\n' || k == |s|
  {
    if s[0] == '\n' || |s| == 1 then 1 else 1 + LineEnd(s[1..])
  }

  function ReadLines(s: string): seq<string>
    decreases |s|
  {
    if s == [] then [] else [s[..LineEnd(s)]] + ReadLines(s[LineEnd(s)..])
  }

  /** Writing back the lines that were read reproduces the file exactly. */
  lemma {:induction false} ConcatReadLines(s: string)
    ensures Concat(ReadLines(s)) == s
    decreases |s|
  {
    if s != [] {
      var k := LineEnd(s);
      ConcatReadLines(s[k..]);
      assert ReadLines(s)[1..] == ReadLines(s[k..]);
      assert s == s[..k] + s[k..];
    }
  }

  /** A line in front of a well-formed list stays well formed when it is
      terminated or the list is empty. */
  lemma ConsWellFormed(l: string, ls: seq<string>)
    requires IsLine(l) && WellFormed(ls)
    requires ls != [] ==> Terminated(l)
    ensures WellFormed([l] + ls)
  {
    var r := [l] + ls;
    forall i | 0 < i < |r| ensures r[i] == ls[i - 1] { }
  }

  /** Every list readlines returns is well formed. */
  lemma {:induction false} ReadLinesWellFormed(s: string)
    ensures WellFormed(ReadLines(s))
    decreases |s|
  {
    if s != [] {
      var k := LineEnd(s);
      var rest := ReadLines(s[k..]);
      ReadLinesWellFormed(s[k..]);
      assert rest != [] ==> k < |s|;
      ConsWellFormed(s[..k], rest);
      assert ReadLines(s) == [s[..k]] + rest;
    }
  }

  lemma {:induction false} LineEndOfPrefix(l: string, t: string)
    requires IsLine(l)
    requires Terminated(l) || t == []
    ensures LineEnd(l + t) == |l|
    decreases |l|
  {
    if |l| > 1 {
      assert (l + t)[1..] == l[1..] + t;
      LineEndOfPrefix(l[1..], t);
    }
  }

  /** Reading back the concatenation of a well-formed list of lines gives
      that list, so Concat and ReadLines are mutually inverse on well-formed
      line lists. */
  lemma {:induction false} ReadLinesConcat(ls: seq<string>)
    requires WellFormed(ls)
    ensures ReadLines(Concat(ls)) == ls
  {
    if ls != [] {
      var rest := Concat(ls[1..]);
      assert |ls| == 1 ==> rest == [];
      LineEndOfPrefix(ls[0], rest);
      var s := ls[0] + rest;
      assert s[..|ls[0]|] == ls[0];
      assert s[|ls[0]|..] == rest;
      assert WellFormed(ls[1..]) by {
        forall i | 0 <= i < |ls[1..]| ensures IsLine(ls[1..][i]) {
          assert ls[1..][i] == ls[i + 1];
        }
        forall i | 0 <= i < |ls[1..]| - 1 ensures Terminated(ls[1..][i]) {
          assert ls[1..][i] == ls[i + 1];
        }
      }
      ReadLinesConcat(ls[1..]);
    }
  }
}
