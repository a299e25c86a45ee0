/** The document tools of the writing team and the input guards of the two
    external tools. The temporary working directory is a map from file name
    to file content that the tools overwrite in place; every read goes
    through the readlines view of module Lines. */
module Tools {
  import opened Common
  import opened Lines
  import opened Conversation
  import opened OrderedKeys

  const NoUrls := "Error: No URLs provided for scraping"
  const NoPoints := "Error: No points provided for outline creation"
  const NoFileName := "Error: No file name provided"
  const NoCode := "Error: No Python code provided"

  function FileNotFound(fileName: string): string
  {
    "Error: File '" + fileName + "' not found"
  }

  function LineOutOfRange(n: int): string
  {
    "Error: Line number " + IntToString(n) + " is out of range."
  }

  // ---------------------------------------------------------------------
  // Guards of the external tools

  /** The title a scraped page is shown under. */
  function Title(d: Document): string
  {
    if "title" in d.metadata then d.metadata["title"] else "Untitled"
  }

  function WrapPage(d: Document): (s: string)
    ensures |s| > 0 && s[0] == '<'
  {
    "<Document name=\"" + Title(d) + "\">\n" + d.pageContent + "\n</Document>"
  }

  function WrappedPages(docs: seq<Document>): (pages: seq<string>)
    ensures |pages| == |docs|
    ensures forall i :: 0 <= i < |docs| ==> pages[i] == WrapPage(docs[i])
  {
    seq(|docs|, i requires 0 <= i < |docs| => WrapPage(docs[i]))
  }

  /** scrape_webpages. The page loader is the external call; it is reached
      only for a non-empty URL list. The reply is the error text exactly
      when no URL is given, since a page list renders as empty or starting
      with a tag. */
  function ScrapeWebpages(urls: seq<string>, load: seq<string> -> seq<Document>): (reply: string)
    ensures reply == NoUrls <==> urls == []
    ensures urls != [] ==> reply == Join("\n\n", WrappedPages(load(urls)))
  {
    if urls == [] then NoUrls
    else
      var pages := WrappedPages(load(urls));
      assert pages != [] ==> Join("\n\n", pages)[0] == '<' by {
        if pages != [] { JoinStart(pages); }
      }
      Join("\n\n", pages)
  }

  lemma {:induction false} JoinStart(pages: seq<string>)
    requires forall i :: 0 <= i < |pages| ==> |pages[i]| > 0 && pages[i][0] == '<'
    requires pages != []
    ensures |Join("\n\n", pages)| > 0 && Join("\n\n", pages)[0] == '<'
  {
  }

  /** The characters Python's str.isspace accepts. */
  predicate IsPythonSpace(c: char)
  {
    || '\U{9}' <= c <= '\U{D}'
    || '\U{1C}' <= c <= ' '
    || c == '\U{85}' || c == '\U{A0}' || c == '\U{1680}'
    || '\U{2000}' <= c <= '\U{200A}'
    || c == '\U{2028}' || c == '\U{2029}' || c == '\U{202F}' || c == '\U{205F}' || c == '\U{3000}'
  }

  /** `not code.strip()`: the code is empty or only whitespace. */
  predicate IsBlank(code: string)
  {
    forall i :: 0 <= i < |code| ==> IsPythonSpace(code[i])
  }

  /** python_repl_tool. The interpreter is the external call; blank code is
      refused before it is reached, and the reply is the error text exactly
      then. */
  function PythonReplTool(code: string, run: string -> string): (reply: string)
    ensures reply == NoCode <==> IsBlank(code)
    ensures !IsBlank(code) ==> reply == "Successfully executed:\nStdout: " + run(code)
  {
    if IsBlank(code) then NoCode
    else
      var r := "Successfully executed:\nStdout: " + run(code);
      assert r[0] != NoCode[0];
      r
  }

  // ---------------------------------------------------------------------
  // read_document

  /** Python's `max(0, min(start, n))`. */
  function Clamp(start: int, n: nat): (k: nat)
    ensures k <= n
    ensures 0 <= start <= n ==> k == start
    ensures start < 0 ==> k == 0
    ensures start > n ==> k == n
  {
    if start < 0 then 0 else if start > n then n else start
  }

  /** Python's bound for a slice end: a negative end counts from the end of
      the list, and the result is clamped to 0 .. n. */
  function SliceEnd(end: Option<int>, n: nat): (k: nat)
    ensures k <= n
    ensures end.None? ==> k == n
    ensures end.Some? && 0 <= end.value <= n ==> k == end.value
    ensures end.Some? && end.value > n ==> k == n
    ensures end.Some? && end.value < 0 && 0 <= n + end.value ==> k == n + end.value
    ensures end.Some? && n + end.value < 0 ==> k == 0
  {
    if end.None? then n
    else if end.value < 0 then (if n + end.value < 0 then 0 else n + end.value)
    else if end.value < n then end.value
    else n
  }

  /** `lines[start_idx:end]` for the clamped start and an optional end
      (None meaning the end of the file). */
  function Slice(lines: seq<string>, start: Option<int>, end: Option<int>): (r: seq<string>)
    ensures start.None? && end.None? ==> r == lines
  {
    var lo := Clamp(if start.Some? then start.value else 0, |lines|);
    var hi := SliceEnd(end, |lines|);
    if hi <= lo then [] else lines[lo..hi]
  }

  /** Slice returns one contiguous run of the file's lines; in range it is the
      requested run, an omitted end means the end of the file, an omitted or
      negative start means the first line, a negative end counts from the
      end of the file, and an end before the start gives nothing. */
  lemma SliceProperties(lines: seq<string>, start: Option<int>, end: Option<int>)
    ensures exists lo, hi :: 0 <= lo <= hi <= |lines| && Slice(lines, start, end) == lines[lo..hi]
    ensures start.Some? && end.Some? && 0 <= start.value <= end.value <= |lines| ==>
      Slice(lines, start, end) == lines[start.value..end.value]
    ensures start.Some? && end.None? && 0 <= start.value <= |lines| ==>
      Slice(lines, start, end) == lines[start.value..]
    ensures start.None? && end.None? ==> Slice(lines, start, end) == lines
    ensures start.Some? && start.value < 0 ==> Slice(lines, start, end) == Slice(lines, None, end)
    ensures end.Some? && end.value < 0 && 0 <= |lines| + end.value ==>
      Slice(lines, start, end) == Slice(lines, start, Some(|lines| + end.value))
    ensures start.Some? && end.Some? && 0 <= end.value <= start.value ==> Slice(lines, start, end) == []
  {
    var lo := Clamp(if start.Some? then start.value else 0, |lines|);
    var hi := SliceEnd(end, |lines|);
    if hi <= lo {
      assert Slice(lines, start, end) == lines[lo..lo];
    } else {
      assert Slice(lines, start, end) == lines[lo..hi];
    }
  }

  // ---------------------------------------------------------------------
  // create_outline

  /** The line `"{i}. {point}\n"` of an outline. */
  function OutlineLine(i: nat, point: string): string
  {
    NatToString(i) + ". " + point + "\n"
  }

  /** The lines of an outline of the given points, numbered from 1. */
  function NumberedLines(points: seq<string>): (ls: seq<string>)
    ensures |ls| == |points|
    ensures forall i :: 0 <= i < |points| ==> ls[i] == OutlineLine(i + 1, points[i])
  {
    seq(|points|, i requires 0 <= i < |points| => OutlineLine(i + 1, points[i]))
  }

  /** The content create_outline writes. */
  function Outline(points: seq<string>): string
  {
    Concat(NumberedLines(points))
  }

  lemma OutlineExtend(points: seq<string>, i: nat)
    requires i < |points|
    ensures Outline(points[..i + 1]) == Outline(points[..i]) + OutlineLine(i + 1, points[i])
  {
    assert NumberedLines(points[..i + 1]) == NumberedLines(points[..i]) + [OutlineLine(i + 1, points[i])];
    ConcatAppend(NumberedLines(points[..i]), OutlineLine(i + 1, points[i]));
  }

  /** Read back, an outline of single-line points has one line per point,
      the i-th being "i. point" with its newline. */
  lemma OutlineReadsBack(points: seq<string>)
    requires forall i, j :: 0 <= i < |points| && 0 <= j < |points[i]| ==> points[i][j] != '\n'
    ensures ReadLines(Outline(points)) == NumberedLines(points)
    ensures |ReadLines(Outline(points))| == |points|
  {
    var ls := NumberedLines(points);
    forall i | 0 <= i < |ls| ensures IsLine(ls[i]) && Terminated(ls[i]) {
      var digits := NatToString(i + 1);
      assert ls[i] == digits + ". " + points[i] + "\n";
      forall j | 0 <= j < |ls[i]| - 1 ensures ls[i][j] != '\n' {
        if j < |digits| {
          assert ls[i][j] == digits[j];
        } else if j >= |digits| + 2 {
          assert ls[i][j] == points[i][j - |digits| - 2];
        }
      }
    }
    ReadLinesConcat(ls);
  }

  // ---------------------------------------------------------------------
  // edit_document

  datatype InsertResult = Inserted(lines: seq<string>) | OutOfRange(line: int)

  /** The loop of edit_document over the sorted inserts: each one puts its
      text, with a newline, before the line with its 1-based number in the
      list as it has grown so far, or stops at the first number outside
      1 .. current length + 1. */
  function ApplyInserts(lines: seq<string>, items: seq<(int, string)>): InsertResult
    decreases |items|
  {
    if items == [] then Inserted(lines)
    else
      var n := items[0].0;
      if 1 <= n <= |lines| + 1 then
        ApplyInserts(lines[..n - 1] + [items[0].1 + "\n"] + lines[n - 1..], items[1..])
      else OutOfRange(n)
  }

  /** The inserts all fit exactly when the j-th (0-based) line number lies in
      1 .. original length + j + 1. */
  predicate AllInRange(count: nat, items: seq<(int, string)>)
  {
    forall j :: 0 <= j < |items| ==> 1 <= items[j].0 <= count + j + 1
  }

  lemma {:induction false} ApplyInsertsSucceedsIff(lines: seq<string>, items: seq<(int, string)>)
    ensures ApplyInserts(lines, items).Inserted? <==> AllInRange(|lines|, items)
    decreases |items|
  {
    if items != [] {
      var n := items[0].0;
      if 1 <= n <= |lines| + 1 {
        var next := lines[..n - 1] + [items[0].1 + "\n"] + lines[n - 1..];
        ApplyInsertsSucceedsIff(next, items[1..]);
        assert AllInRange(|lines|, items) <==> AllInRange(|next|, items[1..]) by {
          assert forall j :: 0 < j < |items| ==> items[j] == items[1..][j - 1];
        }
      }
    }
  }

  /** On failure the reported number is the first insert out of range, all
      earlier ones having fitted. */
  lemma {:induction false} ApplyInsertsFailsAtFirst(lines: seq<string>, items: seq<(int, string)>)
    requires ApplyInserts(lines, items).OutOfRange?
    ensures exists j :: 0 <= j < |items| &&
              items[j].0 == ApplyInserts(lines, items).line &&
              !(1 <= items[j].0 <= |lines| + j + 1) &&
              AllInRange(|lines|, items[..j])
    decreases |items|
  {
    var n := items[0].0;
    if 1 <= n <= |lines| + 1 {
      var next := lines[..n - 1] + [items[0].1 + "\n"] + lines[n - 1..];
      ApplyInsertsFailsAtFirst(next, items[1..]);
      var j :| 0 <= j < |items[1..]| &&
               items[1..][j].0 == ApplyInserts(next, items[1..]).line &&
               !(1 <= items[1..][j].0 <= |next| + j + 1) &&
               AllInRange(|next|, items[1..][..j]);
      assert items[j + 1] == items[1..][j];
      var upTo := items[..j + 1];
      forall i | 0 <= i < |upTo| ensures 1 <= upTo[i].0 <= |lines| + i + 1 {
        if i > 0 {
          assert upTo[i] == items[1..][..j][i - 1];
        }
      }
    } else {
      assert items[..0] == [];
    }
  }

  /** A successful edit adds exactly one line per insert, and the file's
      original lines stay in the result in their original order. */
  lemma {:induction false} ApplyInsertsKeepsLines(lines: seq<string>, items: seq<(int, string)>, orig: seq<string>)
    requires ApplyInserts(lines, items).Inserted?
    requires IsSubsequence(orig, lines)
    ensures |ApplyInserts(lines, items).lines| == |lines| + |items|
    ensures IsSubsequence(orig, ApplyInserts(lines, items).lines)
    decreases |items|
  {
    if items != [] {
      var n := items[0].0;
      var next := lines[..n - 1] + [items[0].1 + "\n"] + lines[n - 1..];
      SubsequenceInsert(orig, lines, n - 1, items[0].1 + "\n");
      ApplyInsertsKeepsLines(next, items[1..], orig);
    }
  }

  predicate Increasing(items: seq<(int, string)>)
  {
    forall i, j :: 0 <= i < j < |items| ==> items[i].0 < items[j].0
  }

  /** Inserts at line numbers beyond p + 1 leave the first p + 1 lines alone. */
  lemma {:induction false} ApplyInsertsKeepsPrefix(lines: seq<string>, items: seq<(int, string)>, p: nat)
    requires ApplyInserts(lines, items).Inserted?
    requires p < |lines|
    requires forall j :: 0 <= j < |items| ==> items[j].0 > p + 1
    ensures p < |ApplyInserts(lines, items).lines|
    ensures ApplyInserts(lines, items).lines[p] == lines[p]
    decreases |items|
  {
    if items != [] {
      var n := items[0].0;
      var next := lines[..n - 1] + [items[0].1 + "\n"] + lines[n - 1..];
      assert next[p] == lines[p];
      ApplyInsertsKeepsPrefix(next, items[1..], p);
    }
  }

  /** With the inserts in ascending order of line number, after a
      successful edit the text of every insert is the line with its number. */
  lemma {:induction false} ApplyInsertsPlacesText(lines: seq<string>, items: seq<(int, string)>)
    requires ApplyInserts(lines, items).Inserted?
    requires Increasing(items)
    ensures forall j :: 0 <= j < |items| ==>
      0 <= items[j].0 - 1 < |ApplyInserts(lines, items).lines| &&
      ApplyInserts(lines, items).lines[items[j].0 - 1] == items[j].1 + "\n"
    decreases |items|
  {
    if items != [] {
      var n := items[0].0;
      var next := lines[..n - 1] + [items[0].1 + "\n"] + lines[n - 1..];
      var rest := items[1..];
      var result := ApplyInserts(lines, items);
      assert result == ApplyInserts(next, rest);
      ApplyInsertsPlacesText(next, rest);
      forall j | 0 <= j < |rest| ensures rest[j].0 > (n - 1) + 1 {
        assert rest[j] == items[j + 1];
      }
      ApplyInsertsKeepsPrefix(next, rest, n - 1);
      forall j | 0 <= j < |items|
        ensures 0 <= items[j].0 - 1 < |result.lines| && result.lines[items[j].0 - 1] == items[j].1 + "\n"
      {
        if j > 0 {
          assert items[j] == rest[j - 1];
        }
      }
    }
  }

  /** The (line number, text) pairs of the inserts with the given numbers. */
  ghost function ItemsAt(inserts: map<int, string>, keys: seq<int>): (items: seq<(int, string)>)
    requires forall i :: 0 <= i < |keys| ==> keys[i] in inserts
    ensures |items| == |keys|
    ensures forall i :: 0 <= i < |keys| ==> items[i] == (keys[i], inserts[keys[i]])
  {
    seq(|keys|, i requires 0 <= i < |keys| => (keys[i], inserts[keys[i]]))
  }

  /** `sorted(inserts.items())`: the inserts in ascending line-number order
      (the numbers are distinct keys, so the text never decides the order). */
  ghost function SortedItems(inserts: map<int, string>): (items: seq<(int, string)>)
    ensures Increasing(items)
    ensures |items| == |inserts|
    ensures forall j :: 0 <= j < |items| ==> items[j].0 in inserts && inserts[items[j].0] == items[j].1
    ensures forall n :: n in inserts ==> exists j :: 0 <= j < |items| && items[j].0 == n
  {
    SortedKeysProperties(inserts.Keys);
    assert |inserts.Keys| == |inserts|;
    ItemsAt(inserts, SortedKeys(inserts.Keys))
  }

  /** A successful edit: one more line per insert, original lines kept in
      order, and each insert's text on the line with its number. */
  lemma EditSucceeds(lines: seq<string>, inserts: map<int, string>)
    requires ApplyInserts(lines, SortedItems(inserts)).Inserted?
    ensures |ApplyInserts(lines, SortedItems(inserts)).lines| == |lines| + |inserts|
    ensures IsSubsequence(lines, ApplyInserts(lines, SortedItems(inserts)).lines)
    ensures forall n :: n in inserts ==>
      0 <= n - 1 < |ApplyInserts(lines, SortedItems(inserts)).lines| &&
      ApplyInserts(lines, SortedItems(inserts)).lines[n - 1] == inserts[n] + "\n"
  {
    var items := SortedItems(inserts);
    SubsequenceReflexive(lines);
    ApplyInsertsKeepsLines(lines, items, lines);
    ApplyInsertsPlacesText(lines, items);
    PlacedByKey(ApplyInserts(lines, items).lines, items, inserts);
  }

  /** Text placed for every item is text placed for every key of the map
      the items list. */
  lemma PlacedByKey(result: seq<string>, items: seq<(int, string)>, inserts: map<int, string>)
    requires forall j :: 0 <= j < |items| ==> items[j].0 in inserts && inserts[items[j].0] == items[j].1
    requires forall n :: n in inserts ==> exists j :: 0 <= j < |items| && items[j].0 == n
    requires forall j :: 0 <= j < |items| ==>
      0 <= items[j].0 - 1 < |result| && result[items[j].0 - 1] == items[j].1 + "\n"
    ensures forall n :: n in inserts ==> 0 <= n - 1 < |result| && result[n - 1] == inserts[n] + "\n"
  {
    forall n | n in inserts
      ensures 0 <= n - 1 < |result| && result[n - 1] == inserts[n] + "\n"
    {
      var j :| 0 <= j < |items| && items[j].0 == n;
    }
  }

  /** Why a tool raised instead of returning a reply. */
  datatype ToolError = CannotOpen(fileName: string)

  datatype ToolOutcome = Returned(reply: string) | Threw(error: ToolError)

  // ---------------------------------------------------------------------
  // The working directory

  class WorkingDirectory {
    /** The files of the temporary directory, by name. */
    var files: map<string, string>

    /** The empty name is the directory itself, never a file. */
    ghost predicate Valid()
      reads this
    {
      "" !in files
    }

    /** A fresh temporary directory holds no files. */
    constructor ()
      ensures Valid() && files == map[]
    {
      files := map[];
    }

    /** read_document: errors for an empty name or a missing file; otherwise
        the requested lines of the file joined with "\n" (the lines keep their
        own newlines). */
    function ReadDocument(fileName: string, start: Option<int>, end: Option<int>): (reply: string)
      reads this
      ensures fileName == "" ==> reply == NoFileName
      ensures fileName != "" && fileName !in files ==> reply == FileNotFound(fileName)
      ensures fileName != "" && fileName in files ==>
        reply == Join("\n", Slice(ReadLines(files[fileName]), start, end))
      ensures fileName != "" && fileName in files && start.None? && end.None? ==>
        reply == Join("\n", ReadLines(files[fileName]))
      ensures fileName != "" && fileName in files && start.Some? && end.Some? &&
              0 <= start.value <= end.value <= |ReadLines(files[fileName])| ==>
        reply == Join("\n", ReadLines(files[fileName])[start.value..end.value])
    {
      if fileName == "" then NoFileName
      else if fileName !in files then FileNotFound(fileName)
      else
        var lines := ReadLines(files[fileName]);
        SliceProperties(lines, start, end);
        Join("\n", Slice(lines, start, end))
    }

    /** write_document: an empty name is refused and nothing is written;
        otherwise that one file now holds exactly the content. */
    method WriteDocument(content: string, fileName: string) returns (reply: string)
      requires Valid()
      modifies this
      ensures Valid()
      ensures fileName == "" ==> reply == NoFileName && files == old(files)
      ensures fileName != "" ==>
        reply == "Document successfully saved to " + fileName &&
        files == old(files)[fileName := content]
    {
      if fileName == "" {
        return NoFileName;
      }
      files := files[fileName := content];
      reply := "Document successfully saved to " + fileName;
    }

    /** create_outline: no points or no name is refused before anything is
        written; otherwise the file is truncated and the numbered points are
        written one line at a time. */
    method CreateOutline(points: seq<string>, fileName: string) returns (reply: string)
      requires Valid()
      modifies this
      ensures Valid()
      ensures points == [] ==> reply == NoPoints && files == old(files)
      ensures points != [] && fileName == "" ==> reply == NoFileName && files == old(files)
      ensures points != [] && fileName != "" ==>
        reply == "Outline successfully saved to " + fileName &&
        files == old(files)[fileName := Outline(points)]
    {
      if points == [] {
        return NoPoints;
      }
      if fileName == "" {
        return NoFileName;
      }
      files := files[fileName := ""];
      for i := 0 to |points|
        invariant files == old(files)[fileName := Outline(points[..i])]
      {
        OutlineExtend(points, i);
        files := files[fileName := files[fileName] + OutlineLine(i + 1, points[i])];
      }
      assert points[..|points|] == points;
      reply := "Outline successfully saved to " + fileName;
    }

    /** edit_document: opening a missing file raises. Otherwise the inserts
        are applied to the file's lines; a number out of range stops the edit
        with an error before anything is written, else the new lines replace
        the file. */
    method EditDocument(fileName: string, inserts: map<int, string>) returns (outcome: ToolOutcome)
      requires Valid()
      modifies this
      ensures Valid()
      ensures fileName !in old(files) ==> outcome == Threw(CannotOpen(fileName)) && files == old(files)
      ensures fileName in old(files) ==>
        var result := ApplyInserts(ReadLines(old(files)[fileName]), SortedItems(inserts));
        && (result.OutOfRange? ==>
              outcome == Returned(LineOutOfRange(result.line)) && files == old(files))
        && (result.Inserted? ==>
              outcome == Returned("Document edited and saved to " + fileName) &&
              files == old(files)[fileName := Concat(result.lines)])
    {
      if fileName !in files {
        return Threw(CannotOpen(fileName));
      }
      var result := InsertAll(ReadLines(files[fileName]), inserts);
      if result.OutOfRange? {
        return Returned(LineOutOfRange(result.line));
      }
      files := files[fileName := Concat(result.lines)];
      outcome := Returned("Document edited and saved to " + fileName);
    }
  }

  /** The insert loop of edit_document: it takes the line numbers in
      ascending order, inserting each text with a newline into the growing
      list, and gives up at the first number out of range. */
  method InsertAll(lines: seq<string>, inserts: map<int, string>) returns (result: InsertResult)
    ensures result == ApplyInserts(lines, SortedItems(inserts))
  {
    var current := lines;
    var remaining := inserts.Keys;
    assert ItemsIn(inserts, remaining) == SortedItems(inserts);
    while remaining != {}
      invariant remaining <= inserts.Keys
      invariant ApplyInserts(lines, SortedItems(inserts)) ==
                ApplyInserts(current, ItemsIn(inserts, remaining))
      decreases |remaining|
    {
      assert Least(remaining) in remaining;
      var n :| n in remaining && forall x :: x in remaining ==> n <= x;
      ItemsInStep(inserts, remaining, n);
      ApplyInsertsStep(current, n, inserts[n], ItemsIn(inserts, remaining - {n}));
      if 1 <= n <= |current| + 1 {
        current := current[..n - 1] + [inserts[n] + "\n"] + current[n - 1..];
        remaining := remaining - {n};
      } else {
        return OutOfRange(n);
      }
    }
    assert ItemsIn(inserts, remaining) == [];
    return Inserted(current);
  }

  lemma ApplyInsertsStep(lines: seq<string>, n: int, text: string, rest: seq<(int, string)>)
    ensures ApplyInserts(lines, [(n, text)] + rest) ==
      if 1 <= n <= |lines| + 1 then ApplyInserts(lines[..n - 1] + [text + "\n"] + lines[n - 1..], rest)
      else OutOfRange(n)
  {
    assert ([(n, text)] + rest)[1..] == rest;
  }

  /** The inserts whose numbers are in `keys`, in ascending order. */
  ghost function ItemsIn(inserts: map<int, string>, keys: set<int>): seq<(int, string)>
    requires keys <= inserts.Keys
  {
    SortedKeysProperties(keys);
    ItemsAt(inserts, SortedKeys(keys))
  }

  lemma ItemsInStep(inserts: map<int, string>, keys: set<int>, n: int)
    requires keys <= inserts.Keys
    requires n in keys && forall x :: x in keys ==> n <= x
    ensures ItemsIn(inserts, keys) == [(n, inserts[n])] + ItemsIn(inserts, keys - {n})
  {
    SortedKeysStep(keys, n);
    SortedKeysProperties(keys - {n});
    ItemsAtCons(inserts, n, SortedKeys(keys - {n}));
  }

  /** The items of a key list that starts with `k` start with k's item. */
  lemma ItemsAtCons(inserts: map<int, string>, k: int, keys: seq<int>)
    requires k in inserts && forall i :: 0 <= i < |keys| ==> keys[i] in inserts
    ensures ItemsAt(inserts, [k] + keys) == [(k, inserts[k])] + ItemsAt(inserts, keys)
  {
    var a := ItemsAt(inserts, [k] + keys);
    var b := [(k, inserts[k])] + ItemsAt(inserts, keys);
    forall i | 0 <= i < |a| ensures a[i] == b[i] {
      if i > 0 {
        assert ([k] + keys)[i] == keys[i - 1];
      }
    }
  }
}
