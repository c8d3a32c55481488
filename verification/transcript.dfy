/**
  The transcript text written by main.py for one audio file: one entry
  `<start> - <end>: <text>` plus a newline per segment, in the order the
  recogniser returned them, with one more newline after each entry when
  `easierReadingOutput` is set.
 */
module Transcript {
  import opened Wrappers
  import opened Decimal
  import opened Timestamp

  /** One recognised span; times are whole seconds (already truncated). */
  datatype Segment = Segment(start: nat, end: nat, text: string)

  /** `easierReadingOutput` as the source ships it. */
  const EasierReadingDefault: bool := false

  predicate HasNoNewline(s: string) {
    forall i :: 0 <= i < |s| ==> s[i] != '\n'
  }

  /** Index of the first `c` in `s`, or `|s|` when there is none. */
  function IndexOf(s: string, c: char): (i: nat)
    ensures i <= |s|
  {
    if |s| == 0 then 0 else if s[0] == c then 0 else 1 + IndexOf(s[1..], c)
  }

  /** `IndexOf` finds the first `c`, and `|s|` means there is none. */
  lemma {:induction false} IndexOfFirst(s: string, c: char)
    ensures var i := IndexOf(s, c);
      (forall j :: 0 <= j < i ==> s[j] != c) && (i < |s| ==> s[i] == c)
    decreases |s|
  {
    if |s| > 0 && s[0] != c {
      IndexOfFirst(s[1..], c);
      var i := IndexOf(s, c);
      forall j | 0 <= j < i ensures s[j] != c {
        if j > 0 { assert s[j] == s[1..][j - 1]; }
      }
    }
  }

  /** The entry text of one segment, without its line break(s). */
  function Line(seg: Segment): string {
    Format(seg.start) + " - " + Format(seg.end) + ": " + seg.text
  }

  /** What one `transcriptionOutputFile.write(...)` call writes. */
  function Entry(seg: Segment, easier: bool): (r: string)
    ensures |r| > |seg.text| + 14
    ensures r[|r| - 1] == '\n'
  {
    Line(seg) + "\n" + (if easier then "\n" else "")
  }

  /** The whole transcript file: the entries of all segments, in order. */
  function Document(segs: seq<Segment>, easier: bool): string {
    Joined(segs, seg => Entry(seg, easier))
  }

  /** The pieces `piece` makes of `segs`, concatenated in order. */
  function Joined(segs: seq<Segment>, piece: Segment -> string): string
    decreases |segs|
  {
    if |segs| == 0 then "" else piece(segs[0]) + Joined(segs[1..], piece)
  }

  lemma {:induction false} JoinedAppend(a: seq<Segment>, b: seq<Segment>, piece: Segment -> string)
    ensures Joined(a + b, piece) == Joined(a, piece) + Joined(b, piece)
    decreases |a|
  {
    if |a| == 0 {
      assert a + b == b;
    } else {
      assert (a + b)[0] == a[0] && (a + b)[1..] == a[1..] + b;
      JoinedAppend(a[1..], b, piece);
    }
  }

  /**
    Cuts an entry line into its start field, end field and text: the
    start field ends at the first space, which must begin `" - "`; the end
    field runs up to the `':'` before the next space.
   */
  function SplitLine(line: string): (r: Option<(string, string, string)>)
    ensures r.Some? ==> |r.value.0| + |r.value.1| + |r.value.2| + 5 == |line|
  {
    var i := IndexOf(line, ' ');
    if i + 3 > |line| || line[i + 1] != '-' || line[i + 2] != ' ' then None
    else
      var rest := line[i + 3..];
      var k := IndexOf(rest, ' ');
      if k == 0 || k >= |rest| || rest[k - 1] != ':' then None
      else Some((line[..i], rest[..k - 1], rest[k + 1..]))
  }

  /** A segment from its two time fields and its text; `None` when a time does not read back. */
  function Fields(f1: string, f2: string, text: string): Option<Segment> {
    if Parse(f1).Some? && Parse(f2).Some? then Some(Segment(Parse(f1).value, Parse(f2).value, text)) else None
  }

  /** Reads one entry line back; `None` when the line is not of that shape. */
  function ParseLine(line: string): (r: Option<Segment>)
    ensures r.Some? ==> |r.value.text| + 15 <= |line|
  {
    match SplitLine(line)
    case None => None
    case Some((f1, f2, text)) => Fields(f1, f2, text)
  }

  /** Reads a whole transcript file back into its segments. */
  function ParseDocument(doc: string, easier: bool): Option<seq<Segment>>
    decreases |doc|
  {
    if |doc| == 0 then Some([])
    else
      var n := IndexOf(doc, '\n');
      if n == |doc| then None
      else
        var after := doc[n + 1..];
        if easier && (|after| == 0 || after[0] != '\n') then None
        else
          var next := if easier then after[1..] else after;
          match ParseLine(doc[..n])
          case None => None
          case Some(seg) =>
            match ParseDocument(next, easier)
            case None => None
            case Some(segs) => Some([seg] + segs)
  }

  /** Neither a space nor a line break occurs in `s`. */
  predicate HasNoBlank(s: string) {
    forall i :: 0 <= i < |s| ==> s[i] != ' ' && s[i] != '\n'
  }

  /** A formatted time holds neither a space nor a line break. */
  lemma FormatHasNoBlank(t: nat)
    ensures HasNoBlank(Format(t))
  {
    FormatShape(t);
  }

  /** A string split at the first `c`: what comes before it and what comes after it. */
  lemma IndexOfSplit(a: string, c: char, b: string)
    requires forall j :: 0 <= j < |a| ==> a[j] != c
    ensures var s := a + [c] + b;
      IndexOf(s, c) == |a| && s[..|a|] == a && s[|a| + 1..] == b
  {
    var s := a + [c] + b;
    IndexOfFirst(s, c);
    assert s[|a|] == c;
    assert forall j :: 0 <= j < |a| ==> s[j] == a[j];
    assert s[..|a|] == a;
    assert s[|a| + 1..] == b;
  }

  /** The start field of an entry line ends at its first space, which begins `" - "`. */
  lemma SplitAfterStart(f1: string, rest: string)
    requires HasNoBlank(f1)
    ensures var line := f1 + " - " + rest;
      && IndexOf(line, ' ') == |f1| && line[|f1| + 1] == '-' && line[|f1| + 2] == ' '
      && line[..|f1|] == f1 && line[|f1| + 3..] == rest
  {
    var line := f1 + " - " + rest;
    assert line == f1 + [' '] + ("- " + rest);
    IndexOfSplit(f1, ' ', "- " + rest);
  }

  /** After `" - "`, the end field runs up to the `':'` before the next space. */
  lemma SplitAfterEnd(f2: string, text: string)
    requires HasNoBlank(f2) && |f2| > 0
    ensures var rest := f2 + ": " + text;
      && IndexOf(rest, ' ') == |f2| + 1 && rest[|f2|] == ':'
      && rest[..|f2|] == f2 && rest[|f2| + 2..] == text
  {
    var rest := f2 + ": " + text;
    var head := f2 + [':'];
    assert rest == head + [' '] + text;
    IndexOfSplit(head, ' ', text);
    assert rest[..|f2|] == f2 by {
      assert rest[..|head|] == head;
    }
  }

  /**
    The reader splits an entry line at its first two spaces: the first
    ends the start time, the second follows the colon after the end time.
   */
  lemma SplitLineOfFields(f1: string, f2: string, text: string)
    requires HasNoBlank(f1) && HasNoBlank(f2) && |f2| > 0
    ensures SplitLine(f1 + " - " + f2 + ": " + text) == Some((f1, f2, text))
  {
    var rest := f2 + ": " + text;
    assert f1 + " - " + f2 + ": " + text == f1 + " - " + rest;
    SplitAfterStart(f1, rest);
    SplitAfterEnd(f2, text);
  }

  /** Every entry line reads back as the segment it was written from. */
  lemma ParseLineOfLine(seg: Segment)
    ensures ParseLine(Line(seg)) == Some(seg)
  {
    FormatHasNoBlank(seg.start);
    FormatHasNoBlank(seg.end);
    SplitLineOfFields(Format(seg.start), Format(seg.end), seg.text);
    ParseFormat(seg.start);
    ParseFormat(seg.end);
  }

  /**
    An entry is its line and one line break, and in easier-reading mode
    one more: the blank line follows the entry exactly when the flag is set.
   */
  lemma EntryBlankLine(seg: Segment)
    ensures Entry(seg, false) == Line(seg) + "\n"
    ensures Entry(seg, true) == Line(seg) + "\n\n"
    ensures Entry(seg, true) == Entry(seg, false) + "\n"
  {
  }

  /** With the flag as shipped, each entry is its line and one line break, with no blank line after it. */
  lemma ShippedEntry(seg: Segment)
    ensures Entry(seg, EasierReadingDefault) == Line(seg) + "\n"
  {
    EntryBlankLine(seg);
  }

  /** Easier-reading mode adds exactly one character per segment. */
  lemma {:induction false} DocumentEasierLength(segs: seq<Segment>)
    ensures |Document(segs, true)| == |Document(segs, false)| + |segs|
    decreases |segs|
  {
    if |segs| > 0 {
      DocumentEasierLength(segs[1..]);
    }
  }

  /** The first segment's entry comes first, then the rest of the file. */
  lemma DocumentCons(segs: seq<Segment>, easier: bool)
    requires |segs| > 0
    ensures Document(segs, easier) == Entry(segs[0], easier) + Document(segs[1..], easier)
  {
  }

  /** Writing segments one after another appends their entries: written in order. */
  lemma DocumentAppend(a: seq<Segment>, b: seq<Segment>, easier: bool)
    ensures Document(a + b, easier) == Document(a, easier) + Document(b, easier)
  {
    JoinedAppend(a, b, seg => Entry(seg, easier));
  }

  /** An entry line holds a line break only where its segment text does. */
  lemma LineHasNoNewline(seg: Segment)
    requires HasNoNewline(seg.text)
    ensures HasNoNewline(Line(seg))
  {
    FormatHasNoBlank(seg.start);
    FormatHasNoBlank(seg.end);
    FieldsHaveNoNewline(Format(seg.start), Format(seg.end), seg.text);
  }

  /** The separators add no line break to an entry line. */
  lemma FieldsHaveNoNewline(f1: string, f2: string, text: string)
    requires HasNoBlank(f1) && HasNoBlank(f2) && HasNoNewline(text)
    ensures HasNoNewline(f1 + " - " + f2 + ": " + text)
  {
    var line := f1 + " - " + f2 + ": " + text;
    forall j | 0 <= j < |line| ensures line[j] != '\n' {
      if j < |f1| { assert line[j] == f1[j]; }
      else if j < |f1| + 3 { }
      else if j < |f1| + 3 + |f2| { assert line[j] == f2[j - |f1| - 3]; }
      else if j < |f1| + 5 + |f2| { }
      else { assert line[j] == text[j - |f1| - 5 - |f2|]; }
    }
  }

  /** The reader consumes one line, its break(s), and continues with the rest. */
  lemma ParseDocumentStep(line: string, tail: string, easier: bool)
    requires HasNoNewline(line)
    ensures ParseDocument(line + "\n" + (if easier then "\n" else "") + tail, easier) ==
      match ParseLine(line)
      case None => None
      case Some(seg) =>
        match ParseDocument(tail, easier)
        case None => None
        case Some(segs) => Some([seg] + segs)
  {
    var doc := line + "\n" + (if easier then "\n" else "") + tail;
    var after := (if easier then "\n" else "") + tail;
    assert doc == line + ['\n'] + after;
    IndexOfSplit(line, '\n', after);
    if easier {
      assert after == "\n" + tail;
      assert after[1..] == tail;
    } else {
      assert after == tail;
    }
  }

  /** An entry reads back as its segment, followed by whatever the rest reads back as. */
  lemma ParseEntry(seg: Segment, tail: string, easier: bool)
    requires HasNoNewline(seg.text)
    ensures ParseDocument(Entry(seg, easier) + tail, easier) ==
      match ParseDocument(tail, easier)
      case None => None
      case Some(segs) => Some([seg] + segs)
  {
    assert Entry(seg, easier) + tail == Line(seg) + "\n" + (if easier then "\n" else "") + tail;
    LineHasNoNewline(seg);
    ParseDocumentStep(Line(seg), tail, easier);
    ParseLineOfLine(seg);
  }

  /**
    The file reads back as exactly the segments it was written from, one
    per entry and in input order, provided no segment text holds a line
    break of its own.
   */
  lemma {:induction false} ParseDocumentOfDocument(segs: seq<Segment>, easier: bool)
    requires forall i :: 0 <= i < |segs| ==> HasNoNewline(segs[i].text)
    ensures ParseDocument(Document(segs, easier), easier) == Some(segs)
    decreases |segs|
  {
    if |segs| > 0 {
      var rest := segs[1..];
      assert forall i :: 0 <= i < |rest| ==> HasNoNewline(rest[i].text) by {
        forall i | 0 <= i < |rest| ensures HasNoNewline(rest[i].text) {
          assert rest[i] == segs[i + 1];
        }
      }
      ParseDocumentOfDocument(rest, easier);
      ParseDocumentCons(segs, easier);
    }
  }

  /** When the rest of the file reads back as the rest of the segments, the whole file reads back as all of them. */
  lemma ParseDocumentCons(segs: seq<Segment>, easier: bool)
    requires |segs| > 0 && HasNoNewline(segs[0].text)
    requires ParseDocument(Document(segs[1..], easier), easier) == Some(segs[1..])
    ensures ParseDocument(Document(segs, easier), easier) == Some(segs)
  {
    DocumentCons(segs, easier);
    ParseEntry(segs[0], Document(segs[1..], easier), easier);
    assert [segs[0]] + segs[1..] == segs;
  }

  /** A one-segment transcript is that segment's entry. */
  lemma DocumentSingle(seg: Segment, easier: bool)
    ensures Document([seg], easier) == Entry(seg, easier)
  {
    DocumentCons([seg], easier);
    assert [seg][1..] == [];
  }

  /** Extending the written prefix by one segment appends that segment's entry. */
  lemma DocumentPrefix(segs: seq<Segment>, i: nat, easier: bool)
    requires i < |segs|
    ensures Document(segs[..i + 1], easier) == Document(segs[..i], easier) + Entry(segs[i], easier)
  {
    var a, x := segs[..i], segs[i];
    assert segs[..i + 1] == a + [x];
    calc {
      Document(segs[..i + 1], easier);
      Document(a + [x], easier);
      { DocumentAppend(a, [x], easier); }
      Document(a, easier) + Document([x], easier);
      { DocumentSingle(x, easier); }
      Document(a, easier) + Entry(x, easier);
    }
  }

  /**
    The write loop of main.py: one `write` per segment, in order. The file
    it produces is the transcript of all segments and reads back as them.
   */
  method WriteDocument(segs: seq<Segment>, easier: bool) returns (doc: string)
    ensures doc == Document(segs, easier)
    ensures (forall i :: 0 <= i < |segs| ==> HasNoNewline(segs[i].text)) ==>
      ParseDocument(doc, easier) == Some(segs)
  {
    doc := "";
    var i := 0;
    while i < |segs|
      invariant 0 <= i <= |segs|
      invariant doc == Document(segs[..i], easier)
    {
      DocumentPrefix(segs, i, easier);
      doc := doc + Entry(segs[i], easier);
      i := i + 1;
    }
    assert segs[..i] == segs;
    if forall i :: 0 <= i < |segs| ==> HasNoNewline(segs[i].text) {
      ParseDocumentOfDocument(segs, easier);
    }
  }

  /** A two-segment transcript is the two entries, first segment first. */
  lemma DocumentPair(x: Segment, y: Segment, easier: bool)
    ensures Document([x, y], easier) == Entry(x, easier) + Entry(y, easier)
  {
    assert [x, y][1..] == [y];
    calc {
      Document([x, y], easier);
      Entry(x, easier) + Document([y], easier);
      { DocumentSingle(y, easier); }
      Entry(x, easier) + Entry(y, easier);
    }
  }

  /** A two-segment transcript in terms of the two entry lines. */
  lemma DocumentPairLines(s0: Segment, s1: Segment, easier: bool)
    ensures Document([s0, s1], easier) ==
      (Line(s0) + (if easier then "\n\n" else "\n")) + (Line(s1) + (if easier then "\n\n" else "\n"))
  {
    DocumentPair(s0, s1, easier);
    EntryBlankLine(s0);
    EntryBlankLine(s1);
  }

  /** The worked transcript: two segments, with and without easier reading. */
  lemma DocumentExample()
    ensures Document([Segment(0, 5, "hello"), Segment(5, 12, "world")], false) ==
      ("00:00 - 00:05: hello" + "\n") + ("00:05 - 00:12: world" + "\n")
    ensures Document([Segment(0, 5, "hello"), Segment(5, 12, "world")], true) ==
      ("00:00 - 00:05: hello" + "\n\n") + ("00:05 - 00:12: world" + "\n\n")
  {
    var s0, s1 := Segment(0, 5, "hello"), Segment(5, 12, "world");
    LineExampleFirst();
    LineExampleSecond();
    DocumentPairLines(s0, s1, false);
    DocumentPairLines(s0, s1, true);
  }

  /** An entry line from the two formatted times. */
  lemma LineOfTimes(seg: Segment, a: string, b: string)
    requires Format(seg.start) == a && Format(seg.end) == b
    ensures Line(seg) == a + " - " + b + ": " + seg.text
  {
  }

  /** The first entry line of the worked transcript. */
  lemma LineExampleFirst()
    ensures Line(Segment(0, 5, "hello")) == "00:00 - 00:05: hello"
  {
    FormatExampleSmall();
    LineOfTimes(Segment(0, 5, "hello"), "00:00", "00:05");
    assert "00:00" + " - " + "00:05" + ": " + "hello" == "00:00 - 00:05: hello";
  }

  /** The second entry line of the worked transcript. */
  lemma LineExampleSecond()
    ensures Line(Segment(5, 12, "world")) == "00:05 - 00:12: world"
  {
    FormatExampleSmall();
    LineOfTimes(Segment(5, 12, "world"), "00:05", "00:12");
    assert "00:05" + " - " + "00:12" + ": " + "world" == "00:05 - 00:12: world";
  }
}
