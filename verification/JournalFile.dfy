/** The journal file line by line: what an interrupted write may leave, what is read back from it, and
    in which order a compaction writes. A file is a list of lines and what follows the last newline; the
    bytes of everything that is no record are kept, since one byte that is not UTF-8 makes the whole file
    unreadable. */
module JournalFile {
  import opened Options
  import opened Json
  import opened TextEncoding
  import opened Journal
  import RemoteHelper

  /** How a record is written, without its newline. */
  type Encoding = Record -> Text

  /** A JSON object on one line. */
  predicate WellEncoded(text: Text) { text != [] && text[0] == 123 && Utf8(text) && 10 !in text }

  ghost predicate Sound(encode: Encoding) { forall r :: WellEncoded(encode(r)) }

  datatype Line = Entry(record: Record) | Unreadable(text: Text)

  /** What follows the last newline: nothing, some bytes that are no record, or a record without its newline. */
  datatype Tail = Terminated | Torn(text: Text) | Unended(record: Record)

  datatype File = File(lines: seq<Line>, tail: Tail)

  function Entries(lines: seq<Line>): Log {
    if lines == [] then []
    else
      var front, last := Entries(lines[..|lines| - 1]), lines[|lines| - 1];
      if last.Entry? then front + [last.record] else front
  }

  function Records(f: File): Log {
    Entries(f.lines) + if f.tail.Unended? then [f.tail.record] else []
  }

  /** `read_to_string` succeeds. */
  predicate Readable(f: File) {
    (forall line | line in f.lines && line.Unreadable? :: Utf8(line.text)) && (f.tail.Torn? ==> Utf8(f.tail.text))
  }

  /** What the records of the file replay to, whether or not it can be read. */
  function Replayed(f: File): map<Key, Record> { Replay(Records(f)) }

  /** What `current_unacknowledged` reads from the file: nothing at all when it is not UTF-8. */
  function Current(f: File): Option<map<Key, Record>> { if Readable(f) then Some(Replayed(f)) else None }

  /** What is left of the records when the tail is spoilt. */
  function Complete(f: File): map<Key, Record> { Replay(Entries(f.lines)) }

  /** An append to this file is not lost. */
  predicate Intact(f: File) { f.tail.Terminated? && Readable(f) }

  /** No record of the file discloses a flag. */
  ghost predicate CleanFile(f: File) { forall r | r in Records(f) :: Clean(r) }

  // ------------------------------------------------------------------ the bytes

  function TailBytes(encode: Encoding, tail: Tail): Text {
    match tail
    case Terminated => []
    case Torn(text) => text
    case Unended(r) => encode(r)
  }

  function LineBytes(encode: Encoding, line: Line): Text { if line.Entry? then encode(line.record) else line.text }

  function LinesBytes(encode: Encoding, lines: seq<Line>): Text {
    if lines == [] then []
    else LinesBytes(encode, lines[..|lines| - 1]) + LineBytes(encode, lines[|lines| - 1]) + [10]
  }

  function Bytes(encode: Encoding, f: File): Text { LinesBytes(encode, f.lines) + TailBytes(encode, f.tail) }

  lemma {:induction false} LinesReadable(encode: Encoding, lines: seq<Line>, rest: Text)
    requires Sound(encode)
    ensures Utf8(LinesBytes(encode, lines) + rest)
       <==> Utf8(rest) && forall line | line in lines && line.Unreadable? :: Utf8(line.text)
  {
    if lines == [] {
      assert LinesBytes(encode, lines) + rest == rest;
    } else {
      var front, last := lines[..|lines| - 1], lines[|lines| - 1];
      var text := LineBytes(encode, last);
      assert lines == front + [last];
      assert LinesBytes(encode, lines) + rest == LinesBytes(encode, front) + (text + [10] + rest);
      LinesReadable(encode, front, text + [10] + rest);
      NewlineDivides(text, rest);
      assert last.Entry? ==> WellEncoded(encode(last.record));
    }
  }

  /** A file is readable exactly when its bytes, all of them together, are UTF-8. */
  lemma ReadableExactlyWhenUtf8(encode: Encoding, f: File)
    requires Sound(encode)
    ensures Readable(f) <==> Utf8(Bytes(encode, f))
  {
    LinesReadable(encode, f.lines, TailBytes(encode, f.tail));
    assert f.tail.Unended? ==> WellEncoded(encode(f.tail.record));
    assert Utf8([]);
  }

  // ------------------------------------------------------------------ writing

  /** The file after `r` and its newline are written at the end. A line that merges a torn tail with a
      record does not parse. */
  function Extended(encode: Encoding, f: File, r: Record): File {
    var line := if f.tail.Terminated? then Entry(r) else Unreadable(TailBytes(encode, f.tail) + encode(r));
    File(f.lines + [line], Terminated)
  }

  /** What a write of `r` leaves after `k` bytes of its text and newline. */
  function CutShort(encode: Encoding, f: File, r: Record, k: nat): File
    requires k <= |encode(r)| + 1
  {
    if k == 0 then f
    else if k > |encode(r)| then Extended(encode, f, r)
    else if k == |encode(r)| && f.tail.Terminated? then File(f.lines, Unended(r))
    else File(f.lines, Torn(TailBytes(encode, f.tail) + encode(r)[..k]))
  }

  /** So many bytes more, and nothing else. */
  lemma CutIsPrefix(encode: Encoding, f: File, r: Record, k: nat)
    requires k <= |encode(r)| + 1
    ensures Bytes(encode, CutShort(encode, f, r, k)) == Bytes(encode, f) + (encode(r) + [10])[..k]
  {
    var text := encode(r);
    if k > |text| {
      var g := Extended(encode, f, r);
      assert g.lines[..|g.lines| - 1] == f.lines;
      assert (text + [10])[..k] == text + [10];
    } else {
      assert (text + [10])[..k] == text[..k];
      if k == |text| { assert text[..k] == text; }
    }
  }

  /** `g` is what an interrupted write of `r` may leave. */
  ghost predicate Interruption(encode: Encoding, f: File, r: Record, g: File) {
    exists k: nat :: k <= |encode(r)| + 1 && g == CutShort(encode, f, r, k)
  }

  lemma CutInterrupts(encode: Encoding, f: File, r: Record, k: nat)
    requires k <= |encode(r)| + 1
    ensures Interruption(encode, f, r, CutShort(encode, f, r, k))
  {
  }

  lemma EntriesAppend(lines: seq<Line>, line: Line)
    ensures Entries(lines + [line]) == Entries(lines) + if line.Entry? then [line.record] else []
  {
    assert (lines + [line])[..|lines|] == lines;
  }

  lemma ExtendedReplayed(encode: Encoding, f: File, r: Record)
    ensures f.tail.Terminated? ==> Replayed(Extended(encode, f, r)) == Apply(Replayed(f), r)
    ensures !f.tail.Terminated? ==> Replayed(Extended(encode, f, r)) == Complete(f)
    ensures f.tail.Terminated? ==> Replayed(f) == Complete(f)
  {
    var g := Extended(encode, f, r);
    var line := g.lines[|f.lines|];
    EntriesAppend(f.lines, line);
    assert Records(g) == Entries(f.lines + [line]);
    if f.tail.Terminated? {
      assert Records(f) == Entries(f.lines);
      ReplayAppend(Entries(f.lines), r);
    } else {
      assert Entries(f.lines + [line]) == Entries(f.lines);
    }
  }

  lemma CutReplayed(encode: Encoding, f: File, r: Record, k: nat)
    requires 0 < k <= |encode(r)|
    ensures var g := CutShort(encode, f, r, k);
            Replayed(g) == if k == |encode(r)| && f.tail.Terminated? then Apply(Replayed(f), r) else Complete(f)
    ensures f.tail.Terminated? ==> Replayed(f) == Complete(f)
  {
    var g := CutShort(encode, f, r, k);
    if f.tail.Terminated? { assert Records(f) == Entries(f.lines); }
    if g.tail.Unended? {
      ReplayAppend(Entries(f.lines), r);
    } else {
      assert Records(g) == Entries(f.lines);
    }
  }

  // ------------------------------------------------------------------ whether the file can still be read

  /** Exactly when a cut leaves a readable file: it could be read before, and no character is split. A file that
      could not be read stays so, since a record begins with a whole character. */
  lemma CutReadableExactly(encode: Encoding, f: File, r: Record, k: nat)
    requires Sound(encode) && k <= |encode(r)| + 1
    ensures Readable(CutShort(encode, f, r, k))
       <==> Readable(f) && (k <= |encode(r)| ==> Utf8(encode(r)[..k]))
  {
    var text, g, tail := encode(r), CutShort(encode, f, r, k), TailBytes(encode, f.tail);
    assert WellEncoded(text);
    assert Utf8([]);
    if k == 0 {
      assert text[..0] == [];
    } else {
      var part := if k <= |text| then text[..k] else text;
      assert part[0] == 123 && !Continuation(part[0]);
      assert k == |text| ==> text[..k] == text;
      DividedText(tail, part);
      assert f.tail.Unended? ==> WellEncoded(encode(f.tail.record));
      assert [] + part == part;
      if k > |text| {
        assert g.lines == f.lines + [g.lines[|f.lines|]];
      }
    }
  }

  predicate BeforeOrAfter(f: File, r: Record, g: File) {
    Current(g) == Current(f) || Current(g) == Some(Apply(Replayed(f), r))
  }

  /** An append to an intact file that is cut after `k` bytes has happened or has not, or the cut splits a
      character, and then nothing can be read any more. */
  lemma AppendIsAtomic(encode: Encoding, f: File, r: Record, k: nat)
    requires Sound(encode) && Intact(f) && k <= |encode(r)| + 1
    ensures var g := CutShort(encode, f, r, k);
            if k <= |encode(r)| && !Utf8(encode(r)[..k]) then Current(g) == None else BeforeOrAfter(f, r, g)
  {
    CutReadableExactly(encode, f, r, k);
    if k > |encode(r)| { ExtendedReplayed(encode, f, r); } else if k > 0 { CutReplayed(encode, f, r, k); }
  }

  /** Every cut of an append to an intact file leaves the old records or the new ones if and only if the text of
      the record is ASCII. */
  lemma AppendIsAtomicExactlyWhenAscii(encode: Encoding, f: File, r: Record)
    requires Sound(encode) && Intact(f)
    ensures (forall k: nat | k <= |encode(r)| + 1 :: BeforeOrAfter(f, r, CutShort(encode, f, r, k)))
       <==> Ascii(encode(r))
  {
    var text := encode(r);
    assert WellEncoded(text);
    AsciiExactlyWhenCutsAreTexts(text);
    forall k: nat | k <= |text| + 1
      ensures BeforeOrAfter(f, r, CutShort(encode, f, r, k)) <==> k > |text| || Utf8(text[..k])
    {
      AppendIsAtomic(encode, f, r, k);
    }
    if k :| 0 <= k <= |text| && !Utf8(text[..k]) {
      assert !BeforeOrAfter(f, r, CutShort(encode, f, r, k));
    }
  }

  /** ... and behind a torn tail it never happens, and what the tail held is lost as well. */
  lemma AppendBehindATornTail(encode: Encoding, f: File, r: Record, k: nat)
    requires Sound(encode) && Readable(f) && !f.tail.Terminated? && k <= |encode(r)| + 1
    ensures var g := CutShort(encode, f, r, k);
            if k <= |encode(r)| && !Utf8(encode(r)[..k]) then Current(g) == None
            else Current(g) == Current(f) || Current(g) == Some(Complete(f))
  {
    CutReadableExactly(encode, f, r, k);
    if k > |encode(r)| { ExtendedReplayed(encode, f, r); } else if k > 0 { CutReplayed(encode, f, r, k); }
  }

  /** The name in UTF-8. */
  const BUERO: Text := [98, 195, 188, 114, 111, 45, 49]

  /** A host named "buero-1", its second letter a u with diaeresis: when the write of a record that holds the name
      is cut between the two bytes of that letter, nothing can be read, nor after any further append. */
  lemma SplitNameSpoilsTheJournal(encode: Encoding, f: File, r: Record, before: Text, after: Text, next: Record, k: nat)
    requires Sound(encode) && encode(r) == before + BUERO + after && k <= |encode(next)| + 1
    ensures Current(CutShort(encode, f, r, |before| + 2)) == None
    ensures Current(CutShort(encode, CutShort(encode, f, r, |before| + 2), next, k)) == None
    ensures !Ascii(encode(r))
  {
    var cut, g := |before| + 2, CutShort(encode, f, r, |before| + 2);
    assert encode(r)[..cut] == before + [98] + [195];
    DividedText(before + [98], [195]);
    CutReadableExactly(encode, f, r, cut);
    CutReadableExactly(encode, g, next, k);
    assert encode(r)[cut] == 188;
  }

  /** A completed append of a record that tells anything new, an acknowledgement included, is replayed if and
      only if the file was intact: behind a torn tail, or in a file that cannot be read, it is lost although it
      succeeded. */
  lemma AppendIsReplayedExactlyWhenIntact(encode: Encoding, f: File, r: Record)
    requires Sound(encode) && Apply(Complete(f), r) != Complete(f)
    ensures Current(Extended(encode, f, r)) == Some(Apply(Complete(f), r)) <==> Intact(f)
    ensures r.phase.DatabaseAcknowledged? ==>
              var current := Current(Extended(encode, f, r));
              current.Some? && KeyOf(r) !in current.value <==> Intact(f)
    ensures !r.phase.DatabaseAcknowledged? ==>
              var current := Current(Extended(encode, f, r));
              current.Some? && KeyOf(r) in current.value && current.value[KeyOf(r)] == Redact(r) <==> Intact(f)
  {
    ExtendedReplayed(encode, f, r);
    CutReadableExactly(encode, f, r, |encode(r)| + 1);
    var m := Complete(f);
    if r.phase.DatabaseAcknowledged? {
      assert KeyOf(r) !in m ==> m - {KeyOf(r)} == m;
    } else {
      assert KeyOf(r) in m && m[KeyOf(r)] == Redact(r) ==> m[KeyOf(r) := Redact(r)] == m;
    }
  }

  lemma WritingKeepsClean(encode: Encoding, f: File, r: Record, k: nat)
    requires CleanFile(f) && Clean(r) && k <= |encode(r)| + 1
    ensures CleanFile(CutShort(encode, f, r, k))
  {
    var g := CutShort(encode, f, r, k);
    EntriesAppend(f.lines, Entry(r));
    EntriesAppend(f.lines, Unreadable(TailBytes(encode, f.tail) + encode(r)));
    forall x | x in Records(g) ensures Clean(x) {
      if x != r { assert x in Entries(f.lines) || x in Records(f); }
      if x in Entries(f.lines) { assert x in Records(f); }
    }
  }

  lemma RedactIsClean(r: Record)
    ensures Clean(Redact(r)) && Redact(Redact(r)) == Redact(r)
  {
    if r.payload.Some? { RedactionHidesTheFlag(r.payload.value); }
  }

  lemma ApplyRedacted(current: map<Key, Record>, r: Record)
    ensures Apply(current, Redact(r)) == Apply(current, r)
  {
    RedactIsClean(r);
  }

  // ------------------------------------------------------------------ the order of a compacted file

  predicate Before(a: Record, b: Record) {
    || a.updatedAt < b.updatedAt
    || (a.updatedAt == b.updatedAt && a.instance < b.instance)
    || (a.updatedAt == b.updatedAt && a.instance == b.instance && a.command <= b.command)
  }

  predicate Ordered(records: Log) {
    forall i, j | 0 <= i < j < |records| :: Before(records[i], records[j])
  }

  /** An ordered list goes by the time of the records first, then by instance, then by command. */
  lemma OrderedByTime(records: Log, i: nat, j: nat)
    requires Ordered(records) && i < j < |records|
    ensures var a, b := records[i], records[j];
            && a.updatedAt <= b.updatedAt
            && (a.updatedAt == b.updatedAt ==> a.instance <= b.instance)
            && (a.updatedAt == b.updatedAt && a.instance == b.instance ==> a.command <= b.command)
  {
  }

  /** Placing a record behind everything that comes before it keeps a list ordered. */
  lemma InsertionKeepsOrder(a: Log, at: nat, r: Record)
    requires Ordered(a) && at <= |a|
    requires forall j | 0 <= j < at :: Before(a[j], r)
    requires at < |a| ==> !Before(a[at], r)
    ensures Ordered(a[..at] + [r] + a[at..])
    ensures multiset(a[..at] + [r] + a[at..]) == multiset(a) + multiset{r}
  {
    assert a == a[..at] + a[at..];
    forall j | at <= j < |a| ensures Before(r, a[j]) {
      if j > at { assert Before(a[at], a[j]); }
    }
  }

  function Written(records: Log): seq<Line> { seq(|records|, i requires 0 <= i < |records| => Entry(records[i])) }

  lemma {:induction false} EntriesOfWritten(records: Log)
    ensures Entries(Written(records)) == records
  {
    if records != [] {
      var front := records[..|records| - 1];
      EntriesOfWritten(front);
      assert Written(records) == Written(front) + [Entry(records[|records| - 1])];
      EntriesAppend(Written(front), Entry(records[|records| - 1]));
    }
  }

  /** Every record is filed under its own key. */
  ghost predicate SelfKeyed(current: map<Key, Record>) {
    forall k | k in current :: KeyOf(current[k]) == k
  }

  /** Two ordered lists of the same records are the same list: what a compaction writes is determined. */
  lemma {:induction false} OneOrder(a: Log, b: Log, current: map<Key, Record>)
    requires Lists(a, current) && Lists(b, current) && Ordered(a) && Ordered(b) && SelfKeyed(current)
    ensures a == b
  {
    if a == [] || b == [] {
      NoneListed(a, current);
      NoneListed(b, current);
    } else {
      SameHead(a, b, current);
      TailLists(a, current);
      TailLists(b, current);
      OneOrder(a[1..], b[1..], current - {KeyOf(a[0])});
    }
  }

  lemma NoneListed(a: Log, current: map<Key, Record>)
    requires Lists(a, current)
    ensures a == [] <==> current == map[]
  {
    if a != [] { assert a[0] in a; }
  }

  lemma HeadIsFirst(a: Log, r: Record)
    requires Ordered(a) && r in a
    ensures r == a[0] || Before(a[0], r)
  {
  }

  lemma SameHead(a: Log, b: Log, current: map<Key, Record>)
    requires Lists(a, current) && Lists(b, current) && Ordered(a) && Ordered(b) && a != [] && b != []
    ensures a[0] == b[0]
  {
    assert a[0] in a && b[0] in b;
    assert a[0] in b && b[0] in a by {
      assert current[KeyOf(a[0])] in b && current[KeyOf(b[0])] in a;
    }
    HeadIsFirst(a, b[0]);
    HeadIsFirst(b, a[0]);
  }

  lemma TailLists(a: Log, current: map<Key, Record>)
    requires Lists(a, current) && a != [] && SelfKeyed(current)
    ensures Lists(a[1..], current - {KeyOf(a[0])})
  {
    var rest := current - {KeyOf(a[0])};
    forall r | r in a[1..] ensures KeyOf(r) in rest && rest[KeyOf(r)] == r {
      var i :| 0 <= i < |a| - 1 && a[1..][i] == r;
      assert a[i + 1] == r && r in a && KeyOf(a[0]) != KeyOf(a[i + 1]);
    }
    forall k | k in rest ensures rest[k] in a[1..] {
      assert current[k] in a;
      var i :| 0 <= i < |a| && a[i] == current[k];
      if i > 0 { assert a[1..][i - 1] == current[k]; }
    }
  }

  lemma {:induction false} Multiplicity(a: Log, x: Record)
    requires forall i, j | 0 <= i < j < |a| :: KeyOf(a[i]) != KeyOf(a[j])
    ensures multiset(a)[x] <= 1
  {
    if a != [] {
      var front := a[..|a| - 1];
      Multiplicity(front, x);
      assert a == front + [a[|a| - 1]];
      if x == a[|a| - 1] { assert x !in front; }
    }
  }

  /** Sorting does not change what is listed. */
  lemma ListsPermute(a: Log, b: Log, current: map<Key, Record>)
    requires Lists(a, current) && multiset(a) == multiset(b)
    ensures Lists(b, current)
  {
    forall r ensures r in a <==> r in b { assert r in multiset(a) <==> r in multiset(b); }
    forall i, j | 0 <= i < j < |b| ensures KeyOf(b[i]) != KeyOf(b[j]) {
      Multiplicity(a, b[i]);
      assert b[i] in a && b[j] in a;
      assert b == b[..j] + [b[j]] + b[j + 1..];
      assert b[i] in b[..j];
    }
  }
}
