/** The file layout written by backend/internal/report/pdf.go: numbered objects, a
    cross-reference table of their byte offsets, a trailer. The reader follows sections 7.5.4
    and 7.5.5 of ISO 32000-1:2008, and 7.3.8.2 for streams: from the end of the file to
    `startxref`, from there to the table, from there to each object. A character stands for
    one byte. */
module PdfFile {
  import opened Prelude
  import opened Decimals

  const HEADER := "%PDF-1.4\n"
  const OBJ := " 0 obj\n"
  const END_OBJ := "\nendobj\n"
  const XREF := "xref\n0 "
  const FREE := "\n0000000000 65535 f \n"
  const IN_USE := " 00000 n \n"
  const TRAILER := "trailer << /Size "
  const ROOT := " /Root "
  const REFERENCE := " 0 R >>\n"
  const START := "startxref\n"
  const END_OF_FILE := "\n%%EOF"
  const LENGTH := "<< /Length "
  const STREAM := " >>\nstream\n"
  const END_STREAM := "\nendstream"

  // ----------------------------------------------------------------------------- writer

  function Object(number: nat, body: string): string {
    Decimal(number) + OBJ + body + END_OBJ
  }

  /** The header and the first `k` objects. */
  function Rendered(objects: seq<string>, k: nat): string
    requires k <= |objects|
  {
    if k == 0 then HEADER else Rendered(objects, k - 1) + Object(k, objects[k - 1])
  }

  /** Where the first `k` objects begin. */
  function Offsets(objects: seq<string>, k: nat): (r: seq<nat>)
    requires k <= |objects|
    ensures |r| == k && forall i :: 0 <= i < k ==> r[i] == |Rendered(objects, i)|
  {
    if k == 0 then [] else Offsets(objects, k - 1) + [|Rendered(objects, k - 1)|]
  }

  function Entry(offset: nat): string {
    Padded(offset, 10) + IN_USE
  }

  /** The first `k` rows of the table. */
  function Entries(offsets: seq<nat>, k: nat): string
    requires k <= |offsets|
  {
    if k == 0 then "" else Entries(offsets, k - 1) + Entry(offsets[k - 1])
  }

  function TableHead(size: nat): string {
    XREF + Decimal(size) + FREE
  }

  /** The catalogue is always object 1. */
  function TrailerHead(size: nat): string {
    (TRAILER + Decimal(size) + ROOT) + ("" + Decimal(1) + REFERENCE)
  }

  function Ending(table: nat): string {
    START + Decimal(table) + END_OF_FILE
  }

  function File(objects: seq<string>): string {
    var n := |objects|;
    var body := Rendered(objects, n);
    body + TableHead(n + 1) + Entries(Offsets(objects, n), n) + TrailerHead(n + 1) + Ending(|body|)
  }

  method WriteObjects(objects: seq<string>) returns (out: string, offsets: seq<nat>)
    ensures out == Rendered(objects, |objects|) && offsets == [0] + Offsets(objects, |objects|)
  {
    out := HEADER;
    offsets := [0];
    for i := 0 to |objects|
      invariant out == Rendered(objects, i)
      invariant offsets == [0] + Offsets(objects, i)
    {
      offsets := offsets + [|out|];
      out := out + Object(i + 1, objects[i]);
    }
  }

  method WriteEntries(offsets: seq<nat>) returns (out: string)
    ensures out == Entries(offsets, |offsets|)
  {
    out := "";
    for i := 0 to |offsets|
      invariant out == Entries(offsets, i)
    {
      out := out + Entry(offsets[i]);
    }
  }

  method WriteFile(objects: seq<string>) returns (out: string)
    ensures out == File(objects)
  {
    var offsets;
    out, offsets := WriteObjects(objects);
    var xref := |out|;
    assert offsets[1..] == Offsets(objects, |objects|);
    var entries := WriteEntries(offsets[1..]);
    out := out + TableHead(|objects| + 1) + entries;
    out := out + TrailerHead(|objects| + 1) + Ending(xref);
  }

  function StreamObject(content: string): string {
    LENGTH + Decimal(|content|) + STREAM + content + END_STREAM
  }

  // ----------------------------------------------------------------------------- reader

  predicate At(data: string, p: nat, text: string) {
    p + |text| <= |data| && data[p..p + |text|] == text
  }

  function ReadEntry(data: string, at: nat): Option<nat> {
    if at + 20 <= |data| && AllDigits(data[at..at + 10]) && At(data, at + 10, IN_USE)
    then Some(Value(data[at..at + 10]))
    else None
  }

  /** The first `k` entries of a table, 20 bytes each. */
  function ReadEntries(data: string, p: nat, k: nat): Option<seq<nat>> {
    if k == 0 then Some([])
    else
      match ReadEntries(data, p, k - 1)
      case None => None
      case Some(offsets) =>
        match ReadEntry(data, p + 20 * (k - 1))
        case None => None
        case Some(offset) => Some(offsets + [offset])
  }

  function ReadBody(data: string, number: nat, from: nat, to: nat): Option<string> {
    var head := Decimal(number) + OBJ;
    if from + |head| + |END_OBJ| <= to <= |data| && At(data, from, head) && At(data, to - |END_OBJ|, END_OBJ)
    then Some(data[from + |head|..to - |END_OBJ|])
    else None
  }

  /** The bodies of the first `k` objects; each ends where the next one starts. */
  function ReadBodies(data: string, starts: seq<nat>, k: nat): Option<seq<string>>
    requires k < |starts|
  {
    if k == 0 then Some([])
    else
      match ReadBodies(data, starts, k - 1)
      case None => None
      case Some(bodies) =>
        match ReadBody(data, k, starts[k - 1], starts[k])
        case None => None
        case Some(body) => Some(bodies + [body])
  }

  /** A numeral between two fixed texts: its value and the position after the second text. */
  function ReadNumber(data: string, p: nat, before: string, after: string): Option<(nat, nat)> {
    if !At(data, p, before) then None
    else
      var from := p + |before|;
      var to := RunEnd(data, from);
      if from < to && At(data, to, after) then Some((Value(data[from..to]), to + |after|)) else None
  }

  /** The numeral between two fixed texts at the very end. */
  function ReadLast(data: string, before: string, after: string): Option<nat> {
    if |data| < |after| || !At(data, |data| - |after|, after) then None
    else
      var to := |data| - |after|;
      var from := RunStart(data, to);
      if from < to && |before| <= from && At(data, from - |before|, before) then Some(Value(data[from..to])) else None
  }

  /** What a file holds: the number of its catalogue and its objects. */
  datatype Document = Document(root: nat, objects: seq<string>)

  function ReadFile(data: string): Option<Document> {
    match ReadLast(data, START, END_OF_FILE)
    case None => None
    case Some(table) => ReadTable(data, table)
  }

  function ReadTable(data: string, table: nat): Option<Document> {
    match ReadNumber(data, table, XREF, FREE)
    case None => None
    case Some((size, p)) => ReadRows(data, table, size, p)
  }

  function ReadRows(data: string, table: nat, size: nat, p: nat): Option<Document> {
    if size == 0 then None
    else
      match ReadEntries(data, p, size - 1)
      case None => None
      case Some(offsets) => ReadTrailer(data, table, size, p + 20 * (size - 1), offsets)
  }

  function ReadTrailer(data: string, table: nat, size: nat, p: nat, offsets: seq<nat>): Option<Document> {
    match ReadNumber(data, p, TRAILER, ROOT)
    case None => None
    case Some((declared, q)) =>
      if declared == size == |offsets| + 1 then ReadRoot(data, table, q, offsets) else None
  }

  function ReadRoot(data: string, table: nat, p: nat, offsets: seq<nat>): Option<Document> {
    match ReadNumber(data, p, "", REFERENCE)
    case None => None
    case Some((root, _)) =>
      match ReadBodies(data, offsets + [table], |offsets|)
      case None => None
      case Some(objects) => Some(Document(root, objects))
  }

  function Found(objects: Option<seq<string>>): Option<Document> {
    match objects
    case None => None
    case Some(bodies) => Some(Document(1, bodies))
  }

  /** A stream object's data: as many bytes as its dictionary declares. */
  function ReadStream(body: string): Option<string> {
    match ReadNumber(body, 0, LENGTH, STREAM)
    case None => None
    case Some((size, p)) =>
      if p + size <= |body| && body[p + size..] == END_STREAM then Some(body[p..p + size]) else None
  }

  // ------------------------------------------------------------------------ round trips

  lemma AtMiddle(a: string, b: string, c: string)
    ensures At(a + b + c, |a|, b)
  {}

  lemma Regroup(a: string, b: string, c: string, d: string, e: string)
    ensures a + (b + c + d) + e == a + b + (c + d + e)
    ensures a + (b + c + d) + e == (a + b) + c + (d + e)
    ensures a + (b + c + d) + e == (a + b + c) + d + e
  {}

  lemma NumberBack(a: string, before: string, n: nat, after: string, b: string)
    requires after != [] && !IsDigit(after[0])
    ensures
      ReadNumber(a + (before + Decimal(n) + after) + b, |a|, before, after)
      == Some((n, |a + (before + Decimal(n) + after)|))
  {
    var digits := Decimal(n);
    DecimalValue(n);
    Regroup(a, before, digits, after, b);
    AtMiddle(a, before, digits + after + b);
    RunAt(a + before, digits, after + b);
    AtMiddle(a + before + digits, after, b);
  }

  /** The declared length of a stream is the number of bytes between its markers, so the data
      come back whole whatever they contain. */
  lemma StreamBack(content: string)
    ensures ReadStream(StreamObject(content)) == Some(content)
  {
    var body, n := StreamObject(content), |content|;
    assert body == "" + (LENGTH + Decimal(n) + STREAM) + (content + END_STREAM);
    NumberBack("", LENGTH, n, STREAM, content + END_STREAM);
    var p := |LENGTH| + |Decimal(n)| + |STREAM|;
    assert body == (LENGTH + Decimal(n) + STREAM) + content + END_STREAM;
    assert body[p..p + n] == content;
    assert body[p + n..] == END_STREAM;
  }

  const WIDE := 10_000_000_000

  lemma Pow10Ten()
    ensures Pow10(10) == WIDE
  {
    assert Pow10(5) == 100000;
    assert Pow10(10) == 100000 * Pow10(5);
  }

  lemma EntryWidth(offset: nat)
    ensures |Entry(offset)| == 20 <==> offset < WIDE
    ensures |Entry(offset)| >= 20
  {
    Pow10Ten();
    PaddedWidth(offset, 10);
  }

  predicate Narrow(offsets: seq<nat>, k: nat)
    requires k <= |offsets|
  {
    forall i :: 0 <= i < k ==> offsets[i] < WIDE
  }

  lemma {:induction false} EntriesWidth(offsets: seq<nat>, k: nat)
    requires k <= |offsets| && Narrow(offsets, k)
    ensures |Entries(offsets, k)| == 20 * k
  {
    if k > 0 {
      EntriesWidth(offsets, k - 1);
      EntryWidth(offsets[k - 1]);
    }
  }

  lemma {:induction false} EntriesPrefix(offsets: seq<nat>, i: nat, k: nat)
    requires i <= k <= |offsets|
    ensures Entries(offsets, i) <= Entries(offsets, k)
  {
    if i < k { EntriesPrefix(offsets, i, k - 1); }
  }

  lemma PrefixAt(before: string, whole: string, after: string, head: string, next: string)
    requires head + next <= whole
    ensures At(before + whole + after, |before| + |head|, next)
  {
    assert whole == head + next + whole[|head| + |next|..];
    var data := before + whole + after;
    forall i | 0 <= i < |next| ensures data[|before| + |head| + i] == next[i] {
      assert (head + next)[|head| + i] == next[i];
    }
  }

  lemma EntryAt(before: string, offsets: seq<nat>, after: string, k: nat, at: nat)
    requires k < |offsets| && at == |before| + |Entries(offsets, k)|
    ensures At(before + Entries(offsets, |offsets|) + after, at, Entry(offsets[k]))
  {
    EntriesPrefix(offsets, k + 1, |offsets|);
    PrefixAt(before, Entries(offsets, |offsets|), after, Entries(offsets, k), Entry(offsets[k]));
  }

  lemma NarrowEntry(data: string, at: nat, offset: nat)
    requires At(data, at, Entry(offset)) && offset < WIDE
    ensures ReadEntry(data, at) == Some(offset)
  {
    EntryWidth(offset);
    PaddedValue(offset, 10);
    var entry, digits := Entry(offset), Padded(offset, 10);
    assert data[at..at + 20] == entry && |digits| == 10;
    assert data[at..at + 10] == entry[..10] == digits;
    assert data[at + 10..at + 20] == entry[10..] == IN_USE;
  }

  /** The eleventh digit stands where the reader wants a space. */
  lemma WideEntry(data: string, at: nat, offset: nat)
    requires At(data, at, Entry(offset)) && offset >= WIDE
    ensures ReadEntry(data, at) == None
  {
    EntryWidth(offset);
    var entry, digits := Entry(offset), Padded(offset, 10);
    assert |digits| > 10;
    assert data[at + 10] == entry[10] == digits[10];
    assert IN_USE[0] == ' ';
    assert data[at + 10] != IN_USE[0];
  }

  lemma EntryRead(data: string, at: nat, offset: nat)
    requires At(data, at, Entry(offset))
    ensures ReadEntry(data, at) == if offset < WIDE then Some(offset) else None
  {
    if offset < WIDE { NarrowEntry(data, at, offset); } else { WideEntry(data, at, offset); }
  }

  lemma EntryThere(before: string, offsets: seq<nat>, after: string, k: nat, at: nat)
    requires k < |offsets| && at == |before| + |Entries(offsets, k)|
    ensures
      ReadEntry(before + Entries(offsets, |offsets|) + after, at)
      == if offsets[k] < WIDE then Some(offsets[k]) else None
  {
    EntryAt(before, offsets, after, k, at);
    EntryRead(before + Entries(offsets, |offsets|) + after, at, offsets[k]);
  }

  lemma EntryBack(data: string, before: string, offsets: seq<nat>, after: string, k: nat, at: nat)
    requires k < |offsets| && Narrow(offsets, k) && at == |before| + 20 * k
    requires data == before + Entries(offsets, |offsets|) + after
    ensures ReadEntry(data, at) == if offsets[k] < WIDE then Some(offsets[k]) else None
  {
    EntriesWidth(offsets, k);
    EntryThere(before, offsets, after, k, at);
  }

  lemma {:induction false} EntriesRead(data: string, p: nat, offsets: seq<nat>, k: nat)
    requires k <= |offsets|
    requires forall i :: 0 <= i < |offsets| && Narrow(offsets, i) ==>
      ReadEntry(data, p + 20 * i) == if offsets[i] < WIDE then Some(offsets[i]) else None
    ensures ReadEntries(data, p, k) == if Narrow(offsets, k) then Some(offsets[..k]) else None
  {
    if k > 0 {
      EntriesRead(data, p, offsets, k - 1);
      assert Narrow(offsets, k) <==> Narrow(offsets, k - 1) && offsets[k - 1] < WIDE;
      assert offsets[..k] == offsets[..k - 1] + [offsets[k - 1]];
    }
  }

  /** The table comes back exactly when every offset fits in ten digits. */
  lemma EntriesBack(before: string, offsets: seq<nat>, after: string)
    ensures
      ReadEntries(before + Entries(offsets, |offsets|) + after, |before|, |offsets|)
      == if Narrow(offsets, |offsets|) then Some(offsets) else None
  {
    var data := before + Entries(offsets, |offsets|) + after;
    forall i | 0 <= i < |offsets| && Narrow(offsets, i)
      ensures ReadEntry(data, |before| + 20 * i) == if offsets[i] < WIDE then Some(offsets[i]) else None
    {
      EntryBack(data, before, offsets, after, i, |before| + 20 * i);
    }
    EntriesRead(data, |before|, offsets, |offsets|);
    assert offsets[..|offsets|] == offsets;
  }

  lemma {:induction false} RenderedPrefix(objects: seq<string>, i: nat, k: nat)
    requires i <= k <= |objects|
    ensures Rendered(objects, i) <= Rendered(objects, k)
  {
    if i < k { RenderedPrefix(objects, i, k - 1); }
  }

  lemma BodyBack(before: string, number: nat, body: string, after: string)
    ensures
      ReadBody(before + Object(number, body) + after, number, |before|, |before + Object(number, body)|) == Some(body)
  {
    var data, head := before + Object(number, body) + after, Decimal(number) + OBJ;
    assert data == before + head + (body + END_OBJ + after);
    AtMiddle(before, head, body + END_OBJ + after);
    assert data == (before + head + body) + END_OBJ + after;
    AtMiddle(before + head + body, END_OBJ, after);
    assert data == (before + head) + body + (END_OBJ + after);
    AtMiddle(before + head, body, END_OBJ + after);
  }

  lemma ObjectBack(objects: seq<string>, after: string, k: nat)
    requires 0 < k <= |objects|
    ensures
      ReadBody(Rendered(objects, |objects|) + after, k, |Rendered(objects, k - 1)|, |Rendered(objects, k)|)
      == Some(objects[k - 1])
  {
    var whole, upTo := Rendered(objects, |objects|), Rendered(objects, k);
    RenderedPrefix(objects, k, |objects|);
    assert whole + after == upTo + (whole[|upTo|..] + after);
    BodyBack(Rendered(objects, k - 1), k, objects[k - 1], whole[|upTo|..] + after);
  }

  lemma {:induction false} BodiesBack(data: string, starts: seq<nat>, objects: seq<string>, k: nat)
    requires k <= |objects| && |starts| == |objects| + 1
    requires forall i :: 0 < i <= |objects| ==> ReadBody(data, i, starts[i - 1], starts[i]) == Some(objects[i - 1])
    ensures ReadBodies(data, starts, k) == Some(objects[..k])
  {
    if k > 0 {
      BodiesBack(data, starts, objects, k - 1);
      assert objects[..k] == objects[..k - 1] + [objects[k - 1]];
    }
  }

  lemma LastBack(a: string, before: string, n: nat, after: string)
    requires before != [] && !IsDigit(before[|before| - 1])
    ensures ReadLast(a + (before + Decimal(n) + after), before, after) == Some(n)
  {
    var digits := Decimal(n);
    DecimalValue(n);
    Regroup(a, before, digits, after, "");
    assert a + (before + digits + after) + "" == a + (before + digits + after);
    assert after + "" == after && digits + after + "" == digits + after;
    AtMiddle(a, before, digits + after);
    RunAt(a + before, digits, after);
    AtMiddle(a + before + digits, after, "");
  }

  /** From the end of the file to the table. */
  lemma StartBack(data: string, before: string, table: nat)
    requires data == before + Ending(table)
    ensures ReadFile(data) == ReadTable(data, table)
  {
    LastBack(before, START, table, END_OF_FILE);
  }

  lemma Five(a: string, b: string, c: string, d: string, e: string)
    ensures a + b + c + d + e == a + b + (c + d + e)
    ensures a + b + c + d + e == (a + b) + c + (d + e)
    ensures a + b + c + d + e == a + (b + c + d + e)
  {}

  lemma HeadBack(data: string, body: string, size: nat, rest: string)
    requires data == body + TableHead(size) + rest
    ensures ReadTable(data, |body|) == ReadRows(data, |body|, size, |body + TableHead(size)|)
  {
    NumberBack(body, XREF, size, FREE, rest);
  }

  lemma RowsBack(data: string, table: nat, before: string, offsets: seq<nat>, after: string)
    requires data == before + Entries(offsets, |offsets|) + after
    ensures
      ReadRows(data, table, |offsets| + 1, |before|)
      == if Narrow(offsets, |offsets|)
         then ReadTrailer(data, table, |offsets| + 1, |before + Entries(offsets, |offsets|)|, offsets)
         else None
  {
    hide ReadEntries, ReadTrailer, Narrow, Entries;
    EntriesBack(before, offsets, after);
    if Narrow(offsets, |offsets|) { EntriesWidth(offsets, |offsets|); }
  }

  lemma RootBack(data: string, table: nat, before: string, offsets: seq<nat>, rest: string)
    requires data == before + ("" + Decimal(1) + REFERENCE) + rest
    ensures ReadRoot(data, table, |before|, offsets) == Found(ReadBodies(data, offsets + [table], |offsets|))
  {
    NumberBack(before, "", 1, REFERENCE, rest);
    hide ReadNumber, ReadBodies;
  }

  lemma TrailerBack(data: string, table: nat, before: string, offsets: seq<nat>, rest: string)
    requires data == before + TrailerHead(|offsets| + 1) + rest
    ensures
      ReadTrailer(data, table, |offsets| + 1, |before|, offsets)
      == Found(ReadBodies(data, offsets + [table], |offsets|))
  {
    var head, root := TRAILER + Decimal(|offsets| + 1) + ROOT, "" + Decimal(1) + REFERENCE;
    Twice(before, head, root, rest);
    NumberBack(before, TRAILER, |offsets| + 1, ROOT, root + rest);
    RootBack(data, table, before + head, offsets, rest);
    hide ReadNumber, ReadBodies, ReadRoot;
  }

  lemma Twice(a: string, b: string, c: string, d: string)
    ensures a + (b + c) + d == a + b + (c + d)
    ensures a + (b + c) + d == (a + b) + c + d
  {}

  /** What the reader finds at the table's offset. */
  lemma TableBack(data: string, body: string, head: string, offsets: seq<nat>, trailer: string, tail: string)
    requires head == TableHead(|offsets| + 1) && trailer == TrailerHead(|offsets| + 1)
    requires data == body + head + Entries(offsets, |offsets|) + trailer + tail
    ensures
      ReadTable(data, |body|)
      == if Narrow(offsets, |offsets|) then Found(ReadBodies(data, offsets + [|body|], |offsets|)) else None
  {
    var entries := Entries(offsets, |offsets|);
    Five(body, head, entries, trailer, tail);
    HeadBack(data, body, |offsets| + 1, entries + trailer + tail);
    RowsBack(data, |body|, body + head, offsets, trailer + tail);
    TrailerBack(data, |body|, body + head + entries, offsets, tail);
  }

  lemma ObjectsBack(data: string, objects: seq<string>, after: string)
    requires data == Rendered(objects, |objects|) + after
    ensures
      var n := |objects|;
      ReadBodies(data, Offsets(objects, n) + [|Rendered(objects, n)|], n) == Some(objects)
  {
    hide ReadBody, Rendered;
    var n := |objects|;
    var starts := Offsets(objects, n) + [|Rendered(objects, n)|];
    forall i | 0 < i <= n ensures ReadBody(data, i, starts[i - 1], starts[i]) == Some(objects[i - 1]) {
      ObjectBack(objects, after, i);
    }
    BodiesBack(data, starts, objects, n);
    assert objects[..n] == objects;
  }

  lemma WholeBack(data: string, body: string, head: string, offsets: seq<nat>, trailer: string)
    requires head == TableHead(|offsets| + 1) && trailer == TrailerHead(|offsets| + 1)
    requires data == body + head + Entries(offsets, |offsets|) + trailer + Ending(|body|)
    ensures
      ReadFile(data)
      == if Narrow(offsets, |offsets|) then Found(ReadBodies(data, offsets + [|body|], |offsets|)) else None
  {
    StartBack(data, body + head + Entries(offsets, |offsets|) + trailer, |body|);
    TableBack(data, body, head, offsets, trailer, Ending(|body|));
  }

  lemma FileBack(objects: seq<string>)
    ensures
      ReadFile(File(objects))
      == if Narrow(Offsets(objects, |objects|), |objects|) then Some(Document(1, objects)) else None
  {
    var n, data := |objects|, File(objects);
    var body, offsets := Rendered(objects, n), Offsets(objects, n);
    var head, entries, trailer, end := TableHead(n + 1), Entries(offsets, |offsets|), TrailerHead(n + 1), Ending(|body|);
    Five(body, head, entries, trailer, end);
    ObjectsBack(data, objects, head + entries + trailer + end);
    WholeBack(data, body, head, offsets, trailer);
  }

  /** The last object starts within reach of a ten-digit offset. */
  predicate Fits(objects: seq<string>) {
    objects == [] || |Rendered(objects, |objects| - 1)| < WIDE
  }

  /** The reader gets exactly the writer's objects back, for every list of objects whose last
      one starts below ten gigabytes; every other file it rejects. */
  lemma FileRoundTrip(objects: seq<string>)
    ensures ReadFile(File(objects)) == if Fits(objects) then Some(Document(1, objects)) else None
  {
    FileBack(objects);
    var n := |objects|;
    forall i | 0 <= i < n ensures Offsets(objects, n)[i] <= |Rendered(objects, n - 1)| {
      RenderedPrefix(objects, i, n - 1);
    }
    assert n > 0 ==> Offsets(objects, n)[n - 1] == |Rendered(objects, n - 1)|;
  }
}
