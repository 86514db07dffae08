/** The recovery report of backend/internal/report/pdf.go, from its fields to its bytes. */
module PdfReport {
  import opened Prelude
  import opened Decimals
  import PdfContent
  import PdfFile

  /** `generatedAt` is already in RFC 3339 form. */
  datatype RecoveryReport = RecoveryReport(
    asset: string, source: string, snapshot: string, sandbox: string, assessment: string,
    confidence: string, limitations: string, snapshotAge: string, rpo: string, rto: string,
    rpoResult: string, rtoResult: string, generatedAt: string,
    validations: seq<string>, evidence: seq<string>)

  const CATALOG := "<< /Type /Catalog /Pages 2 0 R >>"
  const PAGES := "<< /Type /Pages /Kids [3 0 R] /Count 1 >>"
  const BOX := " /MediaBox [0 0 612 842]"
  const PAGE_START := "<< /Type /Page /Parent 2 0 R" + BOX
  const PAGE_MIDDLE := " /Resources << /Font << /F1 4 0 R >> >>"
  const PAGE_END := " /Contents 5 0 R >>"
  const PAGE := PAGE_START + PAGE_MIDDLE + PAGE_END
  const FONT := "<< /Type /Font /Subtype /Type1 /BaseFont /Helvetica >>"
  const CONDITIONS :=
    "This report represents the results " + "of a controlled recovery drill " + "under the tested conditions."
  const DISCLAIMER := "It does not guarantee recovery " + "under every production " + "disaster scenario."

  function Join(parts: seq<string>): string {
    if parts == [] then "" else if |parts| == 1 then parts[0] else parts[0] + ", " + Join(parts[1..])
  }

  function Lines(r: RecoveryReport): seq<string> {
    [ "Recovery Verification Report",
      "Generated: " + r.generatedAt,
      "Protected asset: " + r.asset,
      "Backup source: " + r.source,
      "Snapshot: " + r.snapshot,
      "Snapshot age: " + r.snapshotAge,
      "Sandbox: " + r.sandbox,
      "Measured RPO: " + r.rpo + " (" + r.rpoResult + ")",
      "Measured RTO: " + r.rto + " (" + r.rtoResult + ")",
      "Assessment: " + r.assessment,
      "Recovery confidence: " + r.confidence,
      "Validations: " + Join(r.validations),
      "Evidence: " + Join(r.evidence),
      "Limitations: " + r.limitations,
      CONDITIONS,
      DISCLAIMER ]
  }

  function Objects(content: string): seq<string> {
    [CATALOG, PAGES, PAGE, FONT, PdfFile.StreamObject(content)]
  }

  // ----------------------------------------------------------------------------- reader

  const CATALOG_HEAD := "<< /Type /Catalog /Pages "
  const PAGES_HEAD := "<< /Type /Pages /Kids ["
  const PAGES_TAIL := " 0 R] /Count 1 >>"
  const PAGE_HEAD := "<< /Type /Page /Parent "
  const PAGE_BOX := " 0 R" + BOX
  const PAGE_RESOURCES := " /Resources << /Font << /F1 "
  const PAGE_FONT := PAGE_BOX + PAGE_RESOURCES
  const FONT_END := " 0 R >> >>"
  const PAGE_CONTENTS := FONT_END + " /Contents "
  const REF_END := " 0 R >>"

  function Target(objects: seq<string>, n: nat): Option<string> {
    if 1 <= n <= |objects| then Some(objects[n - 1]) else None
  }

  /** The object that a dictionary names between two fixed texts that fill it. */
  function Follow(body: string, head: string, tail: string): Option<nat> {
    match PdfFile.ReadNumber(body, 0, head, tail)
    case Some((n, p)) => if p == |body| then Some(n) else None
    case None => None
  }

  /** What a page refers to. */
  datatype PageRefs = PageRefs(parent: nat, font: nat, contents: nat)

  function ReadPage(body: string): Option<PageRefs> {
    match PdfFile.ReadNumber(body, 0, PAGE_HEAD, PAGE_FONT)
    case None => None
    case Some((parent, p)) =>
      match PdfFile.ReadNumber(body, p, "", PAGE_CONTENTS)
      case None => None
      case Some((font, q)) =>
        match PdfFile.ReadNumber(body, q, "", REF_END)
        case None => None
        case Some((contents, end)) => if end == |body| then Some(PageRefs(parent, font, contents)) else None
  }

  /** The viewer: from the catalogue to the page tree, from there to the one page, whose parent
      and font must be what it says, and from there to its content stream. */
  function Read(data: string): Option<seq<PdfContent.Shown>> {
    match PdfFile.ReadFile(data)
    case None => None
    case Some(doc) =>
      match Target(doc.objects, doc.root)
      case None => None
      case Some(catalog) =>
        match Follow(catalog, CATALOG_HEAD, REF_END)
        case None => None
        case Some(pages) => ReadPages(doc.objects, pages)
  }

  function ReadPages(objects: seq<string>, pages: nat): Option<seq<PdfContent.Shown>> {
    match Target(objects, pages)
    case None => None
    case Some(tree) =>
      match Follow(tree, PAGES_HEAD, PAGES_TAIL)
      case None => None
      case Some(kid) => ShowPage(objects, pages, kid)
  }

  function ShowPage(objects: seq<string>, pages: nat, kid: nat): Option<seq<PdfContent.Shown>> {
    match Target(objects, kid)
    case None => None
    case Some(page) =>
      match ReadPage(page)
      case None => None
      case Some(refs) =>
        if refs.parent != pages || Target(objects, refs.font) != Some(FONT) then None
        else ShowStream(objects, refs.contents)
  }

  function ShowStream(objects: seq<string>, contents: nat): Option<seq<PdfContent.Shown>> {
    match Target(objects, contents)
    case None => None
    case Some(stream) =>
      match PdfFile.ReadStream(stream)
      case None => None
      case Some(content) => PdfContent.Show(content)
  }

  // ------------------------------------------------------------------------ round trip

  lemma Digits()
    ensures Decimal(2) == "2" && Decimal(3) == "3" && Decimal(4) == "4" && Decimal(5) == "5"
  {}

  lemma FollowBack(body: string, head: string, n: nat, tail: string)
    requires body == head + Decimal(n) + tail && tail != "" && !IsDigit(tail[0])
    ensures Follow(body, head, tail) == Some(n)
  {
    PdfFile.NumberBack("", head, n, tail, "");
    assert "" + (head + Decimal(n) + tail) + "" == body;
  }

  lemma CatalogBack()
    ensures Follow(CATALOG, CATALOG_HEAD, REF_END) == Some(2)
  {
    Digits();
    assert CATALOG == CATALOG_HEAD + "2" + REF_END;
    FollowBack(CATALOG, CATALOG_HEAD, 2, REF_END);
  }

  lemma PagesBack()
    ensures Follow(PAGES, PAGES_HEAD, PAGES_TAIL) == Some(3)
  {
    Digits();
    assert PAGES == PAGES_HEAD + "3" + PAGES_TAIL;
    FollowBack(PAGES, PAGES_HEAD, 3, PAGES_TAIL);
  }

  lemma StartSpelled()
    ensures PAGE_START == PAGE_HEAD + "2" + PAGE_BOX
  {
    assert "<< /Type /Page /Parent 2 0 R" == PAGE_HEAD + "2" + " 0 R";
  }

  lemma RestSpelled()
    ensures PAGE_MIDDLE == PAGE_RESOURCES + "4" + FONT_END
    ensures PAGE_END == " /Contents " + "5" + REF_END
  {}

  lemma PageSpelled()
    ensures PAGE == (PAGE_HEAD + "2" + PAGE_FONT) + ("" + "4" + PAGE_CONTENTS) + ("" + "5" + REF_END)
  {
    StartSpelled();
    RestSpelled();
    Respelled(PAGE_HEAD, "2", PAGE_BOX, PAGE_RESOURCES, "4", FONT_END, " /Contents ", "5", REF_END);
  }

  lemma Respelled(
    a: string, b: string, c: string, d: string, e: string, f: string, g: string, h: string, i: string)
    ensures (a + b + c) + (d + e + f) + (g + h + i) == (a + b + (c + d)) + ("" + e + (f + g)) + ("" + h + i)
  {
    assert (a + b + c) + (d + e + f) == (a + b + (c + d)) + e + f;
    assert "" + e + (f + g) == e + (f + g);
    assert "" + h + i == h + i;
  }

  lemma FirstNumber(data: string, head: string, n: nat, tail: string, rest: string)
    requires data == (head + Decimal(n) + tail) + rest && tail != "" && !IsDigit(tail[0])
    ensures PdfFile.ReadNumber(data, 0, head, tail) == Some((n, |head + Decimal(n) + tail|))
  {
    PdfFile.NumberBack("", head, n, tail, rest);
    assert "" + (head + Decimal(n) + tail) == head + Decimal(n) + tail;
  }

  lemma LastNumber(data: string, before: string, n: nat, tail: string)
    requires data == before + ("" + Decimal(n) + tail) && tail != "" && !IsDigit(tail[0])
    ensures PdfFile.ReadNumber(data, |before|, "", tail) == Some((n, |data|))
  {
    PdfFile.NumberBack(before, "", n, tail, "");
    assert data + "" == data;
  }

  lemma PageBack()
    ensures ReadPage(PAGE) == Some(PageRefs(2, 4, 5))
  {
    var first, second, third := PAGE_HEAD + "2" + PAGE_FONT, "" + "4" + PAGE_CONTENTS, "" + "5" + REF_END;
    hide PdfFile.ReadNumber;
    Digits();
    PageSpelled();
    assert first + second + third == first + (second + third);
    assert PAGE_FONT[0] == ' ' && PAGE_CONTENTS[0] == ' ';
    FirstNumber(PAGE, PAGE_HEAD, 2, PAGE_FONT, second + third);
    PdfFile.NumberBack(first, "", 4, PAGE_CONTENTS, third);
    LastNumber(PAGE, first + second, 5, REF_END);
  }

  /** The only object of unbounded size is the last, so no offset depends on the report. */
  lemma ObjectsFit(content: string)
    ensures PdfFile.Fits(Objects(content))
  {
    var objects := Objects(content);
    assert |PdfFile.Rendered(objects, 0)| == 9;
    assert |PdfFile.Rendered(objects, 1)| == |PdfFile.Rendered(objects, 0)| + |PdfFile.Object(1, CATALOG)|;
    assert |PdfFile.Rendered(objects, 2)| == |PdfFile.Rendered(objects, 1)| + |PdfFile.Object(2, PAGES)|;
    assert |PdfFile.Rendered(objects, 3)| == |PdfFile.Rendered(objects, 2)| + |PdfFile.Object(3, PAGE)|;
    assert |PdfFile.Rendered(objects, 4)| == |PdfFile.Rendered(objects, 3)| + |PdfFile.Object(4, FONT)|;
  }

  lemma ReadBack(lines: seq<string>)
    ensures Read(PdfFile.File(Objects(PdfContent.Content(lines)))) == Some(PdfContent.Page(lines, 0))
  {
    var content := PdfContent.Content(lines);
    var objects := Objects(content);
    ObjectsFit(content);
    PdfFile.FileRoundTrip(objects);
    CatalogBack();
    PagesBack();
    PageBack();
    PdfFile.StreamBack(content);
    PdfContent.ContentShows(lines);
    hide Follow, ReadPage, PdfFile.ReadFile, PdfFile.ReadStream, PdfContent.Show;
  }

  // ------------------------------------------------------------- what the page shows

  /** The viewer shows exactly this text in the place of line `i`. */
  predicate Shows(page: seq<PdfContent.Shown>, i: nat, text: string) {
    i < |page| && page[i] == PdfContent.Shown(if i == 0 then 16 else 10, 50, 790 - 24 * i, text)
  }

  /** Each field of the report, unprintable characters as spaces, after its label. */
  predicate ShowsReport(page: seq<PdfContent.Shown>, r: RecoveryReport) {
    && |page| == 16
    && Shows(page, 0, "Recovery Verification Report")
    && ShowsSource(page, r) && ShowsSnapshot(page, r) && ShowsObjectives(page, r) && ShowsVerdict(page, r)
    && Shows(page, 14,
         "This report represents the results " + "of a controlled recovery drill " + "under the tested conditions.")
    && Shows(page, 15, "It does not guarantee recovery " + "under every production " + "disaster scenario.")
  }

  predicate ShowsSource(page: seq<PdfContent.Shown>, r: RecoveryReport) {
    && Shows(page, 1, "Generated: " + PdfContent.Sanitise(r.generatedAt))
    && Shows(page, 2, "Protected asset: " + PdfContent.Sanitise(r.asset))
    && Shows(page, 3, "Backup source: " + PdfContent.Sanitise(r.source))
  }

  predicate ShowsSnapshot(page: seq<PdfContent.Shown>, r: RecoveryReport) {
    && Shows(page, 4, "Snapshot: " + PdfContent.Sanitise(r.snapshot))
    && Shows(page, 5, "Snapshot age: " + PdfContent.Sanitise(r.snapshotAge))
    && Shows(page, 6, "Sandbox: " + PdfContent.Sanitise(r.sandbox))
  }

  predicate ShowsObjectives(page: seq<PdfContent.Shown>, r: RecoveryReport) {
    && Shows(page, 7, "Measured RPO: " + PdfContent.Sanitise(r.rpo) + " (" + PdfContent.Sanitise(r.rpoResult) + ")")
    && Shows(page, 8, "Measured RTO: " + PdfContent.Sanitise(r.rto) + " (" + PdfContent.Sanitise(r.rtoResult) + ")")
  }

  predicate ShowsVerdict(page: seq<PdfContent.Shown>, r: RecoveryReport) {
    && Shows(page, 9, "Assessment: " + PdfContent.Sanitise(r.assessment))
    && Shows(page, 10, "Recovery confidence: " + PdfContent.Sanitise(r.confidence))
    && Shows(page, 11, "Validations: " + PdfContent.Sanitise(Join(r.validations)))
    && Shows(page, 12, "Evidence: " + PdfContent.Sanitise(Join(r.evidence)))
    && Shows(page, 13, "Limitations: " + PdfContent.Sanitise(r.limitations))
  }

  lemma SanitisePrintable(s: string)
    requires PdfContent.Printable(s)
    ensures PdfContent.Sanitise(s) == s
  {}

  lemma SanitiseAppend(a: string, b: string)
    ensures PdfContent.Sanitise(a + b) == PdfContent.Sanitise(a) + PdfContent.Sanitise(b)
  {}

  lemma Labelled(name: string, field: string)
    requires PdfContent.Printable(name)
    ensures PdfContent.Sanitise(name + field) == name + PdfContent.Sanitise(field)
  {
    SanitiseAppend(name, field);
    SanitisePrintable(name);
  }

  lemma Measured(name: string, value: string, result: string)
    requires PdfContent.Printable(name)
    ensures PdfContent.Sanitise(name + value + " (" + result + ")")
         == name + PdfContent.Sanitise(value) + " (" + PdfContent.Sanitise(result) + ")"
  {
    SanitiseAppend(name + value + " (" + result, ")");
    SanitiseAppend(name + value + " (", result);
    SanitiseAppend(name + value, " (");
    Labelled(name, value);
    SanitisePrintable(" (");
    SanitisePrintable(")");
  }

  lemma PrintableThree(a: string, b: string, c: string)
    requires PdfContent.Printable(a) && PdfContent.Printable(b) && PdfContent.Printable(c)
    ensures PdfContent.Printable(a + b + c)
  {}

  lemma PrintableConditions()
    ensures PdfContent.Printable(CONDITIONS)
  {
    PrintableThree("This report represents the results ", "of a controlled recovery drill ", "under the tested conditions.");
  }

  lemma PrintableDisclaimer()
    ensures PdfContent.Printable(DISCLAIMER)
  {
    PrintableThree("It does not guarantee recovery ", "under every production ", "disaster scenario.");
  }

  lemma LineShown(r: RecoveryReport, i: nat, text: string)
    requires i < 16 && PdfContent.Sanitise(Lines(r)[i]) == text
    ensures Shows(PdfContent.Page(Lines(r), 0), i, text)
  {}

  lemma FixedLine(r: RecoveryReport, i: nat, text: string)
    requires i < 16 && Lines(r)[i] == text && PdfContent.Printable(text)
    ensures Shows(PdfContent.Page(Lines(r), 0), i, text)
  {
    SanitisePrintable(text);
    LineShown(r, i, text);
  }

  lemma FixedLines(r: RecoveryReport)
    ensures var page := PdfContent.Page(Lines(r), 0);
      && |page| == 16 && Shows(page, 0, "Recovery Verification Report")
      && Shows(page, 14, CONDITIONS) && Shows(page, 15, DISCLAIMER)
  {
    hide Shows, Join;
    FixedLine(r, 0, "Recovery Verification Report");
    PrintableConditions();
    FixedLine(r, 14, CONDITIONS);
    PrintableDisclaimer();
    FixedLine(r, 15, DISCLAIMER);
  }

  lemma PageShows(r: RecoveryReport)
    ensures ShowsReport(PdfContent.Page(Lines(r), 0), r)
  {
    FixedLines(r);
    SourceLines(r);
    SnapshotLines(r);
    ObjectiveLines(r);
    VerdictLines(r);
    hide Shows, Join, Lines;
  }

  lemma SourceLines(r: RecoveryReport)
    ensures ShowsSource(PdfContent.Page(Lines(r), 0), r)
  {
    hide Shows, Join;
    LabelledLine(r, 1, "Generated: ", r.generatedAt);
    LabelledLine(r, 2, "Protected asset: ", r.asset);
    LabelledLine(r, 3, "Backup source: ", r.source);
  }

  lemma SnapshotLines(r: RecoveryReport)
    ensures ShowsSnapshot(PdfContent.Page(Lines(r), 0), r)
  {
    hide Shows, Join;
    LabelledLine(r, 4, "Snapshot: ", r.snapshot);
    LabelledLine(r, 5, "Snapshot age: ", r.snapshotAge);
    LabelledLine(r, 6, "Sandbox: ", r.sandbox);
  }

  lemma ObjectiveLines(r: RecoveryReport)
    ensures ShowsObjectives(PdfContent.Page(Lines(r), 0), r)
  {
    hide Shows, Join;
    MeasuredLine(r, 7, "Measured RPO: ", r.rpo, r.rpoResult);
    MeasuredLine(r, 8, "Measured RTO: ", r.rto, r.rtoResult);
  }

  lemma VerdictLines(r: RecoveryReport)
    ensures ShowsVerdict(PdfContent.Page(Lines(r), 0), r)
  {
    hide Shows, Join;
    LabelledLine(r, 9, "Assessment: ", r.assessment);
    LabelledLine(r, 10, "Recovery confidence: ", r.confidence);
    LabelledLine(r, 11, "Validations: ", Join(r.validations));
    LabelledLine(r, 12, "Evidence: ", Join(r.evidence));
    LabelledLine(r, 13, "Limitations: ", r.limitations);
  }

  lemma LabelledLine(r: RecoveryReport, i: nat, name: string, field: string)
    requires i < 16 && Lines(r)[i] == name + field && PdfContent.Printable(name)
    ensures Shows(PdfContent.Page(Lines(r), 0), i, name + PdfContent.Sanitise(field))
  {
    Labelled(name, field);
    LineShown(r, i, name + PdfContent.Sanitise(field));
  }

  lemma MeasuredLine(r: RecoveryReport, i: nat, name: string, value: string, result: string)
    requires i < 16 && Lines(r)[i] == name + value + " (" + result + ")" && PdfContent.Printable(name)
    ensures Shows(PdfContent.Page(Lines(r), 0), i,
      name + PdfContent.Sanitise(value) + " (" + PdfContent.Sanitise(result) + ")")
  {
    Measured(name, value, result);
    LineShown(r, i, PdfContent.Sanitise(Lines(r)[i]));
  }

  // ---------------------------------------------------- reports told apart by their page

  /** Up to its first `c`, a text is determined. */
  lemma UntilUnique(a: string, s: string, b: string, t: string, c: char)
    requires c !in a && c !in b && (s == "" || s[0] == c) && (t == "" || t[0] == c)
    requires a + s == b + t
    ensures a == b && s == t
  {
    var whole := a + s;
    assert forall i :: 0 <= i < |a| ==> whole[i] == a[i];
    assert forall i :: 0 <= i < |b| ==> whole[i] == b[i];
    assert s != "" ==> whole[|a|] == c;
    assert t != "" ==> whole[|b|] == c;
    assert |a| == |b|;
    assert a == whole[..|a|] && b == whole[..|b|] && s == whole[|a|..] && t == whole[|b|..];
  }

  predicate CommaFree(parts: seq<string>) {
    forall i :: 0 <= i < |parts| ==> ',' !in parts[i]
  }

  /** What follows the first part. */
  function After(parts: seq<string>): string
    requires parts != []
  {
    if |parts| == 1 then "" else ", " + Join(parts[1..])
  }

  lemma Associate(a: string, b: string, c: string)
    ensures a + b + c == a + (b + c)
  {}

  lemma JoinSplits(parts: seq<string>)
    requires parts != []
    ensures Join(parts) == parts[0] + After(parts) && (After(parts) == "" || After(parts)[0] == ',')
    ensures After(parts) == "" <==> |parts| == 1
  {
    if |parts| > 1 {
      var rest := Join(parts[1..]);
      assert Join(parts) == parts[0] + ", " + rest && After(parts) == ", " + rest;
      hide Join, After;
      Associate(parts[0], ", ", rest);
    }
  }

  /** A joined list gives its elements back, in order, when none contains a comma. */
  lemma {:induction false} JoinInjective(xs: seq<string>, ys: seq<string>)
    requires xs != [] && ys != [] && CommaFree(xs) && CommaFree(ys) && Join(xs) == Join(ys)
    ensures xs == ys
  {
    JoinSplits(xs);
    JoinSplits(ys);
    UntilUnique(xs[0], After(xs), ys[0], After(ys), ',');
    if |xs| > 1 {
      assert Join(xs[1..]) == After(xs)[2..] == After(ys)[2..] == Join(ys[1..]);
      JoinInjective(xs[1..], ys[1..]);
      assert xs == [xs[0]] + xs[1..] && ys == [ys[0]] + ys[1..];
    }
  }

  predicate PrintableAll(parts: seq<string>) {
    forall i :: 0 <= i < |parts| ==> PdfContent.Printable(parts[i])
  }

  lemma {:induction false} JoinPrintable(parts: seq<string>)
    requires PrintableAll(parts)
    ensures PdfContent.Printable(Join(parts))
  {
    if |parts| > 1 { JoinPrintable(parts[1..]); }
  }

  /** Printable fields, no parenthesis in a measurement, lists without commas in their elements. */
  predicate Legible(r: RecoveryReport) {
    && PdfContent.Printable(r.generatedAt) && PdfContent.Printable(r.asset) && PdfContent.Printable(r.source)
    && PdfContent.Printable(r.snapshot) && PdfContent.Printable(r.snapshotAge) && PdfContent.Printable(r.sandbox)
    && LegibleResult(r.rpo, r.rpoResult) && LegibleResult(r.rto, r.rtoResult)
    && PdfContent.Printable(r.assessment) && PdfContent.Printable(r.confidence) && PdfContent.Printable(r.limitations)
    && LegibleList(r.validations) && LegibleList(r.evidence)
  }

  predicate LegibleResult(value: string, result: string) {
    PdfContent.Printable(value) && PdfContent.Printable(result) && '(' !in value
  }

  predicate LegibleList(parts: seq<string>) { parts != [] && PrintableAll(parts) && CommaFree(parts) }

  lemma SameField(page: seq<PdfContent.Shown>, i: nat, name: string, a: string, b: string)
    requires PdfContent.Printable(a) && PdfContent.Printable(b)
    requires Shows(page, i, name + PdfContent.Sanitise(a)) && Shows(page, i, name + PdfContent.Sanitise(b))
    ensures a == b
  {
    SanitisePrintable(a);
    SanitisePrintable(b);
    assert a == (name + a)[|name|..] && b == (name + b)[|name|..];
  }

  lemma SameResult(page: seq<PdfContent.Shown>, i: nat, name: string, v: string, r: string, w: string, q: string)
    requires LegibleResult(v, r) && LegibleResult(w, q)
    requires Shows(page, i, name + PdfContent.Sanitise(v) + " (" + PdfContent.Sanitise(r) + ")")
    requires Shows(page, i, name + PdfContent.Sanitise(w) + " (" + PdfContent.Sanitise(q) + ")")
    ensures v == w && r == q
  {
    SanitisePrintable(v);
    SanitisePrintable(r);
    SanitisePrintable(w);
    SanitisePrintable(q);
    SameParts(name, v, r, w, q);
  }

  lemma SameParts(name: string, v: string, r: string, w: string, q: string)
    requires '(' !in v && '(' !in w && name + v + " (" + r + ")" == name + w + " (" + q + ")"
    ensures v == w && r == q
  {
    assert name + v + " (" + r + ")" == name + ((v + " ") + ("(" + r + ")"));
    assert name + w + " (" + q + ")" == name + ((w + " ") + ("(" + q + ")"));
    var x, y := (v + " ") + ("(" + r + ")"), (w + " ") + ("(" + q + ")");
    assert x == (name + x)[|name|..] && y == (name + y)[|name|..];
    UntilUnique(v + " ", "(" + r + ")", w + " ", "(" + q + ")", '(');
    assert v == (v + " ")[..|v|] && w == (w + " ")[..|w|];
    assert r == ("(" + r + ")")[1..|r| + 1] && q == ("(" + q + ")")[1..|q| + 1];
  }

  lemma SameList(page: seq<PdfContent.Shown>, i: nat, name: string, xs: seq<string>, ys: seq<string>)
    requires LegibleList(xs) && LegibleList(ys)
    requires Shows(page, i, name + PdfContent.Sanitise(Join(xs))) && Shows(page, i, name + PdfContent.Sanitise(Join(ys)))
    ensures xs == ys
  {
    JoinPrintable(xs);
    JoinPrintable(ys);
    SameField(page, i, name, Join(xs), Join(ys));
    JoinInjective(xs, ys);
  }

  /** A page is the page of one legible report only: whichever field differs, the page does. */
  lemma PageTells(page: seq<PdfContent.Shown>, r: RecoveryReport, q: RecoveryReport)
    requires ShowsReport(page, r) && ShowsReport(page, q) && Legible(r) && Legible(q)
    ensures r == q
  {
    hide Shows, LegibleResult, LegibleList, PdfContent.Printable, Join;
    SameField(page, 1, "Generated: ", r.generatedAt, q.generatedAt);
    SameField(page, 2, "Protected asset: ", r.asset, q.asset);
    SameField(page, 3, "Backup source: ", r.source, q.source);
    SameField(page, 4, "Snapshot: ", r.snapshot, q.snapshot);
    SameField(page, 5, "Snapshot age: ", r.snapshotAge, q.snapshotAge);
    SameField(page, 6, "Sandbox: ", r.sandbox, q.sandbox);
    SameResult(page, 7, "Measured RPO: ", r.rpo, r.rpoResult, q.rpo, q.rpoResult);
    SameResult(page, 8, "Measured RTO: ", r.rto, r.rtoResult, q.rto, q.rtoResult);
    SameField(page, 9, "Assessment: ", r.assessment, q.assessment);
    SameField(page, 10, "Recovery confidence: ", r.confidence, q.confidence);
    SameList(page, 11, "Validations: ", r.validations, q.validations);
    SameList(page, 12, "Evidence: ", r.evidence, q.evidence);
    SameField(page, 13, "Limitations: ", r.limitations, q.limitations);
  }

  /** Without those conditions it can fail: a parenthesis in a measurement and a comma in an
      element are two reports' difference that no page shows. */
  lemma PagesAlike(r: RecoveryReport)
    ensures Lines(r.(rpo := "1 (a", rpoResult := "b")) == Lines(r.(rpo := "1", rpoResult := "a (b"))
    ensures Lines(r.(evidence := ["a, b"])) == Lines(r.(evidence := ["a", "b"]))
  {
    var x, y := r.(rpo := "1 (a", rpoResult := "b"), r.(rpo := "1", rpoResult := "a (b");
    assert Lines(x)[7] == Lines(y)[7];
    var v, w := r.(evidence := ["a, b"]), r.(evidence := ["a", "b"]);
    assert Join(["a", "b"]) == "a" + ", " + Join(["b"]) by { assert ["a", "b"][1..] == ["b"]; }
    assert Join(v.evidence) == Join(w.evidence);
  }

  /** Every report, of any size and with any characters in its fields, is read back as a page
      that shows each of its fields, sanitised, after its label and in its place. */
  method GeneratePDF(r: RecoveryReport) returns (out: string)
    ensures Read(out).Some? && ShowsReport(Read(out).value, r)
    ensures Read(out) == Some(PdfContent.Page(Lines(r), 0))
    ensures out == PdfFile.File(Objects(PdfContent.Content(Lines(r))))
  {
    var lines := Lines(r);
    var content := PdfContent.WriteContent(lines);
    out := PdfFile.WriteFile([CATALOG, PAGES, PAGE, FONT, PdfFile.StreamObject(content)]);
    ReadBack(lines);
    PageShows(r);
    hide ShowsReport, Read;
  }
}
