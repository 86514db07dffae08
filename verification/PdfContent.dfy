/** The page content written by backend/internal/report/pdf.go, and a reader for it: the
    literal strings of section 7.3.4.2 of ISO 32000-1:2008, the tokens of 7.2, and the text
    operators of 9.2 to 9.4 that the page uses. */
module PdfContent {
  import opened Prelude
  import opened Decimals

  // ----------------------------------------------------------------------------- writer

  predicate Printable(s: string) {
    forall i :: 0 <= i < |s| ==> ' ' <= s[i] <= '~'
  }

  /** Everything outside printable ASCII becomes a space. */
  function Sanitise(s: string): (r: string)
    ensures |r| == |s| && Printable(r)
    ensures forall i :: 0 <= i < |s| ==> r[i] == if ' ' <= s[i] <= '~' then s[i] else ' '
  {
    seq(|s|, i requires 0 <= i < |s| => if ' ' <= s[i] <= '~' then s[i] else ' ')
  }

  function EscapeChar(c: char): string {
    if c == '\\' then "\\\\" else if c == '(' then "\\(" else if c == ')' then "\\)" else [c]
  }

  function Escape(s: string): string {
    if s == "" then "" else EscapeChar(s[0]) + Escape(s[1..])
  }

  const FONT := "/F1 "
  const OPEN := " Tf ("
  const CLOSE := ") Tj 0 -24 Td "
  const BEGIN := "BT /F1 16 Tf 50 790 Td "
  const END := "ET"

  function FontSize(i: nat): nat { if i > 0 then 10 else 16 }

  function Line(i: nat, text: string): string {
    FONT + Decimal(FontSize(i)) + OPEN + Escape(Sanitise(text)) + CLOSE
  }

  function LinesFrom(lines: seq<string>, i: nat): string
    requires i <= |lines|
    decreases |lines| - i
  {
    if i == |lines| then "" else Line(i, lines[i]) + LinesFrom(lines, i + 1)
  }

  function Content(lines: seq<string>): string {
    BEGIN + LinesFrom(lines, 0) + END
  }

  method WriteContent(lines: seq<string>) returns (content: string)
    ensures content == Content(lines)
  {
    content := BEGIN;
    for i := 0 to |lines|
      invariant content + LinesFrom(lines, i) == BEGIN + LinesFrom(lines, 0)
    {
      var size := 16;
      if i > 0 {
        size := 10;
      }
      var line := FONT + Decimal(size) + OPEN + Escape(Sanitise(lines[i])) + CLOSE;
      assert content + (line + LinesFrom(lines, i + 1)) == content + line + LinesFrom(lines, i + 1);
      content := content + line;
    }
    assert content + "" == content;
    content := content + END;
  }

  // ----------------------------------------------------------------------------- reader

  predicate IsOctal(c: char) { '0' <= c <= '7' }

  function OctalValue(s: string): nat
    requires forall i :: 0 <= i < |s| ==> IsOctal(s[i])
  {
    if s == "" then 0
    else
      assert IsOctal(s[|s| - 1]);
      8 * OctalValue(s[..|s| - 1]) + (s[|s| - 1] as int - '0' as int)
  }

  /** How many of the next three characters are octal digits. */
  function OctalRun(s: string): (n: nat)
    ensures n <= 3 && n <= |s| && forall i :: 0 <= i < n ==> IsOctal(s[i])
  {
    if |s| == 0 || !IsOctal(s[0]) then 0
    else if |s| == 1 || !IsOctal(s[1]) then 1
    else if |s| == 2 || !IsOctal(s[2]) then 2
    else 3
  }

  /** What follows a reverse solidus: the character it stands for, if any, and how many
      characters it takes. */
  function Escaped(s: string): (r: (string, nat))
    requires s != ""
    ensures 0 < r.1 <= |s|
  {
    match s[0]
    case 'n' => ("\n", 1)
    case 'r' => ("\r", 1)
    case 't' => ("\t", 1)
    case 'b' => ([8 as char], 1)
    case 'f' => ([12 as char], 1)
    case '\n' => ("", 1)
    case '\r' => ("", if |s| > 1 && s[1] == '\n' then 2 else 1)
    case c =>
      if IsOctal(c) then ([(OctalValue(s[..OctalRun(s)]) % 256) as char], OctalRun(s)) else ([c], 1)
  }

  function Prepend(text: string, r: Option<(string, string)>): Option<(string, string)> {
    match r
    case None => None
    case Some((more, rest)) => Some((text + more, rest))
  }

  /** A literal string after its opening parenthesis, `depth` more being open inside it:
      its text and what follows the closing one. */
  function Literal(s: string, depth: nat): (r: Option<(string, string)>)
    ensures r.Some? ==> |r.value.1| < |s|
    decreases |s|
  {
    if s == "" then None
    else
      match s[0]
      case ')' => if depth == 0 then Some(("", s[1..])) else Prepend(")", Literal(s[1..], depth - 1))
      case '(' => Prepend("(", Literal(s[1..], depth + 1))
      case '\\' =>
        if |s| == 1 then None
        else
          var (text, n) := Escaped(s[1..]);
          Prepend(text, Literal(s[1 + n..], depth))
      case '\r' => Prepend("\n", Literal(if |s| > 1 && s[1] == '\n' then s[2..] else s[1..], depth))
      case c => Prepend([c], Literal(s[1..], depth))
  }

  datatype Token = Text(text: string) | Word(text: string)

  predicate IsSpace(c: char) { c == ' ' || c == '\n' || c == '\r' || c == '\t' || c == 12 as char || c == 0 as char }

  predicate IsDelimiter(c: char) { c in "()<>[]{}/%" }

  predicate IsRegular(c: char) { !IsSpace(c) && !IsDelimiter(c) }

  /** The number of regular characters at the front. */
  function RegularRun(s: string): (n: nat)
    ensures n <= |s| && (forall i :: 0 <= i < n ==> IsRegular(s[i])) && (n < |s| ==> !IsRegular(s[n]))
  {
    if s == "" || !IsRegular(s[0]) then 0 else 1 + RegularRun(s[1..])
  }

  function AfterComment(s: string): (r: string)
    ensures |r| <= |s|
  {
    if s == "" || s[0] == '\n' || s[0] == '\r' then s else AfterComment(s[1..])
  }

  function Tokens(s: string): Option<seq<Token>>
    decreases |s|
  {
    if s == "" then Some([])
    else if IsSpace(s[0]) then Tokens(s[1..])
    else if s[0] == '%' then Tokens(AfterComment(s[1..]))
    else if s[0] == '(' then
      match Literal(s[1..], 0)
      case None => None
      case Some((text, rest)) => Front(Text(text), Tokens(rest))
    else if s[0] == '/' then
      var n := 1 + RegularRun(s[1..]);
      Front(Word(s[..n]), Tokens(s[n..]))
    else if IsDelimiter(s[0]) then None
    else
      var n := RegularRun(s);
      Front(Word(s[..n]), Tokens(s[n..]))
  }

  function Front(t: Token, r: Option<seq<Token>>): Option<seq<Token>> {
    match r
    case None => None
    case Some(more) => Some([t] + more)
  }

  function Number(w: string): Option<int> {
    if w != "" && AllDigits(w) then Option<int>.Some(Value(w))
    else if |w| > 1 && w[0] == '-' && AllDigits(w[1..]) then
      var magnitude: int := Value(w[1..]);
      Some(-magnitude)
    else None
  }

  /** A piece of text on the page: its size and where its line starts. */
  datatype Shown = Shown(size: int, x: int, y: int, text: string)

  datatype TextState = TextState(inText: bool, size: int, x: int, y: int)

  const INITIAL := TextState(false, 0, 0, 0)

  predicate IsOperand(t: Token) {
    t.Text? || Number(t.text).Some? || (t.text != "" && t.text[0] == '/')
  }

  function NumberAt(operands: seq<Token>, i: nat): Option<int>
    requires i < |operands|
  {
    if operands[i].Word? then Number(operands[i].text) else None
  }

  /** One operator: the new state and what it puts on the page. */
  function Operate(op: string, operands: seq<Token>, s: TextState): Option<(TextState, seq<Shown>)> {
    if op == "BT" && operands == [] && !s.inText then Some((TextState(true, s.size, 0, 0), []))
    else if op == "ET" && operands == [] && s.inText then Some((s.(inText := false), []))
    else if op == "Tf" && |operands| == 2 && NumberAt(operands, 1).Some? then
      Some((s.(size := NumberAt(operands, 1).value), []))
    else if op == "Td" && |operands| == 2 && s.inText && NumberAt(operands, 0).Some? && NumberAt(operands, 1).Some? then
      Some((s.(x := s.x + NumberAt(operands, 0).value, y := s.y + NumberAt(operands, 1).value), []))
    else if op == "Tj" && |operands| == 1 && s.inText && operands[0].Text? then
      Some((s, [Shown(s.size, s.x, s.y, operands[0].text)]))
    else None
  }

  function Run(tokens: seq<Token>, operands: seq<Token>, s: TextState): Option<seq<Shown>>
    decreases |tokens|
  {
    if tokens == [] then if operands == [] && !s.inText then Some([]) else None
    else if IsOperand(tokens[0]) then Run(tokens[1..], operands + [tokens[0]], s)
    else
      match Operate(tokens[0].text, operands, s)
      case None => None
      case Some((next, shown)) => Then(shown, Run(tokens[1..], [], next))
  }

  function Then(shown: seq<Shown>, r: Option<seq<Shown>>): Option<seq<Shown>> {
    match r
    case None => None
    case Some(more) => Some(shown + more)
  }

  /** What a viewer shows for a content stream. */
  function Show(content: string): Option<seq<Shown>> {
    match Tokens(content)
    case None => None
    case Some(tokens) => Run(tokens, [], INITIAL)
  }

  // ------------------------------------------------------------------------ round trip

  lemma EscapeBack(c: char, tail: string)
    requires c == '\\' || c == '(' || c == ')'
    ensures Literal("\\" + [c] + tail, 0) == Prepend([c], Literal(tail, 0))
  {
    var s := "\\" + [c] + tail;
    assert s[1..][0] == c && s[2..] == tail;
    assert Escaped(s[1..]) == ([c], 1);
  }

  lemma PlainBack(c: char, tail: string)
    requires ' ' <= c <= '~' && c != '\\' && c != '(' && c != ')'
    ensures Literal([c] + tail, 0) == Prepend([c], Literal(tail, 0))
  {
    assert ([c] + tail)[1..] == tail;
  }

  lemma CharBack(c: char, tail: string)
    requires ' ' <= c <= '~'
    ensures Literal(EscapeChar(c) + tail, 0) == Prepend([c], Literal(tail, 0))
  {
    if c == '\\' || c == '(' || c == ')' {
      EscapeBack(c, tail);
      assert EscapeChar(c) == "\\" + [c];
    } else {
      PlainBack(c, tail);
    }
  }

  lemma EscapeMore(c: char, more: string, tail: string)
    ensures Escape([c] + more) + tail == EscapeChar(c) + (Escape(more) + tail)
  {
    assert ([c] + more)[1..] == more;
  }

  /** The scanner stops at exactly the parenthesis the writer emitted. */
  lemma {:induction false} LiteralBack(text: string, rest: string)
    requires Printable(text)
    ensures Literal(Escape(text) + (")" + rest), 0) == Some((text, rest))
    decreases |text|
  {
    var tail := ")" + rest;
    if text == "" {
      assert Escape(text) + tail == tail;
      assert tail[1..] == rest;
    } else {
      var c, more := text[0], text[1..];
      LiteralBack(more, rest);
      EscapeMore(c, more, tail);
      CharBack(c, Escape(more) + tail);
      assert text == [c] + more;
    }
  }

  lemma TextBack(text: string, rest: string)
    requires Printable(text)
    ensures Tokens("(" + (Escape(text) + (")" + rest))) == Front(Text(text), Tokens(rest))
  {
    var s := "(" + (Escape(text) + (")" + rest));
    assert s[1..] == Escape(text) + (")" + rest);
    LiteralBack(text, rest);
  }

  /** A name or a run of regular characters, as the writer's operands and operators are. */
  predicate IsWord(w: string) {
    w != "" && (w[0] == '/' || IsRegular(w[0])) && forall i :: 1 <= i < |w| ==> IsRegular(w[i])
  }

  lemma {:induction false} RunBack(w: string, rest: string)
    requires forall i :: 0 <= i < |w| ==> IsRegular(w[i])
    requires rest == "" || !IsRegular(rest[0])
    ensures RegularRun(w + rest) == |w|
  {
    if w == "" {
      assert w + rest == rest;
    } else {
      RunBack(w[1..], rest);
      assert (w + rest)[1..] == w[1..] + rest;
    }
  }

  lemma WordBack(w: string, rest: string)
    requires IsWord(w) && (rest == "" || !IsRegular(rest[0]))
    ensures Tokens(w + rest) == Front(Word(w), Tokens(rest))
  {
    var s := w + rest;
    assert s[0] == w[0] && s[..|w|] == w && s[|w|..] == rest;
    if w[0] == '/' {
      assert s[1..] == w[1..] + rest;
      RunBack(w[1..], rest);
    } else {
      RunBack(w, rest);
    }
  }

  lemma SpacedWord(w: string, rest: string)
    requires IsWord(w)
    ensures Tokens(w + (" " + rest)) == Front(Word(w), Tokens(rest))
  {
    WordBack(w, " " + rest);
    assert (" " + rest)[1..] == rest;
  }

  function Spaced(words: seq<string>): string {
    if words == [] then "" else words[0] + (" " + Spaced(words[1..]))
  }

  function Words(words: seq<string>): seq<Token> {
    seq(|words|, i requires 0 <= i < |words| => Word(words[i]))
  }

  function FrontAll(ts: seq<Token>, r: Option<seq<Token>>): Option<seq<Token>> {
    match r
    case None => None
    case Some(more) => Some(ts + more)
  }

  lemma FrontMore(t: Token, ts: seq<Token>, r: Option<seq<Token>>)
    ensures Front(t, FrontAll(ts, r)) == FrontAll([t] + ts, r)
  {
    if r.Some? { assert [t] + (ts + r.value) == [t] + ts + r.value; }
  }

  lemma FrontTwice(a: seq<Token>, b: seq<Token>, r: Option<seq<Token>>)
    ensures FrontAll(a, FrontAll(b, r)) == FrontAll(a + b, r)
  {
    if r.Some? { assert a + (b + r.value) == a + b + r.value; }
  }

  lemma {:induction false} SpacedBack(words: seq<string>, rest: string)
    requires forall i :: 0 <= i < |words| ==> IsWord(words[i])
    ensures Tokens(Spaced(words) + rest) == FrontAll(Words(words), Tokens(rest))
    decreases |words|
  {
    if words == [] {
      assert Spaced(words) + rest == rest;
      assert Words(words) == [];
      assert Tokens(rest).Some? ==> [] + Tokens(rest).value == Tokens(rest).value;
    } else {
      var w, more := words[0], words[1..];
      SpacedBack(more, rest);
      SpacedWord(w, Spaced(more) + rest);
      assert Spaced(words) + rest == w + (" " + (Spaced(more) + rest));
      assert Words(words) == [Word(w)] + Words(more);
      FrontMore(Word(w), Words(more), Tokens(rest));
    }
  }

  const OPENING := ["BT", "/F1", "16", "Tf", "50", "790", "Td"]
  const MOVE := ["Tj", "0", "-24", "Td"]

  lemma StartSpaced()
    ensures Spaced(["50", "790", "Td"]) == "50 790 Td "
  {
    assert Spaced(["Td"]) == "Td ";
    assert Spaced(["790", "Td"]) == "790 Td ";
  }

  lemma FontSpaced()
    ensures Spaced(["16", "Tf", "50", "790", "Td"]) == "16 Tf 50 790 Td "
  {
    StartSpaced();
    assert Spaced(["Tf", "50", "790", "Td"]) == "Tf 50 790 Td ";
  }

  lemma OpeningSpaced()
    ensures BEGIN == Spaced(OPENING)
  {
    FontSpaced();
    assert Spaced(["/F1", "16", "Tf", "50", "790", "Td"]) == "/F1 16 Tf 50 790 Td ";
  }

  lemma OpeningWords()
    ensures forall i :: 0 <= i < |OPENING| ==> IsWord(OPENING[i])
  {}

  lemma MoveWords()
    ensures forall i :: 0 <= i < |MOVE| ==> IsWord(MOVE[i])
  {}

  lemma MoveSpaced()
    ensures CLOSE == ")" + (" " + Spaced(MOVE))
    ensures forall i :: 0 <= i < |MOVE| ==> IsWord(MOVE[i])
  {
    MoveWords();
    hide IsWord;
    assert Spaced(["Td"]) == "Td ";
    assert Spaced(["-24", "Td"]) == "-24 Td ";
    assert Spaced(["0", "-24", "Td"]) == "0 -24 Td ";
  }

  lemma NumeralWord(n: nat)
    ensures IsWord(Decimal(n))
  {
    var w := Decimal(n);
    forall i | 0 <= i < |w| ensures IsRegular(w[i]) {
      assert IsDigit(w[i]);
    }
  }

  function LineWords(i: nat): seq<string> { ["/F1", Decimal(FontSize(i)), "Tf"] }

  lemma LineSpaced(i: nat)
    ensures FONT + Decimal(FontSize(i)) + OPEN == Spaced(LineWords(i)) + "("
    ensures forall k :: 0 <= k < 3 ==> IsWord(LineWords(i)[k])
  {
    var d := Decimal(FontSize(i));
    NumeralWord(FontSize(i));
    assert Spaced(["Tf"]) == "Tf ";
    assert Spaced([d, "Tf"]) == d + " Tf ";
    assert Spaced(LineWords(i)) == "/F1 " + d + " Tf ";
  }

  function LineTokens(i: nat, text: string): seq<Token> {
    Words(LineWords(i)) + ([Text(Sanitise(text))] + Words(MOVE))
  }

  lemma Nested(a: string, open: string, b: string, close: string, space: string, c: string, rest: string)
    ensures (a + open) + b + (close + (space + c)) + rest == a + (open + (b + (close + (space + (c + rest)))))
  {}

  lemma LineShape(i: nat, text: string, rest: string)
    ensures
      Line(i, text) + rest
      == Spaced(LineWords(i)) + ("(" + (Escape(Sanitise(text)) + (")" + (" " + (Spaced(MOVE) + rest)))))
  {
    LineSpaced(i);
    MoveSpaced();
    Nested(Spaced(LineWords(i)), "(", Escape(Sanitise(text)), ")", " ", Spaced(MOVE), rest);
  }

  lemma LineBack(i: nat, text: string, rest: string)
    ensures Tokens(Line(i, text) + rest) == FrontAll(LineTokens(i, text), Tokens(rest))
  {
    var shown, moved := Sanitise(text), Spaced(MOVE) + rest;
    LineShape(i, text, rest);
    assert Tokens(moved) == FrontAll(Words(MOVE), Tokens(rest)) by {
      MoveSpaced();
      SpacedBack(MOVE, rest);
    }
    assert Tokens(" " + moved) == Tokens(moved) by { assert (" " + moved)[1..] == moved; }
    TextBack(shown, " " + moved);
    FrontMore(Text(shown), Words(MOVE), Tokens(rest));
    LineSpaced(i);
    SpacedBack(LineWords(i), "(" + (Escape(shown) + (")" + (" " + moved))));
    FrontTwice(Words(LineWords(i)), [Text(shown)] + Words(MOVE), Tokens(rest));
  }

  function TokensFrom(lines: seq<string>, i: nat): seq<Token>
    requires i <= |lines|
    decreases |lines| - i
  {
    if i == |lines| then [Word("ET")] else LineTokens(i, lines[i]) + TokensFrom(lines, i + 1)
  }

  lemma {:induction false} LinesBack(lines: seq<string>, i: nat)
    requires i <= |lines|
    ensures Tokens(LinesFrom(lines, i) + END) == Some(TokensFrom(lines, i))
    decreases |lines| - i
  {
    if i == |lines| {
      WordBack("ET", "");
      assert LinesFrom(lines, i) + END == "ET" + "";
      assert [Word("ET")] + [] == [Word("ET")];
    } else {
      LinesBack(lines, i + 1);
      LineBack(i, lines[i], LinesFrom(lines, i + 1) + END);
      assert LinesFrom(lines, i) + END == Line(i, lines[i]) + (LinesFrom(lines, i + 1) + END);
    }
  }

  lemma ContentBack(lines: seq<string>)
    ensures Tokens(Content(lines)) == Some(Words(OPENING) + TokensFrom(lines, 0))
  {
    OpeningSpaced();
    OpeningWords();
    LinesBack(lines, 0);
    SpacedBack(OPENING, LinesFrom(lines, 0) + END);
    assert Content(lines) == Spaced(OPENING) + (LinesFrom(lines, 0) + END);
  }

  // ------------------------------------------------------------------- the page it shows

  lemma RunOperand(t: Token, rest: seq<Token>, operands: seq<Token>, s: TextState)
    requires IsOperand(t)
    ensures Run([t] + rest, operands, s) == Run(rest, operands + [t], s)
  {
    assert ([t] + rest)[1..] == rest;
  }

  lemma RunOperator(op: string, rest: seq<Token>, operands: seq<Token>, s: TextState, next: TextState, shown: seq<Shown>)
    requires !IsOperand(Word(op)) && Operate(op, operands, s) == Some((next, shown))
    ensures Run([Word(op)] + rest, operands, s) == Then(shown, Run(rest, [], next))
  {
    assert ([Word(op)] + rest)[1..] == rest;
  }

  /** Operands, then whatever follows. */
  lemma {:induction false} RunOperands(operands: seq<Token>, k: nat, rest: seq<Token>, s: TextState)
    requires k <= |operands| && forall i :: 0 <= i < |operands| ==> IsOperand(operands[i])
    ensures Run(operands[k..] + rest, operands[..k], s) == Run(rest, operands, s)
    decreases |operands| - k
  {
    if k == |operands| {
      assert operands[k..] + rest == rest && operands[..k] == operands;
    } else {
      RunOperands(operands, k + 1, rest, s);
      RunOperand(operands[k], operands[k + 1..] + rest, operands[..k], s);
      assert operands[k..] + rest == [operands[k]] + (operands[k + 1..] + rest);
      assert operands[..k] + [operands[k]] == operands[..k + 1];
    }
  }

  lemma Command(operands: seq<Token>, op: string, rest: seq<Token>, s: TextState, next: TextState, shown: seq<Shown>)
    requires forall i :: 0 <= i < |operands| ==> IsOperand(operands[i])
    requires !IsOperand(Word(op)) && Operate(op, operands, s) == Some((next, shown))
    ensures Run(operands + ([Word(op)] + rest), [], s) == Then(shown, Run(rest, [], next))
  {
    RunOperands(operands, 0, [Word(op)] + rest, s);
    assert operands[0..] == operands && operands[..0] == [];
    RunOperator(op, rest, operands, s, next, shown);
  }

  lemma Operators()
    ensures !IsOperand(Word("BT")) && !IsOperand(Word("ET"))
    ensures !IsOperand(Word("Tf")) && !IsOperand(Word("Td")) && !IsOperand(Word("Tj"))
  {
    assert "BT"[0] == 'B' && "ET"[0] == 'E' && "Tf"[0] == 'T' && "Td"[0] == 'T' && "Tj"[0] == 'T';
  }

  lemma NumeralBack(n: nat)
    ensures Number(Decimal(n)) == Some(n)
  {
    DecimalValue(n);
  }

  lemma TwoDigits(a: nat, b: nat)
    requires 0 < a < 10 && b < 10
    ensures Decimal(10 * a + b) == [Digit(a), Digit(b)]
  {
    assert Decimal(10 * a + b) == Decimal(a) + [Digit(b)];
  }

  lemma Numerals()
    ensures Number("0") == Some(0) && Number("16") == Some(16) && Number("50") == Some(50)
    ensures Number("790") == Some(790) && Number("-24") == Some(-24)
  {
    ShortNumerals();
    LongNumerals();
  }

  lemma ShortNumerals()
    ensures Number("0") == Some(0) && Number("16") == Some(16) && Number("50") == Some(50)
  {
    NumeralBack(0);
    TwoDigits(1, 6);
    NumeralBack(16);
    TwoDigits(5, 0);
    NumeralBack(50);
    assert Digit(0) == '0' && Digit(1) == '1' && Digit(5) == '5' && Digit(6) == '6';
    assert Decimal(0) == "0" && Decimal(16) == "16" && Decimal(50) == "50";
  }

  lemma LongNumerals()
    ensures Number("790") == Some(790) && Number("-24") == Some(-24)
  {
    TwoDigits(7, 9);
    assert Decimal(790) == Decimal(79) + [Digit(0)];
    NumeralBack(790);
    TwoDigits(2, 4);
    DecimalValue(24);
    assert Digit(0) == '0' && Digit(7) == '7' && Digit(9) == '9' && Digit(2) == '2' && Digit(4) == '4';
    assert Decimal(790) == "790" && Decimal(24) == "24";
    assert "-24"[1..] == "24" && !IsDigit("-24"[0]);
  }

  /** Line `i` stands 24 units below the one before it. */
  function Page(lines: seq<string>, i: nat): (r: seq<Shown>)
    requires i <= |lines|
    ensures |r| == |lines| - i
    ensures forall k :: i <= k < |lines| ==> r[k - i] == Shown(FontSize(k), 50, 790 - 24 * k, Sanitise(lines[k]))
    decreases |lines| - i
  {
    if i == |lines| then []
    else [Shown(FontSize(i), 50, 790 - 24 * i, Sanitise(lines[i]))] + Page(lines, i + 1)
  }

  lemma ThenNothing(r: Option<seq<Shown>>)
    ensures Then([], r) == r
  {
    if r.Some? { assert [] + r.value == r.value; }
  }

  lemma FontCommand(w: string, n: int, rest: seq<Token>, s: TextState)
    requires Number(w) == Some(n)
    ensures Run([Word("/F1"), Word(w)] + ([Word("Tf")] + rest), [], s) == Run(rest, [], s.(size := n))
  {
    Operators();
    assert Word("/F1").text[0] == '/';
    Command([Word("/F1"), Word(w)], "Tf", rest, s, s.(size := n), []);
    ThenNothing(Run(rest, [], s.(size := n)));
  }

  lemma TextCommand(text: string, rest: seq<Token>, s: TextState)
    requires s.inText
    ensures
      Run([Text(text)] + ([Word("Tj")] + rest), [], s) == Then([Shown(s.size, s.x, s.y, text)], Run(rest, [], s))
  {
    Operators();
    Command([Text(text)], "Tj", rest, s, s, [Shown(s.size, s.x, s.y, text)]);
  }

  lemma MoveCommand(v: string, x: int, w: string, y: int, rest: seq<Token>, s: TextState)
    requires s.inText && Number(v) == Some(x) && Number(w) == Some(y)
    ensures
      Run([Word(v), Word(w)] + ([Word("Td")] + rest), [], s) == Run(rest, [], s.(x := s.x + x, y := s.y + y))
  {
    Operators();
    Command([Word(v), Word(w)], "Td", rest, s, s.(x := s.x + x, y := s.y + y), []);
    ThenNothing(Run(rest, [], s.(x := s.x + x, y := s.y + y)));
  }

  lemma MoveDown(rest: seq<Token>, s: TextState)
    requires s.inText
    ensures Run([Word("0"), Word("-24")] + ([Word("Td")] + rest), [], s) == Run(rest, [], s.(y := s.y - 24))
  {
    Numerals();
    MoveCommand("0", 0, "-24", -24, rest, s);
  }

  lemma LineCommands(i: nat, text: string, rest: seq<Token>)
    ensures
      LineTokens(i, text) + rest
      == [Word("/F1"), Word(Decimal(FontSize(i)))] + ([Word("Tf")] + ([Text(Sanitise(text))] + ([Word("Tj")] + (
           [Word("0"), Word("-24")] + ([Word("Td")] + rest)))))
  {
    assert Words(MOVE) == [Word("Tj"), Word("0"), Word("-24"), Word("Td")];
    assert Words(LineWords(i)) == [Word("/F1"), Word(Decimal(FontSize(i))), Word("Tf")];
  }

  lemma ShowLine(i: nat, text: string, rest: seq<Token>, s: TextState)
    requires s.inText
    ensures
      Run(LineTokens(i, text) + rest, [], s)
      == Then([Shown(FontSize(i), s.x, s.y, Sanitise(text))],
              Run(rest, [], s.(size := FontSize(i), y := s.y - 24)))
  {
    hide Run;
    var d, t := Decimal(FontSize(i)), Sanitise(text);
    var sized := s.(size := FontSize(i));
    var move := [Word("0"), Word("-24")] + ([Word("Td")] + rest);
    var show := [Text(t)] + ([Word("Tj")] + move);
    LineCommands(i, text, rest);
    NumeralBack(FontSize(i));
    FontCommand(d, FontSize(i), show, s);
    TextCommand(t, move, sized);
    MoveDown(rest, sized);
  }

  lemma {:induction false} ShowLines(lines: seq<string>, i: nat, s: TextState)
    requires i <= |lines| && s.inText && s.x == 50 && s.y == 790 - 24 * i
    ensures Run(TokensFrom(lines, i), [], s) == Some(Page(lines, i))
    decreases |lines| - i
  {
    if i == |lines| {
      Operators();
      Command([], "ET", [], s, s.(inText := false), []);
      assert [] + ([Word("ET")] + []) == TokensFrom(lines, i);
      ThenNothing(Some([]));
    } else {
      var next := s.(size := FontSize(i), y := s.y - 24);
      ShowLine(i, lines[i], TokensFrom(lines, i + 1), s);
      ShowLines(lines, i + 1, next);
    }
  }

  lemma ShowOpening(rest: seq<Token>)
    ensures Run(Words(OPENING) + rest, [], INITIAL) == Run(rest, [], TextState(true, 16, 50, 790))
  {
    hide Run;
    var move := [Word("50"), Word("790")] + ([Word("Td")] + rest);
    var font := [Word("/F1"), Word("16")] + ([Word("Tf")] + move);
    var begun := TextState(true, 0, 0, 0);
    assert Words(OPENING) + rest == [] + ([Word("BT")] + font);
    Operators();
    Command([], "BT", font, INITIAL, begun, []);
    ThenNothing(Run(font, [], begun));
    Numerals();
    FontCommand("16", 16, move, begun);
    MoveCommand("50", 50, "790", 790, rest, begun.(size := 16));
  }

  /** For every list of lines, a viewer shows exactly the sanitised lines, in order, the first
      in size 16 and the others in size 10, each 24 units below the one before. */
  lemma ContentShows(lines: seq<string>)
    ensures Show(Content(lines)) == Some(Page(lines, 0))
  {
    ContentBack(lines);
    ShowOpening(TokensFrom(lines, 0));
    ShowLines(lines, 0, TextState(true, 16, 50, 790));
  }

  lemma {:induction false} EscapePrintable(s: string)
    requires Printable(s)
    ensures Printable(Escape(s))
    decreases |s|
  {
    if s != "" { EscapePrintable(s[1..]); }
  }

  lemma {:induction false} LinesPrintable(lines: seq<string>, i: nat)
    requires i <= |lines|
    ensures Printable(LinesFrom(lines, i))
    decreases |lines| - i
  {
    if i < |lines| {
      LinesPrintable(lines, i + 1);
      EscapePrintable(Sanitise(lines[i]));
      assert forall k :: 0 <= k < |Decimal(FontSize(i))| ==> IsDigit(Decimal(FontSize(i))[k]);
      assert Printable(FONT) && Printable(OPEN) && Printable(CLOSE);
      assert Printable(Line(i, lines[i]));
    }
  }

  /** Whatever the lines hold, the content is printable ASCII, so its length in characters is
      its length in bytes. */
  lemma ContentPrintable(lines: seq<string>)
    ensures Printable(Content(lines))
  {
    LinesPrintable(lines, 0);
    assert Printable(BEGIN) && Printable(END);
  }
}
