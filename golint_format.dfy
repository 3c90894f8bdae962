/**
 * The findings the lint engine returns and the two formatters of
 * golint/golint.go: one text line per problem, or one JSON array of records
 * carrying eight fields of each problem.
 */
module GolintFormat {

  /** `token.Position`. */
  datatype Position = Position(filename: string, offset: int, line: int, column: int)

  /** `lint.Problem`, with the fields the driver reads. */
  datatype Problem = Problem(
    position: Position,
    text: string,
    link: string,
    confidence: real,
    lineText: string,
    category: string)

  /** `jsonProblem`: the record written for one problem. */
  datatype JsonProblem = JsonProblem(
    filename: string,
    line: int,
    column: int,
    text: string,
    link: string,
    confidence: real,
    lineText: string,
    category: string)

  /** The record `jsonFormatter.Write` builds for `p`. */
  function ToJson(p: Problem): JsonProblem
  {
    JsonProblem(
      p.position.filename,
      p.position.line,
      p.position.column,
      p.text,
      p.link,
      p.confidence,
      p.lineText,
      p.category)
  }

  /** The problem a record describes, given the byte offset JSON leaves out. */
  function FromJson(j: JsonProblem, offset: int): Problem
  {
    Problem(Position(j.filename, offset, j.line, j.column),
            j.text, j.link, j.confidence, j.lineText, j.category)
  }

  /** A record carries every field of its problem except the byte offset:
      reading it back with that offset gives the problem itself. */
  lemma JsonRoundTrip(p: Problem)
    ensures FromJson(ToJson(p), p.position.offset) == p
  {
  }

  /** Two problems give the same record exactly when they differ at most in
      their byte offset. */
  lemma JsonRecordIdentifies(p: Problem, q: Problem)
    ensures ToJson(p) == ToJson(q) <==> p == q.(position := q.position.(offset := p.position.offset))
  {
    if ToJson(p) == ToJson(q) {
      JsonRoundTrip(p);
      JsonRoundTrip(q);
      assert FromJson(ToJson(q), p.position.offset) == p;
    }
  }

  // ---------------------------------------------------------------------
  // Text rendering
  // ---------------------------------------------------------------------

  function DigitChar(d: nat): (c: char)
    requires d < 10
    ensures '0' <= c <= '9'
  {
    "0123456789"[d]
  }

  /** Decimal digits of `n`, most significant first, without leading zeros. */
  function NatToDecimal(n: nat): (s: string)
    ensures |s| > 0
    ensures forall i :: 0 <= i < |s| ==> '0' <= s[i] <= '9'
    decreases n
  {
    if n < 10 then [DigitChar(n)] else NatToDecimal(n / 10) + [DigitChar(n % 10)]
  }

  /** The value of a string of decimal digits. */
  function DecimalValue(s: string): nat
    requires forall i :: 0 <= i < |s| ==> '0' <= s[i] <= '9'
  {
    if s == [] then 0
    else 10 * DecimalValue(s[..|s| - 1]) + (s[|s| - 1] as int - '0' as int)
  }

  /** Reading the rendered digits back gives the number. */
  lemma {:induction false} DecimalRoundTrip(n: nat)
    ensures DecimalValue(NatToDecimal(n)) == n
    decreases n
  {
    var s := NatToDecimal(n);
    if n >= 10 {
      DecimalRoundTrip(n / 10);
      assert s[..|s| - 1] == NatToDecimal(n / 10);
    }
  }

  /** `%d` of an integer. */
  function IntToDecimal(i: int): string
  {
    if i < 0 then "-" + NatToDecimal(-i) else NatToDecimal(i)
  }

  /** `%v` of a `token.Position`: `file:line:column`, the column dropped when
      it is 0, only the file name when the line is not positive, and `-`
      when that leaves nothing. */
  function PositionString(pos: Position): (s: string)
    ensures |s| > 0
    ensures pos.filename != [] ==> |pos.filename| <= |s| && s[..|pos.filename|] == pos.filename
  {
    var lineCol :=
      if pos.line > 0 then
        (if pos.filename != [] then ":" else "")
        + IntToDecimal(pos.line)
        + (if pos.column != 0 then ":" + IntToDecimal(pos.column) else "")
      else "";
    var s := pos.filename + lineCol;
    if s == [] then "-" else s
  }

  /** The line `textFormatter.Write` prints for `p`. */
  function TextLine(p: Problem): string
  {
    PositionString(p.position) + ": " + p.text + "\n"
  }

  /** A problem whose file name and text hold no newline is printed as exactly
      one line: the position, then ": " and the text, then the newline. */
  lemma TextLineIsOneLine(p: Problem)
    requires '\n' !in p.position.filename && '\n' !in p.text
    ensures var l := TextLine(p);
      && l[|l| - 1] == '\n'
      && '\n' !in l[..|l| - 1]
      && l[..|l| - 1] == PositionString(p.position) + ": " + p.text
  {
  }

  // ---------------------------------------------------------------------
  // Formatters
  // ---------------------------------------------------------------------

  datatype FormatterKind = TextFormatter | JsonFormatter

  /** The `-format` switch: `json` selects JSON, anything else text. */
  function SelectFormatter(name: string): (k: FormatterKind)
    ensures k == JsonFormatter <==> name == "json"
  {
    if name == "json" then JsonFormatter else TextFormatter
  }

  /** One write to standard output: a text line, or a marshalled JSON array. */
  datatype Output = Line(text: string) | JsonArray(records: seq<JsonProblem>)

  /** The lines `textFormatter.Write` prints, one per problem, in order. */
  function TextLines(ps: seq<Problem>): seq<Output>
  {
    seq(|ps|, i requires 0 <= i < |ps| => Line(TextLine(ps[i])))
  }

  /** Printing one more problem appends its line. */
  lemma TextLinesSnoc(ps: seq<Problem>, n: nat)
    requires n < |ps|
    ensures TextLines(ps[..n + 1]) == TextLines(ps[..n]) + [Line(TextLine(ps[n]))]
  {
    var l, r := TextLines(ps[..n + 1]), TextLines(ps[..n]) + [Line(TextLine(ps[n]))];
    forall i | 0 <= i < |l| ensures l[i] == r[i] {
      if i < n { assert ps[..n + 1][i] == ps[..n][i]; }
    }
  }

  function JsonRecords(ps: seq<Problem>): (rs: seq<JsonProblem>)
    ensures |rs| == |ps|
    ensures forall i :: 0 <= i < |ps| ==> FromJson(rs[i], ps[i].position.offset) == ps[i]
  {
    seq(|ps|, i requires 0 <= i < |ps| => ToJson(ps[i]))
  }

  /** What one `formatter.Write(ps)` call appends to standard output: one line
      per problem in order, or a single array with one record per problem. */
  function Rendered(k: FormatterKind, ps: seq<Problem>): seq<Output>
  {
    match k
    case TextFormatter => TextLines(ps)
    case JsonFormatter => [JsonArray(JsonRecords(ps))]
  }
}
