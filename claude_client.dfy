/**
 * The command-line client of the language-model API: prompt building, the
 * query log, JSON response normalisation, PDF text assembly with an optional
 * character range, the line-offset listing, and the argument checks of the
 * command-line entry point.
 *
 * Foreign calls are parameters: a Jinja template is a function from the
 * parameters to the prompt, the API call is a function from the request to
 * the response text (`None` when the call raises), `json.loads` is a decoder
 * returning `None` on a decoding error, and a PDF is the sequence of the texts
 * its pages extract to (`None` when the reader raises).
 */
module Client {
  import opened Common
  import opened Text
  import opened JsonValue

  /** The model every request names. */
  const ModelId: string := "claude-3-5-sonnet-20240620"

  /** The output-token cap of a client built without an explicit one. */
  const DefaultMaxTokens: nat := 4096

  type Params = map<string, string>

  /** A loaded template: rendering it with the prompt parameters gives the prompt. */
  type Template = Params -> string

  datatype Message = Message(role: string, content: string)

  /** What one call to the messages endpoint sends. */
  datatype ApiRequest = ApiRequest(model: string, maxTokens: nat, messages: seq<Message>)

  /** The request for one prompt: the fixed model, the cap, and the prompt as the one user message. */
  function RequestFor(prompt: string, maxTokens: nat): ApiRequest
  {
    ApiRequest(ModelId, maxTokens, [Message("user", prompt)])
  }

  /** Python's `c * n` for a one-character string. */
  function Repeat(c: char, n: nat): (r: string)
    ensures |r| == n && forall i :: 0 <= i < n ==> r[i] == c
  {
    if n == 0 then "" else Repeat(c, n - 1) + [c]
  }

  /** The line of 80 `=` that closes every log record. */
  function Separator(): string
  {
    Repeat('=', 80)
  }

  /** The text one query appends to the log. */
  function LogRecord(q: string, response: string): string
  {
    "Query: " + q + "\n" + "Response: " + response + "\n\n" + Separator() + "\n\n"
  }

  /** The append-only query log (`./logs.txt`). */
  class LogFile {
    var contents: string

    constructor (contents: string)
      ensures this.contents == contents
    {
      this.contents := contents;
    }

    /** Writes one record after everything already in the log. */
    method Append(q: string, response: string)
      modifies this
      ensures contents == old(contents) + LogRecord(q, response)
    {
      contents := contents + LogRecord(q, response);
    }
  }

  class ClaudeClient {
    const template: Option<Template>
    const maxTokens: nat
    const logs: LogFile

    constructor (template: Option<Template>, maxTokens: nat, logs: LogFile)
      ensures this.template == template && this.maxTokens == maxTokens && this.logs == logs
    {
      this.template := template;
      this.maxTokens := maxTokens;
      this.logs := logs;
    }

    /**
     * The prompt: the rendered template, or without a template the `query`
     * parameter (`""` if absent). Python binds the parameters as keywords next
     * to `self`, so a parameter named `self` is refused at the call.
     */
    function BuildQuery(params: Params): string
      requires "self" !in params
    {
      match template
      case Some(render) => render(params)
      case None => if "query" in params then params["query"] else ""
    }

    /**
     * Sends the prompt built from `params` and returns the response text; a
     * successful call appends its record to the log, a call that raises leaves
     * the log as it was.
     */
    method Query(params: Params, api: ApiRequest -> Option<string>) returns (response: Option<string>)
      requires "self" !in params
      modifies logs
      ensures response == api(RequestFor(BuildQuery(params), maxTokens))
      ensures response.Some? ==> logs.contents == old(logs.contents) + LogRecord(BuildQuery(params), response.value)
      ensures response.None? ==> logs.contents == old(logs.contents)
    {
      var q := BuildQuery(params);
      response := api(RequestFor(q, maxTokens));
      if response.Some? {
        logs.Append(q, response.value);
      }
    }
  }

  /** Without a template the prompt is the `query` parameter, or `""`, whatever the other parameters are. */
  lemma BuildQueryWithoutTemplate(client: ClaudeClient, params: Params, other: Params)
    requires client.template.None?
    requires "self" !in params && "self" !in other
    requires ("query" in params) == ("query" in other)
    requires "query" in params ==> params["query"] == other["query"]
    ensures client.BuildQuery(params) == (if "query" in params then params["query"] else "")
    ensures client.BuildQuery(params) == client.BuildQuery(other)
  {
  }

  // ---------------------------------------------------------------- parse_json

  /** The first step of `parse_json`: backslash-n pairs become newlines. */
  function UnescapeNewlines(text: string): string
  {
    ReplaceAll(text, "\\n", "\n")
  }

  /** Both steps: then backslash-quote pairs become quotes. */
  function NormalizeEscapes(text: string): string
  {
    ReplaceAll(UnescapeNewlines(text), "\\'", "'")
  }

  /** `parse_json`: decode the normalised text; `None` exactly when the decoder rejects it. */
  function ParseJson(text: string, decode: string -> Option<Json>): (r: Option<Json>)
    ensures r.None? <==> decode(NormalizeEscapes(text)).None?
    ensures '\\' !in text ==> r == decode(text)
  {
    var r := decode(NormalizeEscapes(text));
    if '\\' in text then r else NormalizeWithoutBackslash(text); r
  }

  /** Text without a backslash is not changed by the normalisation. */
  lemma NormalizeWithoutBackslash(text: string)
    requires '\\' !in text
    ensures NormalizeEscapes(text) == text
  {
    ReplaceAllWithoutPatternStart(text, "\\n", "\n");
    ReplaceAllWithoutPatternStart(text, "\\'", "'");
  }

  /** The normalisation never lengthens the text. */
  lemma NormalizeNotLonger(text: string)
    ensures |UnescapeNewlines(text)| <= |text|
    ensures |NormalizeEscapes(text)| <= |UnescapeNewlines(text)|
  {
    ReplaceAllNotLonger(text, "\\n", "\n");
    ReplaceAllNotLonger(UnescapeNewlines(text), "\\'", "'");
  }

  /** After the first step no backslash is immediately followed by `n`, and the second step keeps it so. */
  lemma NormalizeLeavesNoEscapedNewline(text: string)
    ensures NoPair(UnescapeNewlines(text), '\\', 'n')
    ensures NoPair(NormalizeEscapes(text), '\\', 'n')
  {
    assert "\\n" == ['\\', 'n'];
    ReplacePairLeavesNone(text, '\\', 'n', "\n");
    ReplaceKeepsNoPair(UnescapeNewlines(text), "\\'", "'", '\\', 'n');
  }

  // ----------------------------------------------------------------- parse_pdf

  /** The text assembled from the pages: each page's text followed by a newline, in page order. */
  function PageText(pages: seq<string>): string
  {
    if pages == [] then "" else PageText(pages[..|pages| - 1]) + pages[|pages| - 1] + "\n"
  }

  /** Assembling two runs of pages gives the two texts one after the other. */
  lemma {:induction false} PageTextAppend(a: seq<string>, b: seq<string>)
    ensures PageText(a + b) == PageText(a) + PageText(b)
    decreases |b|
  {
    if b == [] {
      assert a + b == a;
    } else {
      var b' := b[..|b| - 1];
      assert (a + b)[..|a + b| - 1] == a + b';
      PageTextAppend(a, b');
    }
  }

  /** One page contributes its text and a newline. */
  lemma PageTextOne(page: string)
    ensures PageText([page]) == page + "\n"
  {
    assert [page][..0] == [];
  }

  /** Python's `text[start:end]` for non-negative bounds: both clamp to the length, and an empty range gives `""`. */
  function Slice(text: string, start: nat, end: nat): (r: string)
    ensures start >= end ==> r == ""
    ensures start < end ==> r == text[Min(start, |text|)..Min(end, |text|)]
    ensures |r| == Max(0, Min(end, |text|) - Min(start, |text|))
  {
    var lo := Min(start, |text|);
    var hi := Min(end, |text|);
    if lo < hi then text[lo..hi] else ""
  }

  /** `map(int, r.split('-'))` unpacked into two values: `None` where Python raises. */
  function ParseRange(r: string): Option<(nat, nat)>
  {
    var parts := Split(r, '-');
    if |parts| != 2 then None
    else
      var a, b := ParseNat(parts[0]), ParseNat(parts[1]);
      if a.Some? && b.Some? then Some((a.value, b.value)) else None
  }

  /** The range written as `a-b` reads back as `(a, b)`. */
  lemma ParseRangeRoundTrip(a: nat, b: nat)
    ensures ParseRange(NatToString(a) + "-" + NatToString(b)) == Some((a, b))
  {
    var x, y := NatToString(a), NatToString(b);
    assert '-' !in x && '-' !in y by {
      assert !IsDigit('-');
    }
    SplitAtFirstSeparator(x, y, '-');
    SplitWithoutSeparator(y, '-');
    assert x + "-" + y == x + ['-'] + y;
    ParseNatToString(a);
    ParseNatToString(b);
  }

  /** A range is read only when it holds exactly one `-`, so a negative start such as `-5-10` is refused. */
  lemma ParseRangeRefuses(r: string)
    ensures ParseRange(r).Some? ==> Count(r, '-') == 1
    ensures r != [] && r[0] == '-' ==> ParseRange(r).None?
    ensures '-' !in r ==> ParseRange(r).None?
  {
    if '-' !in r {
      SplitWithoutSeparator(r, '-');
    }
  }

  /** What `parse_pdf` returns: `None` when the reader raises or the range is malformed. */
  function PdfText(pages: Option<seq<string>>, charRange: Option<string>): Option<string>
  {
    match pages
    case None => None
    case Some(ps) =>
      var text := PageText(ps);
      if charRange.None? || charRange.value == "" then Some(text)
      else
        var range := ParseRange(charRange.value);
        if range.None? then None else Some(Slice(text, range.value.0, range.value.1))
  }

  /** The three outcomes of the range handling. */
  lemma PdfTextRange(ps: seq<string>, charRange: Option<string>)
    ensures charRange.None? || charRange == Some("") ==> PdfText(Some(ps), charRange) == Some(PageText(ps))
    ensures charRange.Some? && charRange.value != "" && ParseRange(charRange.value).None? ==>
              PdfText(Some(ps), charRange).None?
    ensures charRange.Some? && charRange.value != "" && ParseRange(charRange.value).Some? ==>
              var a, b := ParseRange(charRange.value).value.0, ParseRange(charRange.value).value.1;
              var t := PageText(ps);
              PdfText(Some(ps), charRange) == Some(if a < b then t[Min(a, |t|)..Min(b, |t|)] else "")
  {
  }

  /** `parse_pdf`: concatenate the page texts in a loop, then apply the range. */
  method ParsePdf(pages: Option<seq<string>>, charRange: Option<string>) returns (r: Option<string>)
    ensures r == PdfText(pages, charRange)
  {
    if pages.None? {
      return None;
    }
    var ps := pages.value;
    var text := "";
    var i := 0;
    while i < |ps|
      invariant 0 <= i <= |ps|
      invariant text == PageText(ps[..i])
    {
      assert ps[..i + 1] == ps[..i] + [ps[i]];
      PageTextAppend(ps[..i], [ps[i]]);
      PageTextOne(ps[i]);
      text := text + ps[i] + "\n";
      i := i + 1;
    }
    assert ps[..i] == ps;
    if charRange.Some? && charRange.value != "" {
      var range := ParseRange(charRange.value);
      if range.None? {
        return None;
      }
      text := Slice(text, range.value.0, range.value.1);
    }
    r := Some(text);
  }

  // -------------------------------------------------- output_pdf_with_positions

  /** One printed line of the listing: where the line starts in the text, and the line. */
  datatype Positioned = Positioned(offset: nat, line: string)

  /** The listing of `output_pdf_with_positions`: one entry per `'\n'`-separated line. */
  function LinePositions(text: string): (entries: seq<Positioned>)
    ensures |entries| == Count(text, '\n') + 1
  {
    var lines := Split(text, '\n');
    seq(|lines|, k requires 0 <= k < |lines| => Positioned(Offset(lines, k), lines[k]))
  }

  /**
   * The first entry is at 0, each next one a line length plus one further, and
   * every entry's line is the text found at its offset, up to the next newline
   * or the end of the text.
   */
  lemma LinePositionsLocate(text: string, k: nat)
    requires k < |LinePositions(text)|
    ensures var e := LinePositions(text);
            && e[0].offset == 0
            && (k + 1 < |e| ==> e[k + 1].offset == e[k].offset + |e[k].line| + 1)
            && '\n' !in e[k].line
            && e[k].offset + |e[k].line| <= |text|
            && text[e[k].offset..e[k].offset + |e[k].line|] == e[k].line
            && (k + 1 < |e| ==> e[k].offset + |e[k].line| < |text| && text[e[k].offset + |e[k].line|] == '\n')
            && (k + 1 == |e| ==> e[k].offset + |e[k].line| == |text|)
  {
    var lines := Split(text, '\n');
    JoinSplit(text, '\n');
    JoinLocated(lines, '\n', k);
  }

  /** Python's `f"{s:<w}"`: `s` padded with spaces on the right to at least `w` characters. */
  function LeftAlign(s: string, w: nat): (r: string)
    ensures |r| == Max(|s|, w)
    ensures r[..|s|] == s
    ensures forall i :: |s| <= i < |r| ==> r[i] == ' '
  {
    s + seq(Max(0, w - |s|), _ => ' ')
  }

  /** The printed form of an entry: `f"{position:<6}: {line}"`. */
  function PositionLine(e: Positioned): string
  {
    LeftAlign(NatToString(e.offset), 6) + ": " + e.line
  }

  /** What `output_pdf_with_positions` prints: one formatted line per entry of the listing. */
  function PositionListing(text: string): (printed: seq<string>)
    ensures |printed| == |LinePositions(text)|
  {
    var e := LinePositions(text);
    seq(|e|, k requires 0 <= k < |e| => PositionLine(e[k]))
  }

  /**
   * A printed line starts with the offset in decimal, which reads back as the
   * offset, padded with spaces to six columns; then `": "` and the line itself.
   */
  lemma PositionLineReadsBack(e: Positioned)
    ensures var digits := NatToString(e.offset);
            var w := Max(|digits|, 6);
            var printed := PositionLine(e);
            && |printed| == w + 2 + |e.line|
            && ParseNat(printed[..|digits|]) == Some(e.offset)
            && (forall i :: |digits| <= i < w ==> printed[i] == ' ')
            && printed[w..w + 2] == ": "
            && printed[w + 2..] == e.line
  {
    var digits := NatToString(e.offset);
    var padded := LeftAlign(digits, 6);
    assert PositionLine(e) == padded + (": " + e.line);
    assert PositionLine(e)[..|digits|] == padded[..|digits|];
    ParseNatToString(e.offset);
  }

  /** `output_pdf_with_positions`: walks the lines, advancing the position by each line and its newline. */
  method OutputPdfWithPositions(text: string) returns (printed: seq<string>)
    ensures printed == PositionListing(text)
  {
    var lines := Split(text, '\n');
    var position := 0;
    printed := [];
    for i := 0 to |lines|
      invariant |printed| == i
      invariant position == Offset(lines, i)
      invariant forall k {:trigger printed[k]} :: 0 <= k < i ==>
        printed[k] == PositionLine(Positioned(Offset(lines, k), lines[k]))
    {
      printed := printed + [LeftAlign(NatToString(position), 6) + ": " + lines[i]];
      position := position + |lines[i]| + 1;
    }
  }

  // ---------------------------------------------------------------------- main

  /** The parsed command line; `params` holds the `-p KEY VALUE` pairs in the order given. */
  datatype CliArgs = CliArgs(
    query: Option<string>,
    template: Option<string>,
    json: bool,
    params: seq<(string, string)>,
    pdf: Option<string>,
    pdfRange: Option<string>,
    outputPdf: bool,
    estimateCost: bool)

  /** Python's truthiness of an optional string argument. */
  predicate Given(arg: Option<string>) {
    arg.Some? && arg.value != ""
  }

  /** `dict(pairs)`: every key given, holding the value of its last pair. */
  function PairsToMap(pairs: seq<(string, string)>): (m: map<string, string>)
    ensures forall k :: k in m <==> exists i :: 0 <= i < |pairs| && pairs[i].0 == k
  {
    if pairs == [] then map[]
    else PairsToMap(pairs[..|pairs| - 1])[pairs[|pairs| - 1].0 := pairs[|pairs| - 1].1]
  }

  /** A repeated `-p KEY` keeps the value of its last occurrence. */
  lemma {:induction false} PairsToMapLastWins(pairs: seq<(string, string)>, i: nat)
    requires i < |pairs|
    requires forall j :: i < j < |pairs| ==> pairs[j].0 != pairs[i].0
    ensures pairs[i].0 in PairsToMap(pairs) && PairsToMap(pairs)[pairs[i].0] == pairs[i].1
    decreases |pairs|
  {
    if i < |pairs| - 1 {
      var front := pairs[..|pairs| - 1];
      assert forall j :: i < j < |front| ==> front[j] == pairs[j];
      PairsToMapLastWins(front, i);
    }
  }

  /** The prompt parameters `main` assembles: the `-p` pairs, and `-q` as `query` only without a template. */
  function CliParams(args: CliArgs): map<string, string>
  {
    var m := PairsToMap(args.params);
    if Given(args.query) && !Given(args.template) then m["query" := args.query.value] else m
  }

  /** `-q` overrides a `-p query` pair without a template, and is ignored with one. */
  lemma CliParamsQuery(args: CliArgs)
    ensures Given(args.query) && !Given(args.template) ==>
              CliParams(args) == PairsToMap(args.params)["query" := args.query.value]
    ensures Given(args.template) || !Given(args.query) ==> CliParams(args) == PairsToMap(args.params)
  {
  }

  const PdfNeedsTemplate: string := "The --pdf option requires either a template file (-t) or --output-pdf"
  const QueryRequired: string := "When not using a template or --output-pdf, you must provide a query using -q or --query"
  const ParamsRequired: string := "When using a template, you must provide parameters with -p or use --pdf"

  /** Where `main` goes before the response, if any, comes back. */
  datatype CliOutcome =
    | UsageError(message: string)        // parser.error: the message, exit status 2
    | ExitFailure                        // sys.exit(1)
    | PrintPositions(printed: seq<string>)
    | SelfClash                          // TypeError: got multiple values for argument 'self'
    | EstimateCost(params: Params)       // sends the query, then prints an estimate
    | Send(params: Params, parseJson: bool)
    | NothingToDo

  /** The checks of `main`, in its order; `pages` is what reading `--pdf` gives. */
  function CliPlan(args: CliArgs, pages: Option<seq<string>>): CliOutcome
  {
    if Given(args.pdf) && !(Given(args.template) || args.outputPdf) then UsageError(PdfNeedsTemplate)
    else
      var params := CliParams(args);
      if Given(args.pdf) then
        var content := PdfText(pages, args.pdfRange);
        if content.None? || content.value == "" then ExitFailure
        else if args.outputPdf then PrintPositions(PositionListing(content.value))
        else CliAfterPdf(args, params["pdf_content" := content.value])
      else CliAfterPdf(args, params)
  }

  /**
   * The rest of `main`. `build_query(**params)` and `query(**params)` raise
   * before anything is built or sent when a parameter is named `self`.
   */
  function CliAfterPdf(args: CliArgs, params: Params): CliOutcome
  {
    if args.estimateCost then (if "self" in params then SelfClash else EstimateCost(params))
    else if !Given(args.template) && "query" !in params && !args.outputPdf then UsageError(QueryRequired)
    else if Given(args.template) && !Given(args.pdf) && params == map[] then UsageError(ParamsRequired)
    else if !args.outputPdf then (if "self" in params then SelfClash else Send(params, args.json))
    else NothingToDo
  }

  /** `--pdf` without `-t` or `--output-pdf` is refused before anything is read. */
  lemma CliRefusesPdfWithoutTemplate(args: CliArgs, pages: Option<seq<string>>)
    requires Given(args.pdf) && !Given(args.template) && !args.outputPdf
    ensures CliPlan(args, pages) == UsageError(PdfNeedsTemplate)
  {
  }

  /**
   * Without `--pdf`, `--estimate_cost` or `--output-pdf`: no template and no
   * query is refused, and so is a template with no parameters; a template with
   * parameters, or a query, is sent, unless a parameter is named `self`, when
   * the call raises instead.
   */
  lemma CliArgumentChecks(args: CliArgs, pages: Option<seq<string>>)
    requires !Given(args.pdf) && !args.estimateCost && !args.outputPdf
    ensures !Given(args.template) && "query" !in CliParams(args) ==> CliPlan(args, pages) == UsageError(QueryRequired)
    ensures !Given(args.template) && "query" in CliParams(args) && "self" !in CliParams(args) ==>
              CliPlan(args, pages) == Send(CliParams(args), args.json)
    ensures Given(args.template) && args.params == [] ==> CliPlan(args, pages) == UsageError(ParamsRequired)
    ensures Given(args.template) && args.params != [] && "self" !in CliParams(args) ==>
              CliPlan(args, pages) == Send(PairsToMap(args.params), args.json)
    ensures "self" in CliParams(args) && (Given(args.template) || "query" in CliParams(args)) ==>
              CliPlan(args, pages) == SelfClash
  {
    if args.params != [] {
      var last := args.params[|args.params| - 1];
      assert last.0 in PairsToMap(args.params);
    }
  }

  /**
   * PDF text that is missing or empty exits with status 1; with `--output-pdf`
   * the text is listed and nothing is sent; with a template the prompt is sent
   * with the PDF text as `pdf_content`.
   */
  lemma CliPdfOutcome(args: CliArgs, pages: Option<seq<string>>)
    requires Given(args.pdf) && (Given(args.template) || args.outputPdf)
    ensures PdfText(pages, args.pdfRange).None? || PdfText(pages, args.pdfRange) == Some("") ==>
              CliPlan(args, pages) == ExitFailure
    ensures args.outputPdf && PdfText(pages, args.pdfRange).Some? && PdfText(pages, args.pdfRange).value != "" ==>
              CliPlan(args, pages) == PrintPositions(PositionListing(PdfText(pages, args.pdfRange).value))
    ensures Given(args.template) && !args.outputPdf && !args.estimateCost
            && PdfText(pages, args.pdfRange).Some? && PdfText(pages, args.pdfRange).value != ""
            && "self" !in CliParams(args) ==>
              CliPlan(args, pages) == Send(CliParams(args)["pdf_content" := PdfText(pages, args.pdfRange).value], args.json)
    ensures CliPlan(args, pages).Send? || CliPlan(args, pages).EstimateCost? ==> !args.outputPdf || args.estimateCost
  {
  }

  /**
   * A query is sent with exactly the assembled parameters, plus the PDF text
   * when `--pdf` is given, and never with a parameter named `self`.
   */
  lemma CliSendsAssembledParams(args: CliArgs, pages: Option<seq<string>>)
    requires CliPlan(args, pages).Send?
    ensures !Given(args.pdf) ==> CliPlan(args, pages).params == CliParams(args)
    ensures Given(args.pdf) ==>
              && PdfText(pages, args.pdfRange).Some?
              && CliPlan(args, pages).params == CliParams(args)["pdf_content" := PdfText(pages, args.pdfRange).value]
    ensures !Given(args.template) ==> "query" in CliPlan(args, pages).params
    ensures "self" !in CliPlan(args, pages).params
  {
  }

  /** What `main` prints once the response text is back. */
  datatype CliReply = PrintResponse(text: string) | PrintJson(value: Json) | JsonExitFailure

  function CliRespond(parseJson: bool, response: string, decode: string -> Option<Json>): CliReply
  {
    if !parseJson then PrintResponse(response)
    else
      var parsed := ParseJson(response, decode);
      if parsed.Some? && Truthy(parsed.value) then PrintJson(parsed.value) else JsonExitFailure
  }

  /**
   * Without `--json` the response is printed as it came; with it the decoded
   * value is printed when it is truthy, and otherwise (undecodable text, but
   * also a decoded `{}`, `[]`, `0`, `false` or `null`) the exit status is 1.
   */
  lemma CliRespondOutcome(parseJson: bool, response: string, decode: string -> Option<Json>)
    ensures !parseJson ==> CliRespond(parseJson, response, decode) == PrintResponse(response)
    ensures parseJson ==>
              (CliRespond(parseJson, response, decode).PrintJson? <==>
                 decode(NormalizeEscapes(response)).Some? && Truthy(decode(NormalizeEscapes(response)).value))
    ensures parseJson && CliRespond(parseJson, response, decode).PrintJson? ==>
              CliRespond(parseJson, response, decode).value == decode(NormalizeEscapes(response)).value
    ensures parseJson && decode(NormalizeEscapes(response)) == Some(JObject([])) ==>
              CliRespond(parseJson, response, decode) == JsonExitFailure
  {
  }
}
