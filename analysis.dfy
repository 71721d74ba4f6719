/**
 * The analyze command: guard the active editor, send the document to the
 * model, read the first choice's content, parse it as JSON and fill in
 * defaults for missing fields before the analysis panel is shown.
 *
 * `JSON.parse` is a parameter: a parser that returns the parsed value or the
 * message of the `SyntaxError` it throws.
 */
module Analysis {

  import opened Wrappers
  import opened JsValues
  import opened Http
  import opened Editor
  import opened LlmRequests

  type JsonParser = string -> Result<JsValue, string>

  /** Every JSON parser rejects the empty string. */
  predicate RejectsEmpty(parse: JsonParser) {
    parse("").Failure?
  }

  /** What the panel shows and what the apply handler indexes into. */
  datatype AnalysisData = AnalysisData(clarityScore: JsValue, corrections: JsValue)

  /**
   * `JSON.parse(content)` followed by `clarityScore || 0` and `corrections || []`:
   * a parse failure is reported as such and never defaulted; after a successful
   * parse a truthy field is kept as it is and a falsy or missing one is replaced.
   */
  function ParseAnalysis(content: JsValue, parse: JsonParser): (r: Result<AnalysisData, string>)
    ensures parse(ToJsString(content)).Failure? <==> r.Failure?
    ensures r.Failure? ==> r.error == parse(ToJsString(content)).error
    ensures r.Success? ==> Truthy(r.value.corrections)
    ensures r.Success? ==>
      var parsed := parse(ToJsString(content)).value;
      && (Truthy(OptGet(parsed, "clarityScore")) ==> r.value.clarityScore == OptGet(parsed, "clarityScore"))
      && (!Truthy(OptGet(parsed, "clarityScore")) ==> r.value.clarityScore == Num(0))
      && (Truthy(OptGet(parsed, "corrections")) ==> r.value.corrections == OptGet(parsed, "corrections"))
      && (!Truthy(OptGet(parsed, "corrections")) ==> r.value.corrections == Arr([]))
  {
    match parse(ToJsString(content))
    case Failure(msg) => Failure(msg)
    case Success(parsed) =>
      Success(AnalysisData(Or(OptGet(parsed, "clarityScore"), Num(0)),
                           Or(OptGet(parsed, "corrections"), Arr([]))))
  }

  /** A well-formed reply `{clarityScore: n, corrections: [...]}` is taken over unchanged. */
  lemma WellFormedReplyKept(content: JsValue, parse: JsonParser, score: int, cs: seq<JsValue>)
    requires parse(ToJsString(content)) == Success(Obj(map["clarityScore" := Num(score), "corrections" := Arr(cs)]))
    ensures ParseAnalysis(content, parse) == Success(AnalysisData(Num(score), Arr(cs)))
  {
    var m := map["clarityScore" := Num(score), "corrections" := Arr(cs)];
    assert OptGet(Obj(m), "clarityScore") == Num(score);
    assert OptGet(Obj(m), "corrections") == Arr(cs);
  }

  /** A reply object without the two keys defaults to score 0 and no corrections. */
  lemma MissingFieldsDefaulted(content: JsValue, parse: JsonParser, fields: map<string, JsValue>)
    requires "clarityScore" !in fields && "corrections" !in fields
    requires parse(ToJsString(content)) == Success(Obj(fields))
    ensures ParseAnalysis(content, parse) == Success(AnalysisData(Num(0), Arr([])))
  {
  }

  /**
   * Building the panel's rows: `corrections && corrections.length > 0` guards a
   * `corrections.map` whose callback reads `item.phrase` of every item. A list
   * throws at its first nullish item; any other value with a positive `length`
   * (a non-empty string, an object whose `length` converts to a positive
   * number) has no `map` and throws when it is called.
   */
  function RowsFault(corrections: JsValue): (r: Option<Fault>)
    ensures corrections.Arr? ==>
      (r.None? <==> forall i :: 0 <= i < |corrections.items| ==> !Nullish(corrections.items[i]))
    ensures corrections.Arr? && r.Some? ==>
      exists k :: FirstNullishAt(corrections.items, k) && r.value == ReadError(corrections.items[k], "phrase")
    ensures !corrections.Arr? ==>
      (r.Some? <==> Truthy(corrections) && GreaterThanZero(LengthProperty(corrections)))
    ensures !corrections.Arr? && r.Some? ==> r.value == NotAFunction("analysis.corrections.map")
  {
    match corrections
    case Arr(items) =>
      (match FirstNullish(items)
       case Some(k) => Some(ReadError(items[k], "phrase"))
       case None => None)
    case _ =>
      if Truthy(corrections) && GreaterThanZero(LengthProperty(corrections)) then
        Some(NotAFunction("analysis.corrections.map"))
      else None
  }

  /** A string, a boolean or an array holding one number passes the `length > 0` guard on an object and then throws. */
  lemma LengthLikeObjectsThrow()
    ensures RowsFault(Obj(map["length" := Str("3")])) == Some(NotAFunction("analysis.corrections.map"))
    ensures RowsFault(Obj(map["length" := Bool(true)])) == Some(NotAFunction("analysis.corrections.map"))
    ensures RowsFault(Obj(map["length" := Arr([Num(1)])])) == Some(NotAFunction("analysis.corrections.map"))
    ensures RowsFault(Obj(map[])) == None
    ensures RowsFault(Num(5)) == None
  {
    StringLengthThrows();
    ArrayLengthThrows();
  }

  /** `Number` of a one-digit string is that digit. */
  lemma OneDigitNumber(c: char)
    requires '0' <= c <= '9'
    ensures StringToNumber([c]) == Finite(c as int - '0' as int)
  {
    assert TrimStart([c]) == [c];
    assert TrimEnd([c]) == [c];
    assert IsDigits([c]);
    assert [c][..0] == [];
    assert DigitsValue([c]) == DigitsValue([]) * 10 + (c as int - '0' as int);
  }

  /** `String([1])` is `"1"`. */
  lemma OneItemArrayString()
    ensures ToJsString(Arr([Num(1)])) == "1"
  {
    var v := Arr([Num(1)]);
    assert JoinItems(v, 1) == "";
    assert ToJsString(Num(1)) == "1" by {
      assert IntToString(1) == "1";
    }
    assert JoinItems(v, 0) == "" + "1" + "";
  }

  lemma StringLengthThrows()
    ensures RowsFault(Obj(map["length" := Str("3")])) == Some(NotAFunction("analysis.corrections.map"))
  {
    OneDigitNumber('3');
  }

  lemma ArrayLengthThrows()
    ensures RowsFault(Obj(map["length" := Arr([Num(1)])])) == Some(NotAFunction("analysis.corrections.map"))
  {
    var v := Arr([Num(1)]);
    OneItemArrayString();
    OneDigitNumber('1');
    assert ToNumber(v) == Finite(1);
  }

  datatype AnalyzeOutcome =
    | Stopped(notice: Notice)                  // no panel: a warning or an error message
    | Shown(analysis: AnalysisData)            // the panel shows the analysis and accepts corrections
    | PanelWithoutContent(notice: Notice)      // the panel was created, then filling it threw

  datatype AnalyzeRun = AnalyzeRun(outcome: AnalyzeOutcome, sent: seq<ChatRequest>)

  datatype Snapshot = Snapshot(fileName: string, text: string)

  const NoEditorWarning := "No active editor found. Please open an instruction.txt file."
  const WrongFileWarning := "Please open an \"instruction.txt\" file."
  const EmptyFileWarning := "The instruction.txt file is empty."
  const ParseFailedPrefix := "Failed to parse JSON response: "

  /** The message for an error caught around the whole request, read and parse. */
  function Failed(f: Fault): Notice {
    Error("NLP analysis failed: " + f.message)
  }

  /**
   * The analyze command on the active editor `editor` (None when there is none),
   * with `reply` the chat endpoint's answer. Nothing is sent unless the editor
   * shows a non-empty file whose name ends in `instruction.txt`.
   */
  function Analyze(editor: Option<Snapshot>, config: LlmConfig, reply: Reply, parse: JsonParser): (r: AnalyzeRun)
    ensures r.sent == [] <==> editor.None? || !EndsWith(editor.value.fileName, InstructionFile) || editor.value.text == ""
    ensures r.sent != [] ==> r.sent == [AnalysisRequest(editor.value.text, config)]
    ensures editor.None? ==> r.outcome == Stopped(Warning(NoEditorWarning))
    ensures editor.Some? && !EndsWith(editor.value.fileName, InstructionFile) ==> r.outcome == Stopped(Warning(WrongFileWarning))
    ensures editor.Some? && EndsWith(editor.value.fileName, InstructionFile) && editor.value.text == "" ==>
      r.outcome == Stopped(Warning(EmptyFileWarning))
    ensures r.sent != [] && reply.Failed? ==> r.outcome == Stopped(Failed(reply.fault))
    ensures r.sent != [] && reply.Answered? && AnalysisContent(reply.data).Failure? ==>
      r.outcome == Stopped(Failed(AnalysisContent(reply.data).error))
    ensures r.sent != [] && reply.Answered? && AnalysisContent(reply.data).Success? ==>
      var parsed := ParseAnalysis(AnalysisContent(reply.data).value, parse);
      && (parsed.Failure? ==> r.outcome == Stopped(Error(ParseFailedPrefix + parsed.error)))
      && (parsed.Success? && RowsFault(parsed.value.corrections).None? ==> r.outcome == Shown(parsed.value))
      && (parsed.Success? && RowsFault(parsed.value.corrections).Some? ==>
            r.outcome == PanelWithoutContent(Failed(RowsFault(parsed.value.corrections).value)))
    ensures r.outcome.Shown? ==>
      && reply.Answered?
      && AnalysisContent(reply.data).Success?
      && ParseAnalysis(AnalysisContent(reply.data).value, parse) == Success(r.outcome.analysis)
      && RowsFault(r.outcome.analysis.corrections).None?
  {
    match editor
    case None => AnalyzeRun(Stopped(Warning(NoEditorWarning)), [])
    case Some(doc) =>
      if !EndsWith(doc.fileName, InstructionFile) then
        AnalyzeRun(Stopped(Warning(WrongFileWarning)), [])
      else if doc.text == "" then
        AnalyzeRun(Stopped(Warning(EmptyFileWarning)), [])
      else
        var sent := [AnalysisRequest(doc.text, config)];
        match reply
        case Failed(f) => AnalyzeRun(Stopped(Failed(f)), sent)
        case Answered(data) =>
          match AnalysisContent(data)
          case Failure(f) => AnalyzeRun(Stopped(Failed(f)), sent)
          case Success(content) =>
            match ParseAnalysis(content, parse)
            case Failure(msg) => AnalyzeRun(Stopped(Error(ParseFailedPrefix + msg)), sent)
            case Success(analysis) =>
              match RowsFault(analysis.corrections)
              case Some(f) => AnalyzeRun(PanelWithoutContent(Failed(f)), sent)
              case None => AnalyzeRun(Shown(analysis), sent)
  }

  /**
   * A reply with no first choice, or a choice without content, reads as `''`,
   * which no JSON parser accepts: an error is shown and no panel is created.
   */
  lemma EmptyReplyShowsNoPanel(doc: Snapshot, config: LlmConfig, parse: JsonParser)
    requires RejectsEmpty(parse)
    requires EndsWith(doc.fileName, InstructionFile) && doc.text != ""
    ensures Analyze(Some(doc), config, Answered(Obj(map["choices" := Arr([])])), parse).outcome
         == Stopped(Error(ParseFailedPrefix + parse("").error))
  {
    var data := Obj(map["choices" := Arr([])]);
    assert OptGet(data, "choices") == Arr([]);
    assert AnalysisContent(data) == Success(Str(""));
  }

  /**
   * A verdict listing a `null` correction parses, but filling the panel reads
   * `null.phrase`: the panel is created and stays empty, and the failure is reported.
   */
  lemma NullCorrectionBreaksPanel(doc: Snapshot, config: LlmConfig, parse: JsonParser, content: JsValue)
    requires EndsWith(doc.fileName, InstructionFile) && doc.text != ""
    requires !Nullish(content)
    requires parse(ToJsString(content)) == Success(Obj(map["clarityScore" := Num(80), "corrections" := Arr([Null])]))
    ensures Analyze(Some(doc), config, Answered(ReplyWith(content)), parse).outcome
         == PanelWithoutContent(Failed(ReadError(Null, "phrase")))
  {
    ContentOfWellFormedReply(content);
    var parsed := Obj(map["clarityScore" := Num(80), "corrections" := Arr([Null])]);
    assert OptGet(parsed, "corrections") == Arr([Null]);
    assert ParseAnalysis(content, parse) == Success(AnalysisData(Num(80), Arr([Null])));
    assert FirstNullishAt([Null], 0);
  }
}
