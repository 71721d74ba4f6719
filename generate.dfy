/**
 * The generate command: ask the model for instructions matching a user-given
 * agent description and append them, under a fixed heading, to the open
 * instruction file.
 */
module Generate {

  import opened Wrappers
  import opened JsValues
  import opened Http
  import opened Editor
  import opened LlmRequests

  const Separator := "\n\n---\n\n"
  const Heading := "Agent Description: "

  /**
   * The new document text: the existing text is kept as a prefix (followed by a
   * separator when it is non-empty), then the description heading, a blank
   * line and the generated instructions.
   */
  function Compose(current: string, description: string, instructions: string): (r: string)
    ensures |r| == |current| + (if current == "" then 0 else |Separator|) + |Heading| + |description| + 2 + |instructions|
    ensures current != "" ==> r[..|current|] == current
    ensures current != "" ==> r[|current|..] == Separator + Heading + description + "\n\n" + instructions
    ensures current == "" ==> r == Heading + description + "\n\n" + instructions
  {
    if current != "" then current + Separator + Heading + description + "\n\n" + instructions
    else Heading + description + "\n\n" + instructions
  }

  /** Generating twice appends twice: the first result is a prefix of the second. */
  lemma ComposeTwice(current: string, d1: string, i1: string, d2: string, i2: string)
    ensures var once := Compose(current, d1, i1);
      Compose(once, d2, i2) == once + Separator + Heading + d2 + "\n\n" + i2
  {
  }

  const WrongFile := Warning("Please open instruction.txt before generating instructions.")
  const Cancelled := Info("Operation cancelled - no agent description provided.")

  /** The message for a failed request or an unreadable reply. */
  function GenerationFailed(f: Fault): Notice {
    Error("Failed to generate instructions: " + f.message)
  }

  datatype Plan =
    | Stop(notice: Notice, sent: seq<ChatRequest>)
    | Append(newText: string, sent: seq<ChatRequest>)

  /**
   * What the generate command does, given the file name and text of the active
   * editor's document, the input box's answer and the chat endpoint's reply:
   * nothing is sent without an instruction file and a non-empty description,
   * and the document is rewritten only when the reply has content.
   */
  function PlanGeneration(fileName: string, current: string, config: LlmConfig,
                          description: Option<string>, reply: Reply): (r: Plan)
    ensures r.sent == [] <==> !EndsWith(fileName, InstructionFile) || description.None? || description.value == ""
    ensures r.sent != [] ==> r.sent == [GenerationRequest(config, description.value)]
    ensures r.Append? <==> r.sent != [] && reply.Answered? && GeneratedContent(reply.data).Success?
    ensures r.Append? ==> r.newText == Compose(current, description.value, ToJsString(GeneratedContent(reply.data).value))
    ensures !EndsWith(fileName, InstructionFile) ==> r == Stop(WrongFile, [])
    ensures EndsWith(fileName, InstructionFile) && (description.None? || description.value == "") ==> r == Stop(Cancelled, [])
    ensures r.sent != [] && reply.Failed? ==> r == Stop(GenerationFailed(reply.fault), r.sent)
    ensures r.sent != [] && reply.Answered? && GeneratedContent(reply.data).Failure? ==>
      r == Stop(GenerationFailed(GeneratedContent(reply.data).error), r.sent)
  {
    if !EndsWith(fileName, InstructionFile) then
      Stop(WrongFile, [])
    else if description.None? || description.value == "" then
      Stop(Cancelled, [])
    else
      var sent := [GenerationRequest(config, description.value)];
      var instructions: Result<JsValue, Fault> :=
        match reply
        case Failed(f) => Failure(f)
        case Answered(data) => GeneratedContent(data);
      match instructions
      case Failure(f) => Stop(GenerationFailed(f), sent)
      case Success(text) => Append(Compose(current, description.value, ToJsString(text)), sent)
  }

  const NoEditor := Warning("No active editor found. Please open instruction.txt")
  const Generated := Info("Instructions generated and added to instruction.txt")

  /**
   * The generate command on the active editor (null when there is none);
   * `editApplied` is whether the editor accepts the whole-document edit, which
   * the source does not check before reporting success.
   */
  method GenerateCommand(editor: Document?, config: LlmConfig, description: Option<string>, reply: Reply, editApplied: bool)
    returns (notice: Notice, sent: seq<ChatRequest>)
    modifies editor
    ensures editor == null ==> notice == NoEditor && sent == []
    ensures editor != null ==>
      var plan := PlanGeneration(editor.fileName, old(editor.text), config, description, reply);
      && sent == plan.sent
      && notice == (if plan.Stop? then plan.notice else Generated)
      && editor.text == (if plan.Append? && editApplied then plan.newText else old(editor.text))
  {
    if editor == null {
      notice, sent := NoEditor, [];
      return;
    }
    var plan := PlanGeneration(editor.fileName, editor.text, config, description, reply);
    sent := plan.sent;
    if plan.Stop? {
      notice := plan.notice;
    } else {
      if editApplied {
        editor.Replace(0, |editor.text|, plan.newText);
      }
      notice := Generated;
    }
  }
}
