/**
 * The header above a highlighted code block: when the Run button is offered, how a code
 * fence is built, and what prompt running a JavaScript block sends back to the chat.
 */
module CodeHeader {
  import opened Wrappers

  /** The Run button is offered for JavaScript blocks, and only when there is a prompt sink. */
  predicate ShouldShowRunButton(language: string, hasOnPrompt: bool)
  {
    (language == "js" || language == "javascript") && hasOnPrompt
  }

  /** The Run button: absent, or present and disabled while a reply is loading. */
  datatype RunButton = Hidden | Shown(disabled: bool)

  function RunButtonState(language: string, hasOnPrompt: bool, isLoading: bool): (button: RunButton)
    ensures button.Shown? <==> (language == "js" || language == "javascript") && hasOnPrompt
    ensures button.Shown? ==> button.disabled == isLoading
  {
    if ShouldShowRunButton(language, hasOnPrompt) then Shown(isLoading) else Hidden
  }

  const Fence: string := "```"

  /** `toCodeBlock(text, language = "")`: a Markdown fence around `text`. */
  function ToCodeBlock(text: string, language: string := ""): (block: string)
    ensures |block| == |Fence| + |language| + 1 + |text| + 1 + |Fence|
    ensures block[..|Fence|] == Fence && block[|block| - |Fence|..] == Fence
  {
    Fence + language + "\n" + text + "\n" + Fence
  }

  /** The first position at or after `from` holding a line feed; `|s|` when there is none. */
  function LineEnd(s: string, from: nat): (k: nat)
    requires from <= |s|
    ensures from <= k <= |s|
    ensures k < |s| ==> s[k] == '\n'
    ensures forall j :: from <= j < k ==> s[j] != '\n'
    decreases |s| - from
  {
    if from == |s| || s[from] == '\n' then from else LineEnd(s, from + 1)
  }

  /**
   * Reads a fence back: the info string on the opening line and the text between it and
   * the closing line; `None` when `block` is not fenced that way.
   */
  function ParseCodeBlock(block: string): (parsed: Option<(string, string)>)
  {
    if |block| < 2 * |Fence| + 2 || block[..|Fence|] != Fence || block[|block| - |Fence| - 1..] != "\n" + Fence
    then None
    else
      var body := block[|Fence|..|block| - |Fence| - 1];
      var k := LineEnd(body, 0);
      if k == |body| then None else Some((body[..k], body[k + 1..]))
  }

  /** A fence gives back its language and its text, as long as the language is one line. */
  lemma {:induction false} CodeBlockRoundTrip(text: string, language: string)
    requires forall c :: 0 <= c < |language| ==> language[c] != '\n'
    ensures ParseCodeBlock(ToCodeBlock(text, language)) == Some((language, text))
  {
    var block := ToCodeBlock(text, language);
    assert block == Fence + (language + "\n" + text) + ("\n" + Fence);
    var body := block[|Fence|..|block| - |Fence| - 1];
    assert body == language + "\n" + text;
    assert block[|block| - |Fence| - 1..] == "\n" + Fence;
    LineEndAt(body, language);
    assert body[..|language|] == language;
    assert body[|language| + 1..] == text;
  }

  lemma LineEndAt(body: string, line: string)
    requires |body| > |line| && body[..|line|] == line && body[|line|] == '\n'
    requires forall c :: 0 <= c < |line| ==> line[c] != '\n'
    ensures LineEnd(body, 0) == |line|
  {
  }

  // ---------------------------------------------------------------------------------------
  // Running a block

  /** The value the block's code returned, once awaited if it was a promise. */
  datatype JsValue =
    | JsString(text: string)
    | JsOther(serialized: Result<string, Thrown>)   // what `JSON.stringify` gives, or throws

  /** Something thrown: an `Error` object, or any other value and its string form. */
  datatype Thrown =
    | ErrorObject(name: string, message: string, stack: string)
    | OtherValue(asString: string)

  /** How evaluating the block ended. */
  datatype Evaluation = Returned(value: JsValue) | Threw(thrown: Thrown)

  /** The fence that reports a thrown value. */
  function ThrownBlock(thrown: Thrown): (block: string)
    ensures thrown.ErrorObject? ==>
      block == ToCodeBlock(thrown.name + ": " + thrown.message + "\n" + thrown.stack)
    ensures thrown.OtherValue? ==> block == ToCodeBlock(thrown.asString)
  {
    match thrown
    case ErrorObject(name, message, stack) => ToCodeBlock(name + ": " + message + "\n" + stack)
    case OtherValue(text) => ToCodeBlock(text)
  }

  /**
   * `handleRun`: without a prompt sink nothing is sent; otherwise exactly one prompt is
   * sent: a string result as it is, any other result as a `json` fence of its
   * serialisation, and a thrown value (also one thrown while serialising) as a fence with
   * no language.
   */
  function HandleRun(hasOnPrompt: bool, evaluation: Evaluation): (prompt: Option<string>)
    ensures prompt.Some? <==> hasOnPrompt
    ensures hasOnPrompt && evaluation.Returned? && evaluation.value.JsString? ==>
      prompt.value == evaluation.value.text
    ensures (hasOnPrompt && evaluation.Returned? && evaluation.value.JsOther? &&
             evaluation.value.serialized.Success?) ==>
      ParseCodeBlock(prompt.value) == Some(("json", evaluation.value.serialized.value))
    ensures (hasOnPrompt && evaluation.Returned? && evaluation.value.JsOther? &&
             evaluation.value.serialized.Failure?) ==>
      prompt.value == ThrownBlock(evaluation.value.serialized.error)
    ensures hasOnPrompt && evaluation.Threw? ==> prompt.value == ThrownBlock(evaluation.thrown)
  {
    if !hasOnPrompt then None
    else
      match evaluation
      case Returned(JsString(text)) => Some(text)
      case Returned(JsOther(Success(json))) =>
        CodeBlockRoundTrip(json, "json");
        Some(ToCodeBlock(json, "json"))
      case Returned(JsOther(Failure(thrown))) => Some(ThrownBlock(thrown))
      case Threw(thrown) => Some(ThrownBlock(thrown))
  }

  /** Whenever the Run button is offered, pressing it sends exactly one prompt. */
  lemma RunButtonSendsPrompt(language: string, hasOnPrompt: bool, isLoading: bool,
                             evaluation: Evaluation)
    requires RunButtonState(language, hasOnPrompt, isLoading).Shown?
    ensures HandleRun(hasOnPrompt, evaluation).Some?
  {
  }

  /** A thrown `Error` is reported in a fence with no info string, name and message first. */
  lemma ErrorReportReadsBack(name: string, message: string, stack: string)
    ensures ParseCodeBlock(ThrownBlock(ErrorObject(name, message, stack))) ==
      Some(("", name + ": " + message + "\n" + stack))
  {
    CodeBlockRoundTrip(name + ": " + message + "\n" + stack, "");
  }
}
