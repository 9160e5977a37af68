/**
 * The streaming completion session of `useChatOpenAI`: the price table, the system-prompt
 * prefix rule, and the controller that buffers streamed tokens, gates their display on the
 * pause flag and settles every call in exactly one of three ways (success, cancellation,
 * error).
 */
module ChatOpenAI {
  import opened Wrappers
  import opened Strings
  import opened Messages

  // ---------------------------------------------------------------------------------------
  // Pricing

  const Gpt4: string := "gpt-4"
  const Gpt35Turbo: string := "gpt-3.5-turbo"

  /**
   * Estimated cost in dollars of `tokens` tokens for `model`, priced per thousand tokens;
   * `None` when the pricing of the model is unknown (TypeScript's `undefined`).
   */
  function CalculateTokenCost(tokens: int, model: string): (cost: Option<real>)
    ensures cost.Some? <==> model == Gpt4 || model == Gpt35Turbo
    ensures model == Gpt4 ==> cost == Some((tokens * 3) as real / 50000.0)
    ensures model == Gpt35Turbo ==> cost == Some(tokens as real / 500000.0)
  {
    var thousands := tokens as real / 1000.0;
    if model == Gpt4 then Some(thousands * 0.06)
    else if model == Gpt35Turbo then Some(thousands * 0.002)
    else None
  }

  /** A known price is never negative for a non-negative token count. */
  lemma CostNonNegative(tokens: int, model: string)
    ensures tokens >= 0 && CalculateTokenCost(tokens, model).Some? ==>
      CalculateTokenCost(tokens, model).value >= 0.0
  {
  }

  /** A known price grows with the token count. */
  lemma CostMonotone(fewer: int, more: int, model: string)
    requires fewer <= more
    ensures CalculateTokenCost(fewer, model).Some? ==>
      CalculateTokenCost(fewer, model).value <= CalculateTokenCost(more, model).value
  {
  }

  /** Pricing is linear: the cost of two batches is the sum of their costs. */
  lemma CostAdditive(a: int, b: int, model: string)
    requires CalculateTokenCost(a, model).Some?
    ensures CalculateTokenCost(a + b, model).value ==
      CalculateTokenCost(a, model).value + CalculateTokenCost(b, model).value
  {
  }

  /** The token count of a conversation and its estimated cost. */
  datatype TokenInfo = TokenInfo(count: int, cost: Option<real>)

  /**
   * The accounting half of `getTokenInfo`: the count comes from the tokenizer (an input
   * here) and the cost is priced from it; an unknown model gives no cost, never zero.
   */
  function GetTokenInfo(totalCount: int, modelName: string): (info: TokenInfo)
    ensures info.count == totalCount
    ensures info.cost == CalculateTokenCost(totalCount, modelName)
    ensures info.cost.None? <==> modelName != Gpt4 && modelName != Gpt35Turbo
    ensures totalCount >= 0 && info.cost.Some? ==> info.cost.value >= 0.0
  {
    CostNonNegative(totalCount, modelName);
    TokenInfo(totalCount, CalculateTokenCost(totalCount, modelName))
  }

  // ---------------------------------------------------------------------------------------
  // What is transmitted

  /**
   * The sequence sent upstream: the caller's messages, prefixed with the default system
   * turn built from `systemId` and `systemText` unless the first message already is a
   * system turn. The caller's sequence is never altered; it is always the tail.
   */
  function MessagesToSend(messages: seq<ChatMessage>, systemId: string, systemText: string)
    : (toSend: seq<ChatMessage>)
    ensures |toSend| > 0 && toSend[0].SystemMessage?
    ensures |messages| > 0 && messages[0].SystemMessage? ==> toSend == messages
    ensures !(|messages| > 0 && messages[0].SystemMessage?) ==>
      toSend[0] == SystemMessage(systemId, systemText) && toSend[1..] == messages
  {
    if |messages| > 0 && messages[0].SystemMessage? then messages
    else [SystemMessage(systemId, systemText)] + messages
  }

  // ---------------------------------------------------------------------------------------
  // Error classification

  /** The literal that opens the JSON object that langchain embeds in OpenAI errors. */
  const ErrorJsonOpen: string := "{\"error\""

  /**
   * `/{"error".+$/` matches at position `i`: the opening literal, then at least one
   * character, and no line terminator up to the end of the input (`$` without the `m`
   * flag is the end of the input; `.` does not match a line terminator).
   */
  predicate ErrorJsonMatchesAt(s: string, i: nat)
  {
    i + |ErrorJsonOpen| < |s| && s[i..i + |ErrorJsonOpen|] == ErrorJsonOpen &&
    forall k :: i + |ErrorJsonOpen| <= k < |s| ==> !IsLineTerminator(s[k])
  }

  /** The leftmost position at or after `from` where `/{"error".+$/` matches. */
  function FindErrorJson(s: string, from: nat): (r: Option<nat>)
    requires from <= |s|
    ensures r.Some? ==> from <= r.value < |s| && ErrorJsonMatchesAt(s, r.value)
    ensures forall j :: from <= j && (r.None? || j < r.value) ==> !ErrorJsonMatchesAt(s, j)
    decreases |s| - from
  {
    if from == |s| then None
    else if ErrorJsonMatchesAt(s, from) then Some(from)
    else FindErrorJson(s, from + 1)
  }

  /** `message.match(/{"error".+$/)`: the matched text (`matches[0]`), the leftmost match. */
  function ErrorJsonMatch(message: string): (m: Option<string>)
    ensures m.None? <==> forall i :: !ErrorJsonMatchesAt(message, i)
    ensures m.Some? ==> exists i: nat :: (ErrorJsonMatchesAt(message, i) && m.value == message[i..] &&
      forall j :: 0 <= j < i ==> !ErrorJsonMatchesAt(message, j))
  {
    match FindErrorJson(message, 0)
    case Some(i) => Some(message[i..])
    case None => None
  }

  /** How a call settles. */
  datatype Terminal =
    | Completed(text: string)      // the stream closed and the call resolved with `text`
    | Rejected(message: string)    // the call rejected with an error carrying `message`

  /** A rejection of the session, as the caller sees it. */
  datatype Failure =
    | OpenAiApiError(message: string)   // the error extracted from the embedded JSON
    | Rethrown(message: string)         // the original error, or the one parsing threw

  /** The three mutually exclusive ends of a call. */
  datatype Outcome = Succeeded | Cancelled | Errored

  const CancelPrefix: string := "Cancel:"
  const TruncationMarker: string := "..."
  const ApiErrorPrefix: string := "OpenAI API Error: "

  /**
   * The three-way split of the `then`/`catch` chain: a completion succeeds, a rejection
   * whose message starts with `Cancel:` is a cancellation, and any other rejection is an
   * error.
   */
  function Classify(t: Terminal): (outcome: Outcome)
    ensures outcome == Succeeded <==> t.Completed?
    ensures outcome == Cancelled <==> t.Rejected? && CancelPrefix <= t.message
    ensures outcome == Errored <==> t.Rejected? && !(CancelPrefix <= t.message)
  {
    if t.Completed? then Succeeded
    else if CancelPrefix <= t.message then Cancelled
    else Errored
  }

  /**
   * The failure for a rejection that is not a cancellation. `parse` stands for
   * `JSON.parse(text).error.message`: it yields the inner message, or the message of the
   * error that parsing (or the property access) throws, which is then rethrown.
   */
  function RejectionFailure(message: string, parse: string -> Result<string, string>)
    : (f: Failure)
    ensures ErrorJsonMatch(message).None? ==> f == Rethrown(message)
    ensures f.OpenAiApiError? <==>
      ErrorJsonMatch(message).Some? && parse(ErrorJsonMatch(message).value).Success?
    ensures f.OpenAiApiError? ==>
      f.message == ApiErrorPrefix + parse(ErrorJsonMatch(message).value).value
    ensures ErrorJsonMatch(message).Some? && parse(ErrorJsonMatch(message).value).Failure? ==>
      f == Rethrown(parse(ErrorJsonMatch(message).value).error)
  {
    match ErrorJsonMatch(message)
    case None => Rethrown(message)
    case Some(json) =>
      match parse(json)
      case Success(inner) => OpenAiApiError(ApiErrorPrefix + inner)
      case Failure(thrown) => Rethrown(thrown)
  }

  /**
   * What a call settles to, given the session's `id`, `model`, the tokens buffered so far
   * and the terminal event of the transport.
   */
  function SettleResult(id: string, model: string, buffer: seq<string>, t: Terminal,
                        parse: string -> Result<string, string>)
    : (r: Result<ChatMessage, Failure>)
    ensures r.Success? <==> Classify(t) != Errored
    ensures r.Success? ==> r.value.AiMessage? && r.value.id == id && r.value.model == model
    ensures Classify(t) == Succeeded ==> r.value.text == t.text
    ensures Classify(t) == Cancelled ==> r.value.text == Concat(buffer) + TruncationMarker
    ensures Classify(t) == Errored ==> r.error == RejectionFailure(t.message, parse)
  {
    match Classify(t)
    case Succeeded => Success(AiMessage(id, model, t.text))
    case Cancelled =>
      ConcatAppend(buffer, TruncationMarker);
      Success(AiMessage(id, model, Concat(buffer + [TruncationMarker])))
    case Errored => Failure(RejectionFailure(t.message, parse))
  }

  // ---------------------------------------------------------------------------------------
  // The session controller

  /**
   * The state `useChatOpenAI` keeps for streaming: the token buffer of the current call,
   * the pause flag (the `paused` state, read through its ref at each token), the streaming
   * message shown to the host (`visible`, the `streamingMessage` state), the `id` and
   * `model` of the current call, and whether a cancel function (an abort controller) is
   * installed and has been triggered.
   */
  class ChatSession {
    var buffer: seq<string>
    var paused: bool
    var visible: Option<ChatMessage>
    var id: string
    var model: string
    var hasController: bool
    var aborted: bool

    /** What is shown belongs to the current call and never runs ahead of the buffer. */
    ghost predicate Valid()
      reads this
    {
      visible.Some? ==>
        visible.value == AiMessage(id, model, visible.value.text) &&
        visible.value.text <= Concat(buffer)
    }

    constructor ()
      ensures Valid()
      ensures buffer == [] && !paused && visible == None
      ensures !hasController && !aborted
    {
      buffer := [];
      paused := false;
      visible := None;
      id := "";
      model := "";
      hasController := false;
      aborted := false;
    }

    method Pause()
      requires Valid()
      modifies this`paused
      ensures Valid() && paused
    {
      paused := true;
    }

    method Resume()
      requires Valid()
      modifies this`paused
      ensures Valid() && !paused
    {
      paused := false;
    }

    method TogglePause()
      requires Valid()
      modifies this`paused
      ensures Valid() && paused == !old(paused)
    {
      paused := !paused;
    }

    /** The Escape key or the cancel button: aborts the installed controller, if any. */
    method Cancel()
      requires Valid()
      modifies this`aborted
      ensures Valid() && aborted == (old(aborted) || hasController)
    {
      if hasController {
        aborted := true;
      }
    }

    /**
     * The synchronous part of `callChatApi`: a fresh buffer, an empty assistant message
     * with the new `id` on display, a fresh abort controller, and the sequence to send.
     */
    method Start(newId: string, newModel: string, messages: seq<ChatMessage>,
                 systemId: string, systemText: string)
      returns (toSend: seq<ChatMessage>)
      modifies this`buffer, this`visible, this`id, this`model, this`hasController, this`aborted
      ensures Valid()
      ensures buffer == [] && visible == Some(AiMessage(newId, newModel, ""))
      ensures id == newId && model == newModel && hasController && !aborted
      ensures toSend == MessagesToSend(messages, systemId, systemText)
    {
      buffer := [];
      id, model := newId, newModel;
      visible := Some(AiMessage(id, model, ""));
      hasController, aborted := true, false;
      toSend := MessagesToSend(messages, systemId, systemText);
    }

    /**
     * `handleLLMNewToken`: the token is always buffered; the display is refreshed with the
     * whole buffer only when not paused.
     */
    method OnToken(token: string)
      requires Valid()
      modifies this`buffer, this`visible
      ensures Valid()
      ensures buffer == old(buffer) + [token]
      ensures visible == if paused then old(visible) else Some(AiMessage(id, model, Concat(buffer)))
    {
      ConcatPrefix(buffer, [token]);
      buffer := buffer + [token];
      if !paused {
        visible := Some(AiMessage(id, model, Concat(buffer)));
      }
    }

    /**
     * The `then`/`catch`/`finally` chain: resolve or reject according to the terminal
     * event, then clear the streaming message and reset the pause flag whatever happened.
     */
    method Settle(t: Terminal, parse: string -> Result<string, string>)
      returns (r: Result<ChatMessage, Failure>)
      requires Valid()
      modifies this`buffer, this`visible, this`paused
      ensures Valid()
      ensures r == SettleResult(id, model, old(buffer), t, parse)
      ensures buffer == if Classify(t) == Cancelled then old(buffer) + [TruncationMarker] else old(buffer)
      ensures visible == None && !paused
    {
      if t.Completed? {
        r := Success(AiMessage(id, model, t.text));
      } else if CancelPrefix <= t.message {
        buffer := buffer + [TruncationMarker];
        r := Success(AiMessage(id, model, Concat(buffer)));
      } else {
        r := Failure(RejectionFailure(t.message, parse));
      }
      visible := None;
      paused := false;
    }

    /** Dispatches one event of a streaming call to the operation it triggers. */
    method Handle(e: StreamEvent)
      requires Valid()
      modifies this`buffer, this`visible, this`paused, this`aborted
      ensures Valid()
      ensures buffer == old(buffer) + (if e.Token? then [e.text] else [])
      ensures Concat(old(buffer)) <= Concat(buffer)
      ensures paused ==
        match e
        case PauseClick => true
        case ResumeClick => false
        case ToggleClick => !old(paused)
        case _ => old(paused)
      ensures visible ==
        if e.Token? && !old(paused) then Some(AiMessage(id, model, Concat(buffer))) else old(visible)
      ensures aborted == if e.CancelKey? then old(aborted) || hasController else old(aborted)
    {
      match e {
        case Token(t) =>
          ConcatPrefix(buffer, [t]);
          OnToken(t);
        case PauseClick => Pause();
        case ResumeClick => Resume();
        case ToggleClick => TogglePause();
        case CancelKey => Cancel();
      }
    }
  }

  // ---------------------------------------------------------------------------------------
  // One call, driven by an abstract transport

  /** What happens while a call is streaming, in the order it happens. */
  datatype StreamEvent =
    | Token(text: string)   // the transport delivers a token
    | PauseClick            // `pause()`
    | ResumeClick           // `resume()`
    | ToggleClick           // `togglePause()`
    | CancelKey             // `cancel()` (Escape)

  /** The tokens among `events`, in arrival order. */
  function Tokens(events: seq<StreamEvent>): seq<string>
  {
    if events == [] then []
    else
      var last := events[|events| - 1];
      Tokens(events[..|events| - 1]) + (if last.Token? then [last.text] else [])
  }

  /** The pause flag after `events`, starting unpaused. */
  function PausedAfter(events: seq<StreamEvent>): bool
  {
    if events == [] then false
    else
      match events[|events| - 1]
      case PauseClick => true
      case ResumeClick => false
      case ToggleClick => !PausedAfter(events[..|events| - 1])
      case _ => PausedAfter(events[..|events| - 1])
  }

  lemma TokensStep(events: seq<StreamEvent>, i: nat)
    requires i < |events|
    ensures Tokens(events[..i + 1]) ==
      Tokens(events[..i]) + (if events[i].Token? then [events[i].text] else [])
    ensures PausedAfter(events[..i + 1]) ==
      match events[i]
      case PauseClick => true
      case ResumeClick => false
      case ToggleClick => !PausedAfter(events[..i])
      case _ => PausedAfter(events[..i])
  {
    assert events[..i + 1][..i] == events[..i];
  }

  /**
   * The streaming message after event `k` of a call: refreshed with every token received
   * so far when a token arrives unpaused, otherwise left as it was.
   */
  ghost predicate ShownStep(events: seq<StreamEvent>, k: nat, before: Option<ChatMessage>,
                            after: Option<ChatMessage>, id: string, model: string)
    requires k < |events|
  {
    after ==
      if events[k].Token? && !PausedAfter(events[..k])
      then Some(AiMessage(id, model, Concat(Tokens(events[..k + 1]))))
      else before
  }

  /** A streaming message of the call `id`/`model` whose text is a prefix of `full`. */
  ghost predicate ShowsPrefix(shown: Option<ChatMessage>, id: string, model: string, full: string)
  {
    shown.Some? && shown.value == AiMessage(id, model, shown.value.text) && shown.value.text <= full
  }

  /**
   * One call of `callChatApi` on a fresh hook: start, apply `events` in order, then
   * settle with `terminal`. `shown` records the streaming message after the start and
   * after each event.
   */
  method Run(id: string, model: string, messages: seq<ChatMessage>,
             systemId: string, systemText: string,
             events: seq<StreamEvent>, terminal: Terminal,
             parse: string -> Result<string, string>)
    returns (toSend: seq<ChatMessage>, shown: seq<Option<ChatMessage>>,
             r: Result<ChatMessage, Failure>)
    ensures toSend == MessagesToSend(messages, systemId, systemText)
    ensures r == SettleResult(id, model, Tokens(events), terminal, parse)
    ensures |shown| == |events| + 1 && shown[0] == Some(AiMessage(id, model, ""))
    ensures forall k :: 0 <= k < |events| ==> ShownStep(events, k, shown[k], shown[k + 1], id, model)
    ensures forall k :: 0 <= k < |shown| ==> ShowsPrefix(shown[k], id, model, Concat(Tokens(events)))
  {
    var session := new ChatSession();
    toSend := session.Start(id, model, messages, systemId, systemText);
    shown := [session.visible];
    var i := 0;
    while i < |events|
      invariant 0 <= i <= |events|
      invariant fresh(session)
      invariant session.Valid()
      invariant session.id == id && session.model == model
      invariant session.buffer == Tokens(events[..i])
      invariant session.paused == PausedAfter(events[..i])
      invariant |shown| == i + 1 && shown[i] == session.visible
      invariant shown[0] == Some(AiMessage(id, model, ""))
      invariant forall k :: 0 <= k < i ==> ShownStep(events, k, shown[k], shown[k + 1], id, model)
      invariant forall k :: 0 <= k <= i ==> ShowsPrefix(shown[k], id, model, Concat(session.buffer))
      decreases |events| - i
    {
      TokensStep(events, i);
      ghost var before := session.buffer;
      session.Handle(events[i]);
      forall k | 0 <= k <= i
        ensures ShowsPrefix(shown[k], id, model, Concat(session.buffer))
      {
        PrefixTransitive(shown[k].value.text, Concat(before), Concat(session.buffer));
      }
      shown := shown + [session.visible];
      i := i + 1;
    }
    assert events[..|events|] == events;
    r := session.Settle(terminal, parse);
  }
}
