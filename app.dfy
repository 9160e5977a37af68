/**
 * The host of the chat screen: how a prompt becomes a history, what part of it is sent,
 * how the reply or the error is recorded, and the auto-scroll flag that follows the user's
 * scrolling while a reply streams in.
 */
module App {
  import opened Wrappers
  import opened Messages
  import ChatOpenAI

  // ---------------------------------------------------------------------------------------
  // Auto-scroll

  /** The "fudge factor" in pixels under which the list still counts as scrolled down. */
  const ScrollThreshold: int := 25

  /** The scroll measurements of the message list, in whole pixels. */
  datatype Measurement = Measurement(scrollTop: int, clientHeight: int, scrollHeight: int)

  /** The list counts as scrolled down when at most 25 pixels are left below the view. */
  function AtBottom(m: Measurement): (atBottom: bool)
    ensures atBottom <==> m.scrollHeight - (m.scrollTop + m.clientHeight) <= ScrollThreshold
  {
    m.scrollTop + m.clientHeight >= m.scrollHeight - ScrollThreshold
  }

  /**
   * The auto-scroll flag after the scroll handler runs. Both tests read the flag as it was
   * when the handler was created, so the second never undoes the first.
   */
  function NextAutoScroll(loading: bool, shouldAutoScroll: bool, atBottom: bool): (next: bool)
    ensures !loading ==> next == shouldAutoScroll
    ensures loading ==> next == atBottom
  {
    var afterDisable := if loading && shouldAutoScroll && !atBottom then false else shouldAutoScroll;
    if loading && !shouldAutoScroll && atBottom then true else afterDisable
  }

  // ---------------------------------------------------------------------------------------
  // What a prompt sends

  /**
   * `list.slice(-count)`: the last `count` elements, or all of them when there are fewer;
   * `slice(-0)` is `slice(0)`, the whole list.
   */
  function SliceLast<T>(list: seq<T>, count: nat): (tail: seq<T>)
    ensures |tail| == if count == 0 || |list| < count then |list| else count
    ensures list == list[..|list| - |tail|] + tail
  {
    var start := if count == 0 || |list| < count then 0 else |list| - count;
    assert list == list[..start] + list[start..];
    list[start..]
  }

  /**
   * The messages handed to the session: in single-message mode only the last two turns of
   * the full history, otherwise the full history, in order.
   */
  function SelectMessagesToSend(singleMessageMode: bool, allMessages: seq<ChatMessage>)
    : (toSend: seq<ChatMessage>)
    ensures !singleMessageMode ==> toSend == allMessages
    ensures singleMessageMode ==>
      |toSend| == (if |allMessages| < 2 then |allMessages| else 2) &&
      toSend == allMessages[|allMessages| - |toSend|..]
  {
    if singleMessageMode then SliceLast(allMessages, 2) else allMessages
  }

  /** The history after a prompt settles: the reply is appended only on success. */
  function SettledHistory(allMessages: seq<ChatMessage>, reply: Result<ChatMessage, ChatOpenAI.Failure>)
    : (history: seq<ChatMessage>)
    ensures |history| >= |allMessages| && history[..|allMessages|] == allMessages
    ensures reply.Success? <==> |history| == |allMessages| + 1
    ensures reply.Success? ==> history[|allMessages|] == reply.value
  {
    match reply
    case Success(response) => allMessages + [response]
    case Failure(_) => allMessages
  }

  // ---------------------------------------------------------------------------------------
  // The host's state

  /**
   * The state the chat screen keeps: the static `messages`, the `loading` flag, the
   * auto-scroll flag, the single-message mode switch, the history captured by the prompt
   * in flight (`pending`, the closure's `allMessages`) and the error notices shown so far.
   */
  class Host {
    var messages: seq<ChatMessage>
    var loading: bool
    var shouldAutoScroll: bool
    var singleMessageMode: bool
    var pending: seq<ChatMessage>
    var notices: seq<string>

    constructor (initial: seq<ChatMessage>)
      ensures messages == initial && pending == initial && notices == []
      ensures !loading && shouldAutoScroll && !singleMessageMode
    {
      messages := initial;
      loading := false;
      shouldAutoScroll := true;
      singleMessageMode := false;
      pending := initial;
      notices := [];
    }

    method SetSingleMessageMode(on: bool)
      modifies this`singleMessageMode
      ensures singleMessageMode == on
    {
      singleMessageMode := on;
    }

    /** The scroll listener; `list` is `None` while the message list is not mounted. */
    method HandleScroll(list: Option<Measurement>)
      modifies this`shouldAutoScroll
      ensures shouldAutoScroll ==
        if list.None? then old(shouldAutoScroll)
        else NextAutoScroll(loading, old(shouldAutoScroll), AtBottom(list.value))
    {
      if list.None? {
        return;
      }
      var atBottom := AtBottom(list.value);
      var wasAutoScroll := shouldAutoScroll;
      if loading && wasAutoScroll && !atBottom {
        shouldAutoScroll := false;
      }
      if loading && !wasAutoScroll && atBottom {
        shouldAutoScroll := true;
      }
    }

    /**
     * The synchronous part of `onPrompt`: the human turn is appended, the screen is put in
     * the loading state, and the messages to send are chosen.
     */
    method BeginPrompt(prompt: string, user: Option<string>, humanId: string)
      returns (toSend: seq<ChatMessage>)
      modifies this`messages, this`loading, this`shouldAutoScroll, this`pending
      ensures pending == old(messages) + [HumanMessage(humanId, prompt, user)]
      ensures messages == pending && loading && shouldAutoScroll
      ensures toSend == SelectMessagesToSend(singleMessageMode, pending)
    {
      var allMessages := messages + [HumanMessage(humanId, prompt, user)];
      pending := allMessages;
      shouldAutoScroll := true;
      messages := allMessages;
      loading := true;
      toSend := SelectMessagesToSend(singleMessageMode, allMessages);
    }

    /**
     * The part of `onPrompt` after the session settles: the reply is appended to the
     * captured history on success, an error notice is shown on failure, and in both cases
     * loading ends and auto-scroll is switched back on.
     */
    method FinishPrompt(reply: Result<ChatMessage, ChatOpenAI.Failure>)
      modifies this`messages, this`loading, this`shouldAutoScroll, this`notices
      ensures messages == if reply.Success? then SettledHistory(pending, reply) else old(messages)
      ensures notices == if reply.Failure? then old(notices) + [reply.error.message] else old(notices)
      ensures !loading && shouldAutoScroll
    {
      match reply {
        case Success(response) =>
          messages := pending + [response];
        case Failure(err) =>
          notices := notices + [err.message];
      }
      loading := false;
      shouldAutoScroll := true;
    }

    /** The "Follow Chat" button: auto-scroll back on and the paused stream resumed. */
    method HandleFollowChatClick(chat: ChatOpenAI.ChatSession)
      requires chat.Valid()
      modifies this`shouldAutoScroll, chat`paused
      ensures shouldAutoScroll && !chat.paused && chat.Valid()
    {
      shouldAutoScroll := true;
      chat.Resume();
    }
  }

  /**
   * One prompt from start to finish on a fresh screen showing `history`: the host begins
   * the prompt, one streaming call runs over `events` and `terminal`, and the host records
   * its outcome. Returns what was sent upstream and the resulting history and notices.
   */
  method Converse(history: seq<ChatMessage>, singleMessageMode: bool,
                  prompt: string, user: Option<string>, humanId: string,
                  replyId: string, model: string, systemId: string, systemText: string,
                  events: seq<ChatOpenAI.StreamEvent>, terminal: ChatOpenAI.Terminal,
                  parse: string -> Result<string, string>)
    returns (sent: seq<ChatMessage>, finalHistory: seq<ChatMessage>, notices: seq<string>)
    ensures sent == ChatOpenAI.MessagesToSend(
      SelectMessagesToSend(singleMessageMode, history + [HumanMessage(humanId, prompt, user)]),
      systemId, systemText)
    ensures ChatOpenAI.Classify(terminal) != ChatOpenAI.Errored ==>
      |finalHistory| == |history| + 2 &&
      finalHistory[..|history| + 1] == history + [HumanMessage(humanId, prompt, user)] &&
      finalHistory[|history| + 1] ==
        ChatOpenAI.SettleResult(replyId, model, ChatOpenAI.Tokens(events), terminal, parse).value &&
      notices == []
    ensures ChatOpenAI.Classify(terminal) == ChatOpenAI.Errored ==>
      finalHistory == history + [HumanMessage(humanId, prompt, user)] &&
      notices == [ChatOpenAI.SettleResult(replyId, model, ChatOpenAI.Tokens(events), terminal, parse)
                    .error.message]
  {
    var host := new Host(history);
    host.SetSingleMessageMode(singleMessageMode);
    var toSend := host.BeginPrompt(prompt, user, humanId);
    var shown, reply;
    sent, shown, reply := ChatOpenAI.Run(replyId, model, toSend, systemId, systemText,
                                         events, terminal, parse);
    host.FinishPrompt(reply);
    finalHistory, notices := host.messages, host.notices;
  }
}
