# ChatCraft core, modelled in Dafny

This project models the chat client ChatCraft and proves properties of the model. It
covers seven parts of the client:

- **The streaming completion session** (`useChatOpenAI`, module `ChatOpenAI`):
  - the price table and token accounting;
  - the rule that prefixes a system turn before transmission;
  - the session controller. It buffers every streamed token and refreshes the streaming
    message only while not paused.
  - how a call settles. It succeeds with the full text, or succeeds with the buffered
    text and `...` after a cancellation. Otherwise it fails with an error classified from
    the JSON that langchain embeds in the error message.
- **The chat screen host** (`App`, module `App`):
  - the auto-scroll flag driven by the scroll listener;
  - how a prompt becomes a history, and what part of it is sent in single-message mode;
  - how the reply or the error notice is recorded;
  - the "Follow Chat" button.
- **The two Markdown renderers** (`Markdown` and `MarkdownWithMermaid`, modules of the same
  names):
  - the `language-(\w+)` class match, as a leftmost regular-expression match;
  - the short-form normalisation;
  - mermaid and HTML previews;
  - the remark-plugin switch;
  - inline code.
- **The code block header** (`CodeHeader`, module `CodeHeader`):
  - when the Run button is offered;
  - the Markdown fence builder, with a reader that proves the fence round-trips;
  - which prompt running a block sends back.
- **The precache configuration of the build** (`vite.config.ts`, module `ViteConfig`):
  - the `split(".")`-based glob of a language file;
  - the include and ignore pattern lists;
  - the workbox options.
- **The audio player provider** (`use-audio-player.tsx`, module `AudioPlayer`): a
  first-in first-out queue of clips, played one at a time.

Three helper modules sit under these:

- `Wrappers` holds `Option` and `Result`.
- `Strings` models JavaScript's `join("")` and the regular-expression classes `\w` and `.`.
- `Messages` holds the three kinds of chat message.

The form of the model follows the form of the code, part by part:

- **Objects with state become classes.** The session controller (`ChatOpenAI.ChatSession`),
  the screen host (`App.Host`) and the audio player (`AudioPlayer.Player`, over
  `AudioPlayer.ClipArray`) are classes. The component state they keep is fields, and each
  handler is a method with a frame.
- **Everything else is functions.** The parts that only compute are functions with
  contracts, plus lemmas about them.
- **Driver methods run a whole interaction.** `ChatOpenAI.Run` performs one completion
  call over an abstract sequence of transport and user events. `App.Converse` performs one
  prompt from start to finish. `AudioPlayer.PlayInOrder` queues clips and plays them out.
  Their contracts are stated against the specification functions.

Inputs the code takes from the outside world are parameters of the model:

- the transport's events;
- the tokenizer's count;
- the message ids and the default system prompt;
- the result of `JSON.parse(...).error.message`;
- the outcome of evaluating a code block;
- the listing of the language directory.

Two behaviours of the code are worth knowing when reading the model:

- **Tokens after a cancel.** Tokens that arrive after an abort are still pushed to the
  buffer, and they appear in the partial reply if they arrive before the rejection.
  `ChatOpenAI.ChatSession.Handle` buffers every token whatever `aborted` is.
- **Empty message sequences.** An empty sequence is not rejected.
  `ChatOpenAI.MessagesToSend` puts the system turn in front of it, as for any sequence
  that does not start with a system turn.

## Model

| member | source | states |
|---|---|---|
| ChatOpenAI.CalculateTokenCost | src/hooks/use-chat-openai.ts:15-28 | a price exists exactly for `gpt-4` and `gpt-3.5-turbo`: 0.06 and 0.002 dollars per thousand tokens, and no price (not zero) for any other model |
| ChatOpenAI.CostNonNegative | src/hooks/use-chat-openai.ts:15-28 | a known price of a non-negative token count is non-negative |
| ChatOpenAI.CostMonotone | src/hooks/use-chat-openai.ts:15-28 | a known price never decreases as the token count grows |
| ChatOpenAI.CostAdditive | src/hooks/use-chat-openai.ts:15-28 | pricing is linear: two batches cost the sum of their costs |
| ChatOpenAI.GetTokenInfo | src/hooks/use-chat-openai.ts:152-161 | the count is the tokenizer's total and the cost is that count priced for the model; the cost is missing exactly for an unpriced model, and is non-negative otherwise |
| ChatOpenAI.MessagesToSend | src/hooks/use-chat-openai.ts:82-87 | what is sent always starts with a system turn. The caller's sequence is sent unchanged when it already starts with one. Otherwise the default system turn is sent, followed by exactly the caller's sequence. |
| ChatOpenAI.FindErrorJson | src/hooks/use-chat-openai.ts:134 | the leftmost position from which `/{"error".+$/` matches (no line terminator up to the end of the text), and no match before it |
| ChatOpenAI.ErrorJsonMatch | src/hooks/use-chat-openai.ts:134-135 | `matches[0]`: absent exactly when the pattern matches nowhere; otherwise the suffix of the message from the leftmost match |
| ChatOpenAI.RejectionFailure | src/hooks/use-chat-openai.ts:130-142 | an error without embedded JSON is rethrown as it is. Embedded JSON that parses becomes `OpenAI API Error: ` plus its inner message, and only then is the failure an API error. The error thrown by parsing replaces the original. |
| ChatOpenAI.Classify | src/hooks/use-chat-openai.ts:111-121 | exactly one of three outcomes: a completion succeeds, a rejection whose message starts with `Cancel:` is a cancellation, and every other rejection is an error |
| ChatOpenAI.SettleResult | src/hooks/use-chat-openai.ts:111-143 | a call resolves exactly when it completed or its error starts with `Cancel:`. The reply carries the call's id and model. Its text is the completion's text, or the buffered text joined with `...` after a cancellation. Any other error rejects with the classified failure. |
| ChatOpenAI.ChatSession.constructor | src/hooks/use-chat-openai.ts:31-35 | idle: empty buffer, not paused, nothing shown, no controller |
| ChatOpenAI.ChatSession.Pause | src/hooks/use-chat-openai.ts:45-47 | the session becomes paused, and what is shown is untouched |
| ChatOpenAI.ChatSession.Resume | src/hooks/use-chat-openai.ts:49-51 | the session becomes unpaused |
| ChatOpenAI.ChatSession.TogglePause | src/hooks/use-chat-openai.ts:53-55 | the pause flag flips |
| ChatOpenAI.ChatSession.Cancel | src/hooks/use-chat-openai.ts:74-80 | cancelling aborts the installed controller if there is one; it is idempotent |
| ChatOpenAI.ChatSession.Start | src/hooks/use-chat-openai.ts:58-87 | a fresh buffer; an empty reply with the new id and model on display; a fresh, unaborted controller; the system-prefixed sequence to send |
| ChatOpenAI.ChatSession.OnToken | src/hooks/use-chat-openai.ts:96-108 | every token is appended to the buffer. The display shows the whole joined buffer only when not paused, and is otherwise untouched. What is shown stays a prefix of the buffer. |
| ChatOpenAI.ChatSession.Settle | src/hooks/use-chat-openai.ts:111-147 | the result is the settle function applied to the tokens buffered so far. Only a cancellation adds `...` to the buffer. The streaming message is cleared and the pause flag reset on every outcome. |
| ChatOpenAI.ChatSession.Handle | src/hooks/use-chat-openai.ts:45-108 | each event triggers its operation. The buffer grows only by a token's text, and the joined text only grows. The pause flag follows pause, resume and toggle. Only the cancel key aborts, and only when a controller is installed. |
| ChatOpenAI.Run | src/hooks/use-chat-openai.ts:58-150 | one call in full. It sends the system-prefixed sequence and settles to the settle function applied to every token of the call. The streaming message starts empty and changes only when a token arrives unpaused, becoming the joined tokens so far. Every message shown is a prefix of the full joined text. |
| App.AtBottom | src/App.tsx:63-66 | the list counts as scrolled down exactly when at most 25 pixels are left below the view |
| App.NextAutoScroll | src/App.tsx:63-78 | while loading, the new flag is exactly whether the list is within 25 pixels of the bottom; when not loading, the flag is unchanged |
| App.Host.HandleScroll | src/App.tsx:54-79 | the listener does nothing without a mounted list, and otherwise sets the flag by the rule above |
| App.SliceLast | src/App.tsx:103 | `slice(-count)`: the last `count` elements, or all of them when there are fewer, and all of them for `count` 0 (`slice(-0)` is `slice(0)`); the rest of the list comes before them |
| App.SelectMessagesToSend | src/App.tsx:102-103 | in single-message mode the last two messages (or all, when fewer), in order; otherwise the whole history |
| App.SettledHistory | src/App.tsx:104-105 | the history keeps the captured messages as a prefix and gains exactly the reply on success, and nothing on failure |
| App.Host.constructor | src/App.tsx:30-37 | the screen starts not loading, auto-scrolling, out of single-message mode and without notices |
| App.Host.SetSingleMessageMode | src/App.tsx:34 | the switch takes the given value |
| App.Host.BeginPrompt | src/App.tsx:95-104 | the human turn is appended and captured, auto-scroll and loading are switched on, and the chosen part of the new history is handed to the session |
| App.Host.FinishPrompt | src/App.tsx:104-117 | on success the history is the captured one plus the reply; on failure it is unchanged and one notice with the error's message is added; loading ends and auto-scroll is back on either way |
| App.Host.HandleFollowChatClick | src/App.tsx:131-135 | auto-scroll is on and the session is no longer paused |
| App.Converse | src/App.tsx:93-117 | one prompt in full. What is sent upstream is the chosen part of the new history, prefixed with a system turn. A resolved call leaves the history plus the human turn plus exactly the session's reply, and no notice. A rejected call leaves the history plus the human turn and exactly one notice carrying the failure's message. |
| Strings.Concat | src/hooks/use-chat-openai.ts:104 | `join("")`: the joined text is as long as all the parts together |
| Strings.ConcatAppend | src/hooks/use-chat-openai.ts:122-126 | pushing one more part appends exactly that part to the joined text |
| Strings.ConcatPrefix | src/hooks/use-chat-openai.ts:97-104 | the joined text of a buffer is a prefix of the joined text of any longer buffer |
| Strings.ConcatCons | src/hooks/use-chat-openai.ts:104 | the joined text is the first part followed by the joined rest |
| Strings.WordRun | src/components/Markdown.tsx:143 | a greedy `\w+` run: it is the text at that position, made of word characters only, and cannot be extended |
| Markdown.FixLanguage | src/components/Markdown.tsx:101-117 | never empty. No language, or an empty one, gives `text`. `js`, `ts` and `yml` expand to their full names. Any other name is kept. |
| Markdown.FixLanguageIdempotent | src/components/Markdown.tsx:101-117 | normalising a normalised language changes nothing |
| Markdown.FindLanguage | src/components/Markdown.tsx:143 | the leftmost position where `language-` is followed by a word character, and no such position before it |
| Markdown.LanguageMatch | src/components/Markdown.tsx:143 | the captured group of `/language-(\w+)/` on the class, or on `""` when there is none. It is absent exactly when there is no match. Otherwise it is the longest non-empty word run after the leftmost match. |
| Markdown.BlockLanguage | src/components/Markdown.tsx:143-144 | never empty; `text` when the class has no match; otherwise the word run after the leftmost match, normalised |
| Markdown.PreviewEnabled | src/components/Markdown.tsx:148 | previews are on unless `previewCode` is explicitly false |
| Markdown.PreviewPrefix | src/components/Markdown.tsx:146-154 | a preview appears exactly for mermaid and HTML blocks when `previewCode` is unset or true; it carries the block's content |
| Markdown.RemarkPluginsEnabled | src/components/Markdown.tsx:131 | the plugins are on exactly when `previewCode` is true, which also enables previews |
| Markdown.RenderCode | src/components/Markdown.tsx:133-169 | inline code is rendered with the `inline-code` class only. A block shows its content in the normalised language, under a header naming that language, after its preview. |
| MarkdownWithMermaid.BlockLanguage | src/components/MarkdownWithMermaid.tsx:84-86 | the capture as written: empty exactly when nothing is captured |
| MarkdownWithMermaid.RenderCode | src/components/MarkdownWithMermaid.tsx:75-111 | inline code keeps its own class. A block shows its content in the captured language, after its preview, with no language header. |
| MarkdownWithMermaid.ShortFormsKept | src/components/MarkdownWithMermaid.tsx:85-86 | a `language-js` block is highlighted as `js` here and as `javascript` by the other renderer |
| MarkdownWithMermaid.NoClassFallbacks | src/components/MarkdownWithMermaid.tsx:85-86 | without a class the language falls back to `""` here and to `text` in the other renderer |
| MarkdownWithMermaid.UnsetPreviewHasNoPlugins | src/components/MarkdownWithMermaid.tsx:73-92 | an unset `previewCode` still shows a mermaid block's diagram but enables no plugin |
| CodeHeader.RunButtonState | src/components/CodeHeader.tsx:97-108 | with the condition of line 28: the button is present exactly for `js` or `javascript` blocks when a prompt sink exists, and disabled exactly while loading |
| CodeHeader.RunButtonSendsPrompt | src/components/CodeHeader.tsx:54-108 | whenever the button is offered, pressing it sends exactly one prompt |
| CodeHeader.ToCodeBlock | src/components/CodeHeader.tsx:59 | a fence starts and ends with three backticks, and its length accounts for the language, the text and two line feeds |
| CodeHeader.LineEnd | src/components/CodeHeader.tsx:59 | the first line feed at or after a position, or the end of the text |
| CodeHeader.CodeBlockRoundTrip | src/components/CodeHeader.tsx:59 | reading a fence back gives its language and its text, whenever the language is on one line |
| CodeHeader.ThrownBlock | src/components/CodeHeader.tsx:74-77 | an `Error` is reported as `name: message`, a line feed and the stack, in a fence with no language; any other thrown value as its string form |
| CodeHeader.HandleRun | src/components/CodeHeader.tsx:54-80 | nothing is sent without a prompt sink, and exactly one prompt otherwise. A string result is sent as it is. Any other result is sent as a `json` fence that reads back to its serialisation. A thrown value, including one `JSON.stringify` throws, is sent as the report fence. |
| CodeHeader.ErrorReportReadsBack | src/components/CodeHeader.tsx:74-77 | an error report reads back as a fence with no language holding `name: message`, a line feed and the stack |
| ViteConfig.Split | vite.config.ts:18 | `split(".")` gives at least one piece, and no piece contains the separator |
| ViteConfig.FirstIndex | vite.config.ts:18 | the first occurrence of the separator |
| ViteConfig.SplitJoin | vite.config.ts:18 | joining the pieces with the separator gives back the original name |
| ViteConfig.SplitFirst | vite.config.ts:18 | a name whose first separator follows `head` splits into `head` and the pieces of the rest |
| ViteConfig.SplitHead | vite.config.ts:18 | a dot-free piece followed by the end or by a dot is the first piece |
| ViteConfig.SplitTwo | vite.config.ts:18 | `base.ext…` splits into at least two pieces, `base` and `ext` |
| ViteConfig.FilenameToGlob | vite.config.ts:17-20 | the glob starts with the prefix; a name with no dot gets the extension `undefined`, as the template string prints a missing piece |
| ViteConfig.FilenameToGlobOfParts | vite.config.ts:16-20 | the glob of `base.ext` (with anything after a further dot ignored) is the prefix followed by `base-*.ext` |
| ViteConfig.ScriptGlob | vite.config.ts:16-19 | `bash.js` becomes `<prefix>bash-*.js` |
| ViteConfig.BuildLanguageGlobPatterns | vite.config.ts:22-25 | one glob per included language, in the order of the list |
| ViteConfig.Excluded | vite.config.ts:33-34 | a file is kept exactly when it is listed and is not an included language |
| ViteConfig.ExcludedConcat | vite.config.ts:33-34 | filtering distributes over concatenation, so it keeps the listing's order |
| ViteConfig.ExcludedCount | vite.config.ts:33-34 | every listed file is either ignored or an included language: the two counts add up to the listing's length |
| ViteConfig.BuildLanguageIgnoreGlobPatterns | vite.config.ts:27-36 | one glob per file of the language folder, as read from its directory, that is not an included language, in listing order |
| ViteConfig.WorkboxConfig | vite.config.ts:62-69 | the ignore list is the ignore patterns; the precache list is the static pattern followed by the included-language globs |
| AudioPlayer.SliceFrom | src/hooks/use-audio-player.tsx:37 | `slice(start)`: the elements from `start` on, or none |
| AudioPlayer.Truthy | src/hooks/use-audio-player.tsx:49 | `null`, `undefined` and the empty string are falsy; every other URL is truthy |
| AudioPlayer.ClipArray.constructor | src/hooks/use-audio-player.tsx:45 | a new array with the given contents |
| AudioPlayer.ClipArray.SpliceAll | src/hooks/use-audio-player.tsx:54 | `splice(0)` empties the array in place and returns a new array with everything it held |
| AudioPlayer.Player.constructor | src/hooks/use-audio-player.tsx:20-22 | an empty queue, not playing, no current URL |
| AudioPlayer.Player.AddToAudioQueue | src/hooks/use-audio-player.tsx:44-46 | a new queue array: the old contents followed by the clip |
| AudioPlayer.Player.RunEffect | src/hooks/use-audio-player.tsx:24-31 | the head of the queue starts exactly when the player is idle and the queue is non-empty, and the player is then playing |
| AudioPlayer.Player.AudioStarted | src/hooks/use-audio-player.tsx:32-41 | the clip's URL becomes the current URL |
| AudioPlayer.Player.OnEnded | src/hooks/use-audio-player.tsx:34-39 | the URL is released, the head leaves the queue, and the player is idle with no current URL |
| AudioPlayer.Player.ReleaseCurrent | src/hooks/use-audio-player.tsx:49-52 | a truthy current URL is released and cleared; otherwise nothing changes |
| AudioPlayer.Player.Clear | src/hooks/use-audio-player.tsx:48-55 | as written: after the release step, the old array is emptied in place, but the new queue holds every clip that was queued |
| AudioPlayer.Player.ClearQueue | src/hooks/use-audio-player.tsx:48-55 | as intended: after the release step, the queue is empty |
| AudioPlayer.PlayInOrder | src/hooks/use-audio-player.tsx:24-46 | clips queued one after another, each followed by the effect, start playing in exactly the order they were queued |
| AudioPlayer.ClearKeepsQueued | src/hooks/use-audio-player.tsx:54 | after queueing some clips, clearing as written leaves exactly those clips queued |
| AudioPlayer.ClearEmptiesQueue | src/hooks/use-audio-player.tsx:48-55 | after queueing some clips, the queue holds exactly those clips, and clearing as intended leaves it empty |

## Left out

- **The network.** The langchain client and OpenAI are left out. The transport is an
  abstract sequence of token and user events followed by one terminal event, completion
  or rejection.
- **Timing.** Which events can follow an abort, and when the rejection arrives, are both
  up to the transport:
  - `ChatOpenAI.ChatSession.Cancel` records the abort.
  - `ChatOpenAI.Run` lets tokens follow a cancel and buffers them, as the code does.
- **Tokenization.** The tokenizer behind `getNumTokensFromMessages` and the promise around
  it are left out. `ChatOpenAI.GetTokenInfo` takes the count as an input.
- **Floating point.** Costs are exact `real`s. The rounding of double-precision
  arithmetic is not modelled.
- **`JSON.parse(...).error.message`** is a function parameter, because parsing JSON is
  outside the core. A throw from parsing or from the property access is its `Failure`.
- **`console.warn`** for an unknown model is left out; it is I/O.
- **React scheduling.** Handlers run one after another on the current state.
  - **The `pausedRef` mirror.** Each token is assumed to see the latest `paused`, so this
    mirror is not modelled separately.
  - **The auto-scroll effect.** The effect that scrolls the list to the bottom is DOM work.
  - **Listener attachment.** Attaching the scroll listener is DOM work too.
  - **Stale closures.** A handler created before the flag or the message list changed is
    not modelled.
- **`ChatOpenAI.Run`** starts from a fresh, unpaused hook. The pause flag carried over
  from a previous call is not modelled. The code resets it when every call settles.
- **The initial `cancel` state.** Passing `() => {}` to `useState` makes the initial
  cancel function `undefined`. `ChatOpenAI.ChatSession.Cancel` models a cancel before any
  call as doing nothing instead.
- **Toast details.** Title, status and position are presentation.
  `App.Host.FinishPrompt` records only the message of each notice. An error without a
  `message` property cannot occur in the model: every `Failure` has a message.
- **`node:path.join`** is modelled as concatenation, since every prefix here ends in `/`.
  Its normalisation of `..` and doubled separators is not modelled.
- **`readdirSync`** is I/O. It is the function parameter `readDir` of
  `ViteConfig.BuildLanguageIgnoreGlobPatterns`, applied to the language folder's path.
- **The other build options** are kept out: the plugins, the manifest and the output
  settings are configuration data with no logic.
- **Audio playback, for `AudioPlayer.Player`.** `new Audio(...)`, `play()` and the
  contents of object URLs are left out. An audio URL promise that rejects is not
  modelled: in the code it would leave `isPlaying` set for good.
- **Clearing audio, for `AudioPlayer.Player.Clear`.** Clearing does not stop the clip
  being played. Its later `onended` still revokes that clip's URL once more and drops the
  head of the queue. The model's scenarios never clear during playback.
- **Code evaluation, for `CodeHeader.HandleRun`.** `new Function(code)` and
  `JSON.stringify` are not interpreted. The model takes their outcome as an input: the
  returned string, the serialisation, or the thrown value.
- **Clipboard, download and toasts in `CodeHeader`** are I/O.
- **Colour modes, syntax highlighting and the markup itself** are presentation.
- **The header and the sidebar** are not part of this model. They are context components
  with no logic of the core.

## Findings

| source | as written | input that shows it | evidently intended | confidence | as-written member | corrected member |
|---|---|---|---|---|---|---|
| src/hooks/use-audio-player.tsx:54 | the queue updater returns the result of `splice(0)` on the old array, which is every element it removed, so the new queue holds all the clips again | queue two clips, then clear: both clips are still queued and go on playing | the new queue is empty | medium, not executed (in React's development strict mode the updater runs twice, and the second run would return an empty array) | AudioPlayer.ClearKeepsQueued | AudioPlayer.ClearEmptiesQueue |
