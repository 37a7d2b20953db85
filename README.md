# llm-assistant chat core, modelled in Dafny

This project models the two parts of the llm-assistant VS Code extension that hold its logic.

- **The conversation service** (`ChatService`). It keeps an ordered, role-tagged history in memory, loads it from the extension's global key-value store under the key `chatHistory`, and saves it back after every change. It answers each user turn with a rule-based reply: a chain of substring tests on the lower-cased message, checked in the order greeting, current file, help, clear history, explain, code, default.
- **The webview message handler** (`MessageHandler`). It dispatches the webview's commands by tag. A send is answered with `startResponse`, the exchange, then `endResponse`. A clear is answered with the clear, then `clearMessages`. It also sorts stream chunks into model-update signals and literal content.

Modules, one per source file or shared concept:

| module | file | models |
|---|---|---|
| `Wrappers` | `wrappers.dfy` | `Option` (`undefined`, a thrown parse) |
| `JsonValues` | `json_values.dfy` | values `JSON.parse` can return; property access on them |
| `ChatTypes` | `chat_types.dfy` | `WebviewCommand`, `WebviewMessage`, `ChatMessage` of `src/types/chat.ts` |
| `Strings` | `strings.dfy` | `toLowerCase`, `includes`, decimal rendering of a length |
| `Service` | `service.dfy` | `src/chatService.ts` |
| `Handler` | `handler.dfy` | `src/messageHandler.ts` |

The environment is explicit:
- The global state is a `GlobalState` object holding a map of records. Its `failsWrites` flag is the environment's choice of whether writes fail.
- The active editor is a parameter `Option<Editor>` holding the document text and language id.
- The webview is a `Webview` object whose `posted` field is the append-only log of messages posted to it.
- `JSON.parse` is a parameter of type `string -> Option<Json>`, where `None` means the parse throws.
- `async`/`await` steps are sequential statements.
- The singleton `getInstance` is replaced by an explicitly constructed `ChatService`.

Behaviours of the code that the model keeps, each proved:
- Every string containing `"clear history"` contains `"hi"`. So the greeting rule always fires first and the clear rule is unreachable (`Service.ClearNeverFires`).
- The explain rule looks at the last four history entries. These include the user turn just appended. It quotes the latest assistant turn among them.
- The handler posts nothing for a chunk that parses to a value other than `null` whose `type` is not `"modelUpdate"`. This includes a chunk such as `42` and a `temperatureUpdate` object.
- A chunk that parses to `null` is posted as content, because reading `type` off `null` throws inside the same `try`.
- A failed save inside `processMessage` still leaves both new turns in memory, and the caller gets the fixed error text.
- A failed save during a clear stops the handler before it posts `clearMessages`.

## Model

| member | source | states |
|---|---|---|
| `Strings.LowerChar` | src/chatService.ts:64 | the result is never an upper-case ASCII letter; an upper-case letter becomes the lower-case letter at the same alphabet position; every other character is unchanged |
| `Strings.Lower` | src/chatService.ts:64 | the lowered message has the same length, and each character is the lowered input character |
| `Strings.LowerIdempotent` | src/chatService.ts:64 | lowering an already lowered message changes nothing |
| `Strings.Contains` | src/chatService.ts:66 | `includes` holds for the empty needle, fails for a needle longer than the haystack, and for equal lengths holds exactly when the two are equal |
| `Strings.ContainsIff` | src/chatService.ts:66 | `includes` holds exactly when the needle occurs at some position of the haystack |
| `Strings.ContainsTransitive` | src/chatService.ts:66-91 | a substring of a substring is a substring |
| `Strings.ContainsInfix` | src/chatService.ts:100 | a template that embeds a string contains it |
| `Strings.NatToString` | src/chatService.ts:72 | a length renders as a non-empty string of decimal digits with no leading zero |
| `Strings.NatToStringRoundTrip` | src/chatService.ts:72 | reading the rendered digits back gives the original length |
| `Service.GlobalState.constructor` | src/chatService.ts:11 | the store starts with the given records and write behaviour |
| `Service.GlobalState.Update` | src/chatService.ts:26-33 | a successful write overwrites exactly the named record, and reading that key afterwards gives the written value whatever the default; every other key reads as before, and after a failed write every key does |
| `Service.RecentOfTurn` | src/chatService.ts:94 | the last four entries after the user turn is appended end with that turn, preceded by the last min(3, n) earlier entries |
| `Service.CurrentFile` | src/chatService.ts:60 | without an editor the file text is empty; it is empty exactly when there is no editor or the document is empty |
| `Service.CurrentLanguage` | src/chatService.ts:61 | without an editor the language is empty |
| `Service.FindAssistant` | src/chatService.ts:98 | the search fails exactly when no entry is an assistant turn; a found entry is the first assistant turn from the left |
| `Service.Respond` | src/chatService.ts:57-121 | a file-info reply carries the non-zero length and the language of the open file; a code reply needs a non-empty file and names its language; the default reply carries the message as typed |
| `Service.ReplyText` | src/chatService.ts:67-120 | every rule's reply is non-empty and differs from the error text |
| `Service.Reverse` | src/chatService.ts:97 | the reversed copy has the same length, and element i is element n-1-i of the input |
| `Service.Exchange` | src/chatService.ts:39-45 | an exchange is exactly the user turn followed by one assistant turn |
| `Service.ClearImpliesGreets` | src/chatService.ts:66-91 | every message containing "clear history" passes the greeting test |
| `Service.ClearNeverFires` | src/chatService.ts:87-91 | no message, editor or history makes the responder take the clear-history rule |
| `Service.GreetingFirst` | src/chatService.ts:66-68 | the greeting is the reply exactly when "hello" or "hi" occurs, whatever other keywords occur |
| `Service.CurrentFileRule` | src/chatService.ts:70-76 | with no greeting and "current file" present, the reply is the file's language and length if the file has text, else the no-file reply |
| `Service.HelpRule` | src/chatService.ts:78-85 | help is the reply exactly when neither a greeting nor "current file" occurs and "help" does |
| `Service.FindInReverse` | src/chatService.ts:94-98 | finding an assistant turn in the reversed copy finds the latest assistant turn |
| `Service.LatestAssistantIsLatest` | src/chatService.ts:96-98 | the latest-assistant search fails exactly when there is no assistant turn; otherwise it returns an assistant turn with no later one |
| `Service.ClarifyRule` | src/chatService.ts:93-102 | the explain reply is given exactly when no earlier keyword occurs, "explain" does and the last four entries hold an assistant turn; it quotes the latest one |
| `Service.LatestRecentAssistant` | src/chatService.ts:94-98 | the latest assistant turn among the last four entries is an assistant turn of the whole history with no later one |
| `Service.ClarifyQuotesLatest` | src/chatService.ts:94-101 | the quoted text is the content of an assistant turn among the last four entries with no later assistant turn |
| `Service.CodeRule` | src/chatService.ts:104-120 | a code question gets the code reply naming the language only when the file has text; otherwise it gets the default reply quoting the message |
| `Service.FallbackRule` | src/chatService.ts:119-120 | the default reply is given exactly when no rule's test passes |
| `Service.FallbackQuotesMessage` | src/chatService.ts:120 | the default reply contains the message as typed |
| `Service.ClarifyQuotesPrevious` | src/chatService.ts:100 | the explain reply contains the earlier assistant turn's content |
| `Service.FileInfoLength` | src/chatService.ts:72 | the file-info reply contains the decimal rendering of the file's length |
| `Service.ChatService.constructor` | src/chatService.ts:13-16 | a new service over a store without a history record starts empty; otherwise it starts with the stored record |
| `Service.ChatService.LoadHistory` | src/chatService.ts:25-30 | the history becomes the stored record, or empty when there is none |
| `Service.ChatService.SaveHistory` | src/chatService.ts:32-34 | the stored record becomes the current history unless the write fails |
| `Service.ChatService.GenerateResponse` | src/chatService.ts:57-121 | returns the fired rule's text; only the clear rule would empty and persist the history |
| `Service.ChatService.ProcessMessage` | src/chatService.ts:36-55 | the history gains exactly the user turn and the reply, earlier entries unchanged; the reply is returned and persisted, or on a failed write the error text is returned with both turns still in memory |
| `Service.ChatService.GetHistory` | src/chatService.ts:123-125 | returns a freshly allocated array equal to the history |
| `Service.ChatService.ClearHistory` | src/chatService.ts:127-130 | the history is empty and the stored record is empty unless the write fails |
| `Service.ClearedHistoryReloadsEmpty` | src/chatService.ts:127-130 | after a clear that persists, a service loaded from the same store starts empty |
| `Service.HistoryCopyIsolated` | src/chatService.ts:123-125 | writing any message at any index of the returned copy leaves the service's history unchanged |
| `Handler.Webview.constructor` | src/messageHandler.ts:8 | a new webview has posted nothing |
| `Handler.Webview.PostMessage` | src/messageHandler.ts:29-31 | posting appends exactly one message to the log |
| `Handler.HasText` | src/messageHandler.ts:15 | the send is handled exactly when `text` is present and non-empty |
| `Handler.Classify` | src/messageHandler.ts:48-62 | a chunk yields at most one message, which is either `streamResponse` carrying the chunk verbatim or `updateModel` carrying no text |
| `Handler.StreamLog` | src/messageHandler.ts:47-63 | a stream of chunks posts at most one message per chunk, so the log is never longer than the stream; each message is a `streamResponse` or an `updateModel` |
| `Handler.ModelUpdateChunk` | src/messageHandler.ts:49-55 | a chunk parsing to an object of type "modelUpdate" yields one `updateModel` message carrying its `model` member and no content |
| `Handler.UnparsableChunk` | src/messageHandler.ts:57-61 | a chunk that fails to parse yields one `streamResponse` holding the chunk verbatim |
| `Handler.NullChunk` | src/messageHandler.ts:48-61 | a chunk parsing to `null` yields the chunk verbatim as content |
| `Handler.OtherJsonDropped` | src/messageHandler.ts:48-62 | a chunk parsing to any other value posts nothing |
| `Handler.ClassifyPostsIff` | src/messageHandler.ts:47-63 | a chunk posts something exactly when it does not parse, parses to `null`, or is a model update; content is posted verbatim |
| `Handler.StreamLogAppend` | src/messageHandler.ts:47-63 | the log of two batches of chunks is the first batch's log followed by the second's |
| `Handler.StreamLogOrder` | src/messageHandler.ts:47-63 | each logged message comes from one chunk, and these chunks strictly increase along the log |
| `Handler.PlainStreamIsLossless` | src/messageHandler.ts:57-61 | when no chunk parses, the log is every chunk, in order, as content |
| `Handler.MessageHandler.constructor` | src/messageHandler.ts:7-10 | the handler holds the given webview and service |
| `Handler.MessageHandler.Post` | src/messageHandler.ts:29-37 | posting appends the message to the webview log and records it in the trace with the service's history at that moment |
| `Handler.MessageHandler.HandleWebviewMessage` | src/messageHandler.ts:12-26 | a send with non-empty text posts start then end and appends the exchange; a clear empties the history and posts `clearMessages` only if the save succeeds; every other command changes neither the log, the history nor the store |
| `Handler.MessageHandler.HandleUserMessage` | src/messageHandler.ts:28-38 | appends exactly `startResponse` then `endResponse`; the trace records the history as it was before the exchange when `startResponse` is posted and with the exchange appended when `endResponse` is |
| `Handler.MessageHandler.HandleClearHistory` | src/messageHandler.ts:40-45 | empties the history, then appends exactly one `clearMessages` if the save succeeds and nothing otherwise; the trace records the history as already empty when `clearMessages` is posted |
| `Handler.MessageHandler.HandleStreamResponse` | src/messageHandler.ts:47-63 | appends exactly the at-most-one message the classifier gives for the chunk, which is the stream log of the one-chunk stream, so successive calls build `StreamLog` of the whole stream (by `StreamLogAppend`) |

## Left out

- `src/extension.ts`: it only registers two commands that show information messages.
- `src/chatPanel.ts`: webview creation, static markup, the in-browser script and an echo stub. This is view glue.
- `ChangeModel`: the handler calls `chatService.changeModel()`, which the service does not define. In JavaScript that call throws a `TypeError` and the handler's promise rejects. The model treats the command as a no-op that returns `ok == true`; that rejection is not modelled.
- `JsonValues.Property`: only own members of parsed objects are modelled. Names that every value inherits from its prototype, such as `length` on strings and arrays or `toString`, are not modelled; the handler reads only `type` and `model`, which no prototype defines.
- The real `JSON.parse` grammar: parsing is an arbitrary function given as a parameter.
- `Strings.Lower`: lowers ASCII letters only. Unicode case mapping of `toLowerCase` is not modelled.
- `Service.FileInfoLength`: the length is the number of characters, not JavaScript's UTF-16 code units.
- `Service.ChatService.GetHistory`: messages are immutable values. The JavaScript copy is shallow, so its message objects stay shared with the history. That aliasing is not modelled.
- Service.GlobalState.Update: that a rejected write leaves every record unchanged is an assumption about the VS Code global state, which the extension does not control; the failure-path ensures of `ProcessMessage`, `ClearHistory` and `HandleClearHistory` rest on it.
- Store aliasing: the global state is modelled with value semantics. Whether `get` returns the same array object that was stored is not modelled.
- Validation of stored data: the store is typed, so malformed records do not arise.
- `console.error` logging.
- Unhandled promise rejections: a failed clear is reported as `ok == false` and not as an exception (the `changeModel` rejection is not reported at all, see above).
- Concurrency between overlapping asynchronous calls: each handler runs to completion before the next starts.
- Temperature handling, validation of stored history, history replay at startup, a streaming backend and code-fence accumulation: the code has none of them, and it does not ignore whitespace-only text (only an empty or absent `text`), so neither does the model; JSON other than `null` that is not a model update is dropped, not posted as content.
