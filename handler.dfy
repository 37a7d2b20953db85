/**
 * The webview message handler: dispatches the webview's commands to the
 * conversation service and posts commands back, and sorts stream chunks into
 * model-update signals and literal content.
 */
module Handler {
  import opened Wrappers
  import opened JsonValues
  import opened ChatTypes
  import opened Service

  /** The webview, seen through the messages posted to it, oldest first. */
  class Webview {
    var posted: seq<WebviewMessage>

    constructor ()
      ensures posted == []
    {
      posted := [];
    }

    method PostMessage(message: WebviewMessage)
      modifies this
      ensures posted == old(posted) + [message]
    {
      posted := posted + [message];
    }
  }

  /** A message carrying only a command tag. */
  function Signal(command: WebviewCommand): WebviewMessage {
    WebviewMessage(command, None, None, None, None)
  }

  /** The truthiness test `if (message.text)`: present and not the empty string. */
  predicate HasText(text: Option<string>): (b: bool)
    ensures b <==> text.Some? && |text.value| > 0
  {
    text.Some? && text.value != ""
  }

  /**
   * What `handleStreamResponse` posts for a chunk, given what `JSON.parse`
   * made of it (`None` when it throws). Reading `type` off a parsed `null`
   * throws too, and lands in the same `catch`.
   */
  function Classify(chunk: string, parsed: Option<Json>): (event: Option<WebviewMessage>)
    ensures event.Some? ==> event.value.command == StreamResponse || event.value.command == UpdateModel
    ensures event.Some? && event.value.command == StreamResponse ==> event.value.text == Some(chunk)
    ensures event.Some? && event.value.command == UpdateModel ==> event.value.text == None
  {
    match parsed
    case None => Some(WebviewMessage(StreamResponse, Some(chunk), None, None, None))
    case Some(value) =>
      if value == JNull then Some(WebviewMessage(StreamResponse, Some(chunk), None, None, None))
      else if Property(value, "type") == Some(JString("modelUpdate")) then
        Some(WebviewMessage(UpdateModel, None, Property(value, "model"), None, None))
      else None
  }

  /** The messages posted, in order, when each chunk is handled in turn. */
  function StreamLog(chunks: seq<string>, parse: string -> Option<Json>): (log: seq<WebviewMessage>)
    ensures |log| <= |chunks|
    ensures forall k :: 0 <= k < |log| ==> log[k].command == StreamResponse || log[k].command == UpdateModel
  {
    if chunks == [] then []
    else StreamLog(chunks[..|chunks| - 1], parse) + ToSeq(Classify(chunks[|chunks| - 1], parse(chunks[|chunks| - 1])))
  }

  // ---------------------------------------------------------------------------
  // Properties of the classifier

  /** A model-update signal yields exactly one `UpdateModel` carrying its `model` member, and no content. */
  lemma ModelUpdateChunk(chunk: string, members: map<string, Json>)
    requires "type" in members && members["type"] == JString("modelUpdate")
    ensures var e := Classify(chunk, Some(JObject(members)));
      e.Some? && e.value.command == UpdateModel && e.value.text == None
      && e.value.model == (if "model" in members then Some(members["model"]) else None)
  {
  }

  /** A chunk that is not JSON is posted once, verbatim, as content. */
  lemma UnparsableChunk(chunk: string)
    ensures Classify(chunk, None) == Some(WebviewMessage(StreamResponse, Some(chunk), None, None, None))
  {
  }

  /** The chunk `null` parses, but reading its `type` throws, so it is posted as content. */
  lemma NullChunk(chunk: string)
    ensures Classify(chunk, Some(JNull)) == Some(WebviewMessage(StreamResponse, Some(chunk), None, None, None))
  {
  }

  /** Any other parsed chunk, a number or a `temperatureUpdate` object alike, posts nothing. */
  lemma OtherJsonDropped(chunk: string, value: Json)
    requires value != JNull && Property(value, "type") != Some(JString("modelUpdate"))
    ensures Classify(chunk, Some(value)) == None
  {
  }

  /** Exactly the parse outcome decides whether anything is posted. */
  lemma ClassifyPostsIff(chunk: string, parsed: Option<Json>)
    ensures Classify(chunk, parsed).Some? <==>
      parsed.None? || parsed.value == JNull || Property(parsed.value, "type") == Some(JString("modelUpdate"))
    ensures Classify(chunk, parsed).Some? && Classify(chunk, parsed).value.command == StreamResponse ==>
      Classify(chunk, parsed).value.text == Some(chunk)
  {
  }

  /** Handling chunks in two batches logs the first batch's messages, then the second's. */
  lemma {:induction false} StreamLogAppend(a: seq<string>, b: seq<string>, parse: string -> Option<Json>)
    ensures StreamLog(a + b, parse) == StreamLog(a, parse) + StreamLog(b, parse)
    decreases |b|
  {
    if b == [] {
      assert a + b == a;
    } else {
      assert (a + b)[..|a + b| - 1] == a + b[..|b| - 1];
      StreamLogAppend(a, b[..|b| - 1], parse);
    }
  }

  /**
   * Order preservation: message `k` of the log comes from chunk `origins[k]`,
   * and the origins strictly increase.
   */
  lemma {:induction false} StreamLogOrder(chunks: seq<string>, parse: string -> Option<Json>)
    returns (origins: seq<nat>)
    ensures |origins| == |StreamLog(chunks, parse)|
    ensures forall k :: 0 <= k < |origins| ==>
      origins[k] < |chunks| && Classify(chunks[origins[k]], parse(chunks[origins[k]])) == Some(StreamLog(chunks, parse)[k])
    ensures forall k, l :: 0 <= k < l < |origins| ==> origins[k] < origins[l]
  {
    if chunks == [] {
      origins := [];
    } else {
      var n := |chunks| - 1;
      var front := chunks[..n];
      var before := StreamLogOrder(front, parse);
      var e := Classify(chunks[n], parse(chunks[n]));
      origins := before + (if e.Some? then [n] else []);
      forall k | 0 <= k < |before| ensures chunks[before[k]] == front[before[k]] {
      }
    }
  }

  /** When no chunk parses, the log is the stream itself, chunk for chunk, as content. */
  lemma {:induction false} PlainStreamIsLossless(chunks: seq<string>, parse: string -> Option<Json>)
    requires forall i :: 0 <= i < |chunks| ==> parse(chunks[i]) == None
    ensures |StreamLog(chunks, parse)| == |chunks|
    ensures forall i :: 0 <= i < |chunks| ==>
      StreamLog(chunks, parse)[i] == WebviewMessage(StreamResponse, Some(chunks[i]), None, None, None)
  {
    if chunks != [] {
      var front := chunks[..|chunks| - 1];
      PlainStreamIsLossless(front, parse);
    }
  }

  // ---------------------------------------------------------------------------
  // The handler object

  /** A posted message together with the conversation history at the moment it was posted. */
  datatype Posting = Posting(message: WebviewMessage, history: seq<ChatMessage>)

  class MessageHandler {
    const webview: Webview
    const chatService: ChatService
    /** Every message this handler posted, oldest first, with the history when it was posted. */
    ghost var trace: seq<Posting>

    constructor (webview: Webview, chatService: ChatService)
      ensures this.webview == webview && this.chatService == chatService && trace == []
    {
      this.webview := webview;
      this.chatService := chatService;
      trace := [];
    }

    /** `this.webview.postMessage(message)`, recorded in the trace. */
    method Post(message: WebviewMessage)
      modifies this, webview
      ensures webview.posted == old(webview.posted) + [message]
      ensures trace == old(trace) + [Posting(message, chatService.history)]
    {
      webview.PostMessage(message);
      trace := trace + [Posting(message, chatService.history)];
    }

    /**
     * `handleWebviewMessage`. `ok` is false when clearing cannot persist, so
     * that the returned promise rejects. The promise would also reject on
     * `changeModel`, which the service does not define; that is not modelled.
     */
    method HandleWebviewMessage(message: WebviewMessage, editor: Option<Editor>) returns (ok: bool)
      modifies this, webview, chatService, chatService.store
      ensures chatService.store.failsWrites == old(chatService.store.failsWrites)
      ensures message.command == SendMessage && HasText(message.text) ==>
        && ok
        && webview.posted == old(webview.posted) + [Signal(StartResponse), Signal(EndResponse)]
        && chatService.history == old(chatService.history) + Exchange(message.text.value, editor, old(chatService.history))
        && trace == old(trace) + [Posting(Signal(StartResponse), old(chatService.history)),
                                  Posting(Signal(EndResponse), chatService.history)]
        && chatService.store.records ==
             if chatService.store.failsWrites then old(chatService.store.records)
             else old(chatService.store.records)[HistoryKey := chatService.history]
      ensures message.command == ClearHistory ==>
        && chatService.history == []
        && ok == !chatService.store.failsWrites
        && webview.posted == old(webview.posted) + (if ok then [Signal(ClearMessages)] else [])
        && trace == old(trace) + (if ok then [Posting(Signal(ClearMessages), [])] else [])
        && chatService.store.records == if ok then old(chatService.store.records)[HistoryKey := []] else old(chatService.store.records)
      ensures !(message.command == SendMessage && HasText(message.text)) && message.command != ClearHistory ==>
        && ok
        && webview.posted == old(webview.posted)
        && trace == old(trace)
        && chatService.history == old(chatService.history)
        && chatService.store.records == old(chatService.store.records)
    {
      ok := true;
      match message.command {
        case SendMessage =>
          if HasText(message.text) {
            HandleUserMessage(message.text.value, editor);
          }
        case ClearHistory =>
          ok := HandleClearHistory();
        case ChangeModel =>
          // The service has no model to change: nothing happens.
        case _ =>
      }
    }

    /**
     * `handleUserMessage`: `StartResponse`, the exchange, `EndResponse`. The
     * trace shows the history unchanged when the first message is posted and
     * holding the exchange when the second is.
     */
    method HandleUserMessage(text: string, editor: Option<Editor>)
      modifies this, webview, chatService, chatService.store
      ensures webview.posted == old(webview.posted) + [Signal(StartResponse), Signal(EndResponse)]
      ensures chatService.history == old(chatService.history) + Exchange(text, editor, old(chatService.history))
      ensures trace == old(trace) + [Posting(Signal(StartResponse), old(chatService.history)),
                                     Posting(Signal(EndResponse), chatService.history)]
      ensures chatService.store.failsWrites == old(chatService.store.failsWrites)
      ensures chatService.store.records ==
        if chatService.store.failsWrites then old(chatService.store.records)
        else old(chatService.store.records)[HistoryKey := chatService.history]
    {
      Post(Signal(StartResponse));
      var response := chatService.ProcessMessage(text, editor);
      Post(Signal(EndResponse));
    }

    /**
     * `handleClearHistory`: clears, and announces it only when the save went
     * through; the trace shows the history already empty at the announcement.
     */
    method HandleClearHistory() returns (ok: bool)
      modifies this, webview, chatService, chatService.store
      ensures chatService.history == []
      ensures ok == !chatService.store.failsWrites && chatService.store.failsWrites == old(chatService.store.failsWrites)
      ensures webview.posted == old(webview.posted) + (if ok then [Signal(ClearMessages)] else [])
      ensures trace == old(trace) + (if ok then [Posting(Signal(ClearMessages), [])] else [])
      ensures chatService.store.records ==
        if ok then old(chatService.store.records)[HistoryKey := []] else old(chatService.store.records)
    {
      ok := chatService.ClearHistory();
      if ok {
        Post(Signal(ClearMessages));
      }
    }

    /**
     * `handleStreamResponse`: posts what `Classify` says, at most one message.
     * Its log is `StreamLog` of the one chunk, so successive calls build
     * `StreamLog` of the whole stream (`StreamLogAppend`).
     */
    method HandleStreamResponse(chunk: string, parse: string -> Option<Json>)
      modifies this, webview
      ensures webview.posted == old(webview.posted) + ToSeq(Classify(chunk, parse(chunk)))
      ensures webview.posted == old(webview.posted) + StreamLog([chunk], parse)
      ensures trace == old(trace) + if Classify(chunk, parse(chunk)).Some?
        then [Posting(Classify(chunk, parse(chunk)).value, chatService.history)] else []
    {
      var event := Classify(chunk, parse(chunk));
      if event.Some? {
        Post(event.value);
      }
      assert [chunk][..0] == [];
    }
  }
}
