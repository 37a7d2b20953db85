/**
 * The conversation service: an ordered, role-tagged history kept in memory,
 * loaded from and saved to the extension's global key-value store, and a
 * rule-based responder that answers each user turn.
 */
module Service {
  import opened Wrappers
  import opened ChatTypes
  import opened Strings

  /** The store key under which the history is kept. */
  const HistoryKey := "chatHistory"

  /** What `processMessage` answers when anything in its body throws. */
  const ErrorReply := "Sorry, I encountered an error processing your message."

  /**
   * The extension's global state: named records that survive restarts.
   * `failsWrites` stands for the environment: when it is set, every write is
   * rejected and leaves the records as they were.
   */
  class GlobalState {
    var records: map<string, seq<ChatMessage>>
    var failsWrites: bool

    constructor (records: map<string, seq<ChatMessage>>, failsWrites: bool)
      ensures this.records == records && this.failsWrites == failsWrites
    {
      this.records := records;
      this.failsWrites := failsWrites;
    }

    /** `get(key, defaultValue)`: the stored record, or the default when there is none. */
    function Get(key: string, defaultValue: seq<ChatMessage>): (v: seq<ChatMessage>)
      reads this
      ensures key !in records ==> v == defaultValue
      ensures key in records ==> v == records[key]
    {
      if key in records then records[key] else defaultValue
    }

    /** `update(key, value)`: overwrites the whole record, unless the write fails. */
    method Update(key: string, value: seq<ChatMessage>) returns (ok: bool)
      modifies this
      ensures ok == !failsWrites && failsWrites == old(failsWrites)
      ensures records == if ok then old(records)[key := value] else old(records)
      ensures ok ==> forall d :: Get(key, d) == value
      ensures forall k, d :: k != key || !ok ==> Get(k, d) == old(Get(k, d))
    {
      ok := !failsWrites;
      if ok {
        records := records[key := value];
      }
    }
  }

  /** The active text editor's document, as far as the responder looks at it. */
  datatype Editor = Editor(text: string, languageId: string)

  /** `activeEditor?.document.getText() || ""` */
  function CurrentFile(editor: Option<Editor>): (file: string)
    ensures editor.None? ==> file == ""
    ensures file == "" <==> editor.None? || editor.value.text == ""
  {
    if editor.Some? then editor.value.text else ""
  }

  /** `activeEditor?.document.languageId || ""` */
  function CurrentLanguage(editor: Option<Editor>): (language: string)
    ensures editor.None? ==> language == ""
  {
    if editor.Some? then editor.value.languageId else ""
  }

  // The keyword tests of the responder, on the lower-cased message.
  predicate Greets(lower: string) { Contains(lower, "hello") || Contains(lower, "hi") }
  predicate AsksCurrentFile(lower: string) { Contains(lower, "current file") }
  predicate AsksHelp(lower: string) { Contains(lower, "help") }
  predicate AsksClear(lower: string) { Contains(lower, "clear history") }
  predicate AsksExplain(lower: string) { Contains(lower, "explain") }
  predicate AsksCode(lower: string) {
    Contains(lower, "code") || Contains(lower, "function") || Contains(lower, "bug")
  }

  /** Which rule answered a message, with the values its reply text quotes. */
  datatype Reply =
    | Greeting
    | FileInfo(language: string, length: nat)
    | NoFile
    | Help
    | Cleared
    | Clarify(previous: string)
    | CodeAssist(language: string)
    | Fallback(message: string)

  // The reply texts, one per rule.
  const GreetingText := "Hello! How can I help you with your code today?"
  const NoFileText := "No file is currently open in the editor."
  const HelpText :=
    "I can help you with:\n1. Answering questions about your code\n2. Explaining programming concepts\n"
    + "3. Providing code suggestions\n4. Analyzing your current file\nWhat would you like to know more about?"
  const ClearedText := "Chat history has been cleared."

  function FileInfoText(language: string, length: nat): string {
    "The current file is written in " + language + " and is " + NatToString(length) + " characters long."
  }

  const ClarifyPrefix := "Let me clarify my previous response: "
  const ClarifySuffix := "\n\nIs there something specific you'd like me to explain further?"

  function ClarifyText(previous: string): string {
    ClarifyPrefix + previous + ClarifySuffix
  }

  function CodeAssistText(language: string): string {
    "I see you're working with " + language + " code. Could you specify what aspect you need help with? "
    + "For example:\n- Code review\n- Bug finding\n- Performance optimization\n- Best practices"
  }

  const FallbackPrefix := "I understand you're asking about \""
  const FallbackSuffix :=
    "\". Could you provide more context or specify your question? I'm here to help with coding and development tasks."

  function FallbackText(message: string): string {
    FallbackPrefix + message + FallbackSuffix
  }

  /** The reply texts; none of them can be mistaken for the error text. */
  function ReplyText(r: Reply): (text: string)
    ensures |text| > 0 && text != ErrorReply
  {
    match r
    case Greeting => GreetingText
    case FileInfo(language, length) => FileInfoText(language, length)
    case NoFile => NoFileText
    case Help => HelpText
    case Cleared => ClearedText
    case Clarify(previous) => ClarifyText(previous)
    case CodeAssist(language) => CodeAssistText(language)
    case Fallback(message) => FallbackText(message)
  }

  /** `history.slice(-4)`: the last four entries, or all of them when there are fewer. */
  function Recent(history: seq<ChatMessage>): (r: seq<ChatMessage>)
    ensures |r| == if |history| < 4 then |history| else 4
    ensures r == history[|history| - |r|..]
  {
    if |history| <= 4 then history else history[|history| - 4..]
  }

  /**
   * When the history ends with the turn being answered, the last four
   * entries are at most three earlier entries followed by that turn.
   */
  lemma RecentOfTurn(history: seq<ChatMessage>, turn: ChatMessage)
    ensures var r := Recent(history + [turn]);
      r[|r| - 1] == turn
      && r == history[|history| - (|r| - 1)..] + [turn]
      && |r| - 1 == if |history| < 3 then |history| else 3
  {
    var h := history + [turn];
    var r := Recent(h);
    assert r == h[|h| - |r|..];
    assert h[|h| - |r|..] == history[|history| - (|r| - 1)..] + [turn];
  }

  /** `reverse()` on a copy. */
  function Reverse(s: seq<ChatMessage>): (r: seq<ChatMessage>)
    ensures |r| == |s|
    ensures forall i :: 0 <= i < |s| ==> r[i] == s[|s| - 1 - i]
  {
    if s == [] then [] else [s[|s| - 1]] + Reverse(s[..|s| - 1])
  }

  /** `find((m) => m.role === "assistant")`: the first assistant turn from the left. */
  function FindAssistant(s: seq<ChatMessage>): (found: Option<ChatMessage>)
    ensures found.None? <==> forall i :: 0 <= i < |s| ==> s[i].role != Assistant
    ensures found.Some? ==> found.value in s && found.value.role == Assistant
    ensures found.Some? ==>
      exists j :: 0 <= j < |s| && s[j] == found.value && s[j].role == Assistant
        && forall k :: 0 <= k < j ==> s[k].role != Assistant
  {
    if s == [] then None
    else if s[0].role == Assistant then Some(s[0])
    else FindAssistant(s[1..])
  }

  /** The latest assistant turn of `s`, scanning from its end. */
  function LatestAssistant(s: seq<ChatMessage>): Option<ChatMessage> {
    if s == [] then None
    else if s[|s| - 1].role == Assistant then Some(s[|s| - 1])
    else LatestAssistant(s[..|s| - 1])
  }

  /**
   * `generateResponse` as a decision: the first rule, in source order, whose
   * test the lower-cased message passes. `history` already holds the user
   * turn being answered.
   */
  function Respond(userMessage: string, editor: Option<Editor>, history: seq<ChatMessage>): (r: Reply)
    ensures r.FileInfo? ==> r.length == |CurrentFile(editor)| > 0 && r.language == CurrentLanguage(editor)
    ensures r.CodeAssist? ==> CurrentFile(editor) != "" && r.language == CurrentLanguage(editor)
    ensures r.Fallback? ==> r.message == userMessage
  {
    var lower := Lower(userMessage);
    var file := CurrentFile(editor);
    var recent := Recent(history);
    if Greets(lower) then Greeting
    else if AsksCurrentFile(lower) then
      (if file != "" then FileInfo(CurrentLanguage(editor), |file|) else NoFile)
    else if AsksHelp(lower) then Help
    else if AsksClear(lower) then Cleared
    else if |recent| > 0 && FindAssistant(Reverse(recent)).Some? && AsksExplain(lower) then
      Clarify(FindAssistant(Reverse(recent)).value.content)
    else if AsksCode(lower) && file != "" then CodeAssist(CurrentLanguage(editor))
    else Fallback(userMessage)
  }

  /** The two turns a successful `processMessage` appends to `history`. */
  function Exchange(userMessage: string, editor: Option<Editor>, history: seq<ChatMessage>): (e: seq<ChatMessage>)
    ensures |e| == 2 && e[0] == ChatMessage(User, userMessage) && e[1].role == Assistant
  {
    var turn := ChatMessage(User, userMessage);
    [turn, ChatMessage(Assistant, ReplyText(Respond(userMessage, editor, history + [turn])))]
  }

  // ---------------------------------------------------------------------------
  // Properties of the responder

  /** Every message that contains "clear history" also contains "hi". */
  lemma ClearImpliesGreets(lower: string)
    ensures AsksClear(lower) ==> Greets(lower)
  {
    assert OccursAt("clear history", "hi", 6);
    ContainsIff("clear history", "hi");
    if AsksClear(lower) {
      ContainsTransitive(lower, "clear history", "hi");
    }
  }

  /** The clear-history rule can never answer: the greeting rule always fires first. */
  lemma ClearNeverFires(userMessage: string, editor: Option<Editor>, history: seq<ChatMessage>)
    ensures Respond(userMessage, editor, history) != Cleared
  {
    ClearImpliesGreets(Lower(userMessage));
  }

  /** A greeting keyword wins over every other keyword; nothing else yields the greeting. */
  lemma GreetingFirst(userMessage: string, editor: Option<Editor>, history: seq<ChatMessage>)
    ensures Respond(userMessage, editor, history) == Greeting <==> Greets(Lower(userMessage))
  {
    var lower := Lower(userMessage);
    if !Greets(lower) {
      var r := Respond(userMessage, editor, history);
      if AsksCurrentFile(lower) {
        assert r.FileInfo? || r.NoFile?;
      } else if AsksHelp(lower) {
        assert r == Help;
      } else if AsksClear(lower) {
        assert r == Cleared;
      } else {
        assert r.Clarify? || r.CodeAssist? || r.Fallback?;
      }
    }
  }

  /** The current-file rule comes second and depends only on whether a file with text is open. */
  lemma CurrentFileRule(userMessage: string, editor: Option<Editor>, history: seq<ChatMessage>)
    requires !Greets(Lower(userMessage)) && AsksCurrentFile(Lower(userMessage))
    ensures CurrentFile(editor) != "" ==>
      Respond(userMessage, editor, history) == FileInfo(CurrentLanguage(editor), |CurrentFile(editor)|)
    ensures CurrentFile(editor) == "" ==> Respond(userMessage, editor, history) == NoFile
  {
  }

  /** Help is answered exactly when no earlier rule fires and "help" occurs. */
  lemma HelpRule(userMessage: string, editor: Option<Editor>, history: seq<ChatMessage>)
    ensures var lower := Lower(userMessage);
      Respond(userMessage, editor, history) == Help <==> !Greets(lower) && !AsksCurrentFile(lower) && AsksHelp(lower)
  {
  }

  /** Reversing and finding from the left is finding the latest assistant turn. */
  lemma {:induction false} FindInReverse(s: seq<ChatMessage>)
    ensures FindAssistant(Reverse(s)) == LatestAssistant(s)
  {
    if s != [] {
      var r := Reverse(s);
      assert r[1..] == Reverse(s[..|s| - 1]);
      FindInReverse(s[..|s| - 1]);
    }
  }

  /** Entry `j` of `s` is an assistant turn and no later entry is one. */
  predicate LastAssistantAt(s: seq<ChatMessage>, j: int) {
    0 <= j < |s| && s[j].role == Assistant && forall k :: j < k < |s| ==> s[k].role != Assistant
  }

  /** `LatestAssistant` finds an assistant turn exactly when there is one, and no later one exists. */
  lemma {:induction false} LatestAssistantIsLatest(s: seq<ChatMessage>)
    ensures LatestAssistant(s).None? <==> forall i :: 0 <= i < |s| ==> s[i].role != Assistant
    ensures LatestAssistant(s).Some? ==> exists j :: LastAssistantAt(s, j) && s[j] == LatestAssistant(s).value
  {
    if s != [] {
      var n := |s| - 1;
      if s[n].role == Assistant {
        assert LatestAssistant(s) == Some(s[n]);
        assert LastAssistantAt(s, n);
      } else {
        var p := s[..n];
        assert LatestAssistant(s) == LatestAssistant(p);
        LatestAssistantIsLatest(p);
        assert forall i :: 0 <= i < n ==> s[i] == p[i];
        if LatestAssistant(p).Some? {
          var j :| LastAssistantAt(p, j) && p[j] == LatestAssistant(p).value;
          assert LastAssistantAt(s, j);
        }
      }
    }
  }

  /**
   * The explain rule fires exactly when none of the greeting, current-file and
   * help rules does, "explain" occurs and one of the last four entries is an
   * assistant turn; it quotes the latest such turn.
   */
  lemma ClarifyRule(userMessage: string, editor: Option<Editor>, history: seq<ChatMessage>)
    ensures var lower := Lower(userMessage);
      Respond(userMessage, editor, history).Clarify? <==>
        !Greets(lower) && !AsksCurrentFile(lower) && !AsksHelp(lower) && AsksExplain(lower)
        && LatestAssistant(Recent(history)).Some?
    ensures Respond(userMessage, editor, history).Clarify? ==>
      Respond(userMessage, editor, history).previous == LatestAssistant(Recent(history)).value.content
  {
    ClearImpliesGreets(Lower(userMessage));
    FindInReverse(Recent(history));
  }

  /** A latest assistant turn of a suffix is a latest assistant turn of the whole sequence. */
  lemma SuffixLastAssistant(s: seq<ChatMessage>, off: nat, j: int)
    requires off <= |s| && LastAssistantAt(s[off..], j)
    ensures LastAssistantAt(s, off + j) && s[off + j] == s[off..][j]
  {
    forall k | off + j < k < |s| ensures s[k].role != Assistant {
      assert s[k] == s[off..][k - off];
    }
  }

  /** The latest assistant turn among the last four entries, located in the whole history. */
  lemma LatestRecentAssistant(history: seq<ChatMessage>)
    requires LatestAssistant(Recent(history)).Some?
    ensures exists j ::
      && |history| - 4 <= j && LastAssistantAt(history, j)
      && history[j] == LatestAssistant(Recent(history)).value
  {
    var recent := Recent(history);
    LatestAssistantIsLatest(recent);
    var j :| LastAssistantAt(recent, j) && recent[j] == LatestAssistant(recent).value;
    var off := |history| - |recent|;
    SuffixLastAssistant(history, off, j);
  }

  /** The quoted turn is an assistant turn among the last four entries, and no later entry is one. */
  lemma ClarifyQuotesLatest(userMessage: string, editor: Option<Editor>, history: seq<ChatMessage>)
    requires Respond(userMessage, editor, history).Clarify?
    ensures exists j ::
      && |history| - 4 <= j && LastAssistantAt(history, j)
      && history[j].content == Respond(userMessage, editor, history).previous
  {
    ClarifyRule(userMessage, editor, history);
    LatestRecentAssistant(history);
  }

  /**
   * A code question gets the code reply only when the open file has text;
   * with no file it falls through to the default reply quoting the message.
   */
  lemma CodeRule(userMessage: string, editor: Option<Editor>, history: seq<ChatMessage>)
    requires var lower := Lower(userMessage);
      !Greets(lower) && !AsksCurrentFile(lower) && !AsksHelp(lower) && AsksCode(lower)
      && !(AsksExplain(lower) && LatestAssistant(Recent(history)).Some?)
    ensures CurrentFile(editor) != "" ==> Respond(userMessage, editor, history) == CodeAssist(CurrentLanguage(editor))
    ensures CurrentFile(editor) == "" ==> Respond(userMessage, editor, history) == Fallback(userMessage)
  {
    ClarifyRule(userMessage, editor, history);
    ClearImpliesGreets(Lower(userMessage));
  }

  /** The default reply is given exactly when no rule's test passes. */
  lemma FallbackRule(userMessage: string, editor: Option<Editor>, history: seq<ChatMessage>)
    ensures var lower := Lower(userMessage);
      Respond(userMessage, editor, history) == Fallback(userMessage) <==>
        !Greets(lower) && !AsksCurrentFile(lower) && !AsksHelp(lower)
        && !(AsksExplain(lower) && LatestAssistant(Recent(history)).Some?)
        && !(AsksCode(lower) && CurrentFile(editor) != "")
  {
    ClarifyRule(userMessage, editor, history);
    ClearImpliesGreets(Lower(userMessage));
  }

  /** The default reply quotes the message as typed. */
  lemma FallbackQuotesMessage(message: string)
    ensures Contains(ReplyText(Fallback(message)), message)
  {
    ContainsInfix(FallbackPrefix, message, FallbackSuffix);
  }

  /** The explain reply quotes the earlier assistant turn. */
  lemma ClarifyQuotesPrevious(previous: string)
    ensures Contains(ReplyText(Clarify(previous)), previous)
  {
    ContainsInfix(ClarifyPrefix, previous, ClarifySuffix);
  }

  /** The file-info reply renders the file's length in decimal. */
  lemma FileInfoLength(language: string, length: nat)
    ensures Contains(ReplyText(FileInfo(language, length)), NatToString(length))
    ensures DecimalValue(NatToString(length)) == length
  {
    ContainsInfix("The current file is written in " + language + " and is ", NatToString(length), " characters long.");
    NatToStringRoundTrip(length);
  }

  // ---------------------------------------------------------------------------
  // The service object

  class ChatService {
    var history: seq<ChatMessage>
    const store: GlobalState

    /** Builds the service over a store and loads the persisted history. */
    constructor (store: GlobalState)
      ensures this.store == store
      ensures HistoryKey !in store.records ==> history == []
      ensures HistoryKey in store.records ==> history == store.records[HistoryKey]
    {
      this.store := store;
      history := [];
      new;
      LoadHistory();
    }

    method LoadHistory()
      modifies this
      ensures history == store.Get(HistoryKey, [])
    {
      history := store.Get(HistoryKey, []);
    }

    method SaveHistory() returns (ok: bool)
      modifies store
      ensures ok == !store.failsWrites && store.failsWrites == old(store.failsWrites)
      ensures store.records == if ok then old(store.records)[HistoryKey := history] else old(store.records)
    {
      ok := store.Update(HistoryKey, history);
    }

    /**
     * `generateResponse`: the reply text of the rule that fires. The body
     * keeps the clear-history rule's effect (empty the history, persist it;
     * a failed save is the exception `ok == false` stands for), but that
     * rule never fires, so the history and the store are left as they were.
     */
    method GenerateResponse(userMessage: string, editor: Option<Editor>) returns (response: string, ok: bool)
      modifies this, store
      ensures response == ReplyText(Respond(userMessage, editor, old(history)))
      ensures ok && history == old(history)
      ensures store.records == old(store.records) && store.failsWrites == old(store.failsWrites)
    {
      ghost var before := history;
      var r := Respond(userMessage, editor, history);
      ok := true;
      if r == Cleared {
        history := [];
        ok := SaveHistory();
      }
      response := ReplyText(r);
      ClearNeverFires(userMessage, editor, before);
    }

    /**
     * `processMessage`: records the user turn and the reply, then persists.
     * A failed save still leaves both turns in memory, and the caller gets
     * the fixed error text instead of the reply.
     */
    method ProcessMessage(userMessage: string, editor: Option<Editor>) returns (response: string)
      modifies this, store
      ensures history == old(history) + Exchange(userMessage, editor, old(history))
      ensures store.failsWrites == old(store.failsWrites)
      ensures response == if store.failsWrites then ErrorReply else history[|history| - 1].content
      ensures store.records == if store.failsWrites then old(store.records) else old(store.records)[HistoryKey := history]
    {
      var turn := ChatMessage(User, userMessage);
      history := history + [turn];
      var reply, ok := GenerateResponse(userMessage, editor);
      if ok {
        history := history + [ChatMessage(Assistant, reply)];
        ok := SaveHistory();
      }
      response := if ok then reply else ErrorReply;
    }

    /** `getHistory`: a fresh array holding the history; writing to it cannot reach `history`. */
    method GetHistory() returns (copy: array<ChatMessage>)
      ensures fresh(copy)
      ensures copy[..] == history
    {
      copy := new ChatMessage[|history|](i requires 0 <= i < |history| reads this => history[i]);
    }

    /** `clearHistory`: empties the history, then persists the empty record. */
    method ClearHistory() returns (ok: bool)
      modifies this, store
      ensures history == []
      ensures ok == !store.failsWrites && store.failsWrites == old(store.failsWrites)
      ensures store.records == if ok then old(store.records)[HistoryKey := []] else old(store.records)
    {
      history := [];
      ok := SaveHistory();
    }
  }

  /** A service loaded from a store that has just been cleared starts with an empty history. */
  method ClearedHistoryReloadsEmpty(service: ChatService) returns (reloaded: ChatService)
    modifies service, service.store
    ensures !service.store.failsWrites ==> reloaded.history == []
  {
    var ok := service.ClearHistory();
    reloaded := new ChatService(service.store);
  }

  /**
   * Writing into the array `GetHistory` returned leaves the service's history
   * as it was. The ensures follows from this method's empty `modifies` frame;
   * what the method shows is that the write `copy[i] := m` is allowed at all
   * under that frame, because `GetHistory` ensures `fresh(copy)`.
   */
  method HistoryCopyIsolated(service: ChatService, i: nat, m: ChatMessage)
    requires i < |service.history|
    ensures service.history == old(service.history)
  {
    var copy := service.GetHistory();
    copy[i] := m;
  }
}
