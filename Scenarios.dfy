/** Sessions of the chat widget, driven through the contracts of its
    operations: each method takes a fresh widget over a storage and states
    what the user ends up seeing. */
module ChatbotScenarios {
  import opened Wrappers
  import opened Text
  import opened ChatbotConfig

  /** Typing "hello" and getting `{reply: "Hi there"}` leaves exactly the
      two bubbles, and the widget is idle again. */
  method HappyPath(id: string) returns (log: seq<Message>, loading: bool)
    ensures log == [UserMessage("hello"), BotMessage("Hi there", false)]
    ensures !loading
  {
    var store := new LocalStorage(map[]);
    var widget := new Chatbot(id, store);
    TrimUntrimmed("hello");
    var accepted := widget.HandleChatbotInput("hello", Responded(Some("Hi there")));
    log, loading := widget.messages, widget.isLoading;
  }

  /** A second send while the first is still pending is dropped: only the
      first exchange reaches the log. */
  method SendWhilePending(id: string, first: string, second: string, outcome: BackendOutcome)
    returns (firstAccepted: bool, secondAccepted: bool, log: seq<Message>, loading: bool)
    requires Trim(first) != [] && ValidOutcome(outcome)
    ensures firstAccepted && !secondAccepted
    ensures log == [UserMessage(first), BotMessage(BackendResult(outcome), false)]
    ensures !loading
  {
    var store := new LocalStorage(map[]);
    var widget := new Chatbot(id, store);
    firstAccepted := widget.BeginSend(first);
    secondAccepted := widget.BeginSend(second);
    widget.CompleteSend(outcome);
    log, loading := widget.messages, widget.isLoading;
  }

  /** When the request fails, the reply shown is one of the three courtesy
      messages and the loading flag is down. */
  method BackendDown(id: string, text: string, pick: nat) returns (reply: string, loading: bool)
    requires Trim(text) != [] && pick < |FallbackResponses|
    ensures reply in FallbackResponses
    ensures !loading
  {
    var store := new LocalStorage(map[]);
    var widget := new Chatbot(id, store);
    var accepted := widget.HandleChatbotInput(text, Failed(pick));
    reply := widget.messages[|widget.messages| - 1].content;
    loading := widget.isLoading;
  }

  /** A page that comes back under the same conversation id shows exactly
      the log the previous page saved, in the same order. */
  method ReloadSameConversation(initial: map<string, StoredValue>, id: string, text: string, outcome: BackendOutcome)
    returns (before: seq<Message>, after: seq<Message>)
    requires Trim(text) != [] && ValidOutcome(outcome)
    ensures before == InitialLog(Restored(initial, id, [])) + [UserMessage(text), BotMessage(BackendResult(outcome), false)]
    ensures after == before
  {
    var store := new LocalStorage(initial);
    var page := new Chatbot(id, store);
    page.Initialize();
    var accepted := page.HandleChatbotInput(text, outcome);
    before := page.messages;
    var reloaded := new Chatbot(id, store);
    reloaded.Initialize();
    after := reloaded.messages;
  }

  /** After a confirmed clear, a later page finds no history under any id
      and starts from the welcome message, while unrelated keys survive. */
  method ClearThenReload(initial: map<string, StoredValue>, id: string, newId: string, laterId: string, other: string)
    returns (cleared: seq<Message>, later: seq<Message>, kept: map<string, StoredValue>)
    requires other in initial && !StartsWith(other, HistoryPrefix)
    ensures cleared == [BotMessage(WelcomeMessage, true)]
    ensures later == [BotMessage(WelcomeMessage, true)]
    ensures other in kept && kept[other] == initial[other]
    ensures forall key :: key in kept ==> !StartsWith(key, HistoryPrefix)
  {
    var store := new LocalStorage(initial);
    var page := new Chatbot(id, store);
    page.Initialize();
    page.ClearHistory(true, newId);
    cleared := page.messages;
    kept := store.items;
    ClearedStorageRestoresNothing(initial, laterId, []);
    var next := new Chatbot(laterId, store);
    next.Initialize();
    later := next.messages;
  }
}
