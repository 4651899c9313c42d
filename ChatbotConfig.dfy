/** The browser chat widget: its conversation state (`CHATBOT_STATE`), the
    single-flight send cycle, and the history it keeps in `localStorage`. */
module ChatbotConfig {
  import opened Wrappers
  import opened Text

  const WelcomeMessage := "Halo! \U{1F44B} Apa yang bisa saya bantu Anda hari ini?"
  const ErrorMessage := "Maaf, terjadi kesalahan. Silakan coba lagi."

  /** The courtesy replies shown when the backend cannot be reached. */
  const FallbackResponses: seq<string> := [
    "Maaf, saya tidak dapat terhubung ke server. Silakan coba lagi nanti.",
    "Sepertinya koneksi terputus. Periksa kembali atau hubungi support.",
    "Backend sedang maintenance. Coba lagi dalam beberapa menit."
  ]

  /** Every storage key the widget writes starts with this. */
  const HistoryPrefix := "chatbot_history_"

  /** One entry of the log. User entries carry no welcome flag; the
      timestamp both kinds carry is not modelled. */
  datatype Message =
    | UserMessage(content: string)
    | BotMessage(content: string, isWelcome: bool)

  /** A `localStorage` value as the widget reads it back: a log that
      parses, or anything `JSON.parse` rejects. */
  datatype StoredValue = History(log: seq<Message>) | Unparsable

  /** What the network call ends in: a 2xx body with its `reply` field
      (possibly absent), or any failure together with the draw
      `Math.floor(Math.random() * 3)` that picks the fallback. */
  datatype BackendOutcome = Responded(reply: Option<string>) | Failed(pick: nat)

  predicate ValidOutcome(outcome: BackendOutcome) {
    outcome.Failed? ==> outcome.pick < |FallbackResponses|
  }

  /** `generateFallbackResponse`: one of the three courtesy replies; the
      user's message does not influence the choice. */
  function FallbackResponse(pick: nat): (r: string)
    requires pick < |FallbackResponses|
    ensures r in FallbackResponses
  {
    FallbackResponses[pick]
  }

  /** The text `sendMessageToBackend` resolves to: a non-empty `reply`
      verbatim, the error message for an absent or empty one, a fallback on
      any failure. */
  function BackendResult(outcome: BackendOutcome): (r: string)
    requires ValidOutcome(outcome)
    ensures outcome.Responded? && outcome.reply.Some? && outcome.reply.value != [] ==> r == outcome.reply.value
    ensures outcome.Responded? && (outcome.reply.None? || outcome.reply.value == []) ==> r == ErrorMessage
    ensures outcome.Failed? ==> r in FallbackResponses
  {
    match outcome
    case Responded(reply) => if reply.Some? && reply.value != [] then reply.value else ErrorMessage
    case Failed(pick) => FallbackResponse(pick)
  }

  /** The bot never shows an empty bubble: whatever the outcome, the text
      appended has at least one character. */
  lemma BackendResultNonEmpty(outcome: BackendOutcome)
    requires ValidOutcome(outcome)
    ensures BackendResult(outcome) != []
  {
    if outcome.Failed? {
      assert FallbackResponses[outcome.pick] != [];
    }
  }

  /** The storage key of a conversation's history. */
  function HistoryKey(id: string): (key: string)
    ensures StartsWith(key, HistoryPrefix)
    ensures key[|HistoryPrefix|..] == id
  {
    HistoryPrefix + id
  }

  /** Distinct conversations never share a storage key. */
  lemma HistoryKeyInjective(a: string, b: string)
    requires HistoryKey(a) == HistoryKey(b)
    ensures a == b
  {
    assert a == HistoryKey(a)[|HistoryPrefix|..];
  }

  /** The log after `loadMessageHistory`: what is stored for `id` when it
      parses, the current log when nothing is stored or it does not parse. */
  function Restored(items: map<string, StoredValue>, id: string, current: seq<Message>): (r: seq<Message>)
    ensures r == current || (HistoryKey(id) in items && items[HistoryKey(id)] == History(r))
    ensures HistoryKey(id) !in items || items[HistoryKey(id)] == Unparsable ==> r == current
    ensures HistoryKey(id) in items && items[HistoryKey(id)].History? ==> r == items[HistoryKey(id)].log
  {
    var key := HistoryKey(id);
    if key in items && items[key].History? then items[key].log else current
  }

  /** Saving a log and loading the same conversation gives back exactly
      that log, in the same order, whatever was shown before. */
  lemma SaveThenLoad(items: map<string, StoredValue>, id: string, log: seq<Message>, current: seq<Message>)
    ensures Restored(items[HistoryKey(id) := History(log)], id, current) == log
  {
  }

  /** Saving one conversation does not change what another one loads. */
  lemma SaveKeepsOtherConversations(items: map<string, StoredValue>, id: string, log: seq<Message>, other: string, current: seq<Message>)
    requires other != id
    ensures Restored(items[HistoryKey(id) := History(log)], other, current) == Restored(items, other, current)
  {
    if HistoryKey(other) == HistoryKey(id) {
      HistoryKeyInjective(other, id);
    }
  }

  /** The keys the clearing sweep removes. */
  function HistoryKeys(items: map<string, StoredValue>): set<string> {
    set key | key in items && StartsWith(key, HistoryPrefix)
  }

  /** Storage after `clearChatbotHistory`'s sweep: the other keys keep
      their values, no key with the history prefix is left. */
  function WithoutHistory(items: map<string, StoredValue>): (r: map<string, StoredValue>)
    ensures forall key :: key in r <==> key in items && !StartsWith(key, HistoryPrefix)
    ensures forall key :: key in r ==> r[key] == items[key]
  {
    items - HistoryKeys(items)
  }

  /** After the sweep, no conversation has a history to restore. */
  lemma ClearedStorageRestoresNothing(items: map<string, StoredValue>, id: string, current: seq<Message>)
    ensures Restored(WithoutHistory(items), id, current) == current
  {
    assert HistoryKey(id) !in WithoutHistory(items);
  }

  /** The log `initializeChatbot` leaves: the restored log, or the welcome
      message alone when nothing was restored. */
  function InitialLog(restored: seq<Message>): (r: seq<Message>)
    ensures |r| > 0
    ensures restored != [] ==> r == restored
    ensures restored == [] ==> r == [BotMessage(WelcomeMessage, true)]
  {
    if restored == [] then [BotMessage(WelcomeMessage, true)] else restored
  }

  /** `toggleChatbot`'s effect on `isOpen`: flipped when the widget element
      exists, unchanged otherwise. */
  function Toggled(isOpen: bool, widgetPresent: bool): (r: bool)
    ensures widgetPresent ==> r != isOpen
    ensures !widgetPresent ==> r == isOpen
  {
    if widgetPresent then !isOpen else isOpen
  }

  /** Toggling twice restores the panel. */
  lemma ToggleTwice(isOpen: bool, widgetPresent: bool)
    ensures Toggled(Toggled(isOpen, widgetPresent), widgetPresent) == isOpen
  {
  }

  /** The object `getChatbotStatus` returns. */
  datatype Status = Status(isOpen: bool, isLoading: bool, messagesCount: nat, conversationId: string)

  /** The browser's `localStorage`: string keys to stored values,
      updated in place. */
  class LocalStorage {
    var items: map<string, StoredValue>

    constructor (initial: map<string, StoredValue>)
      ensures items == initial
    {
      items := initial;
    }

    /** `getItem`: the stored value, or nothing for an absent key. */
    function GetItem(key: string): (r: Option<StoredValue>)
      reads this
      ensures r.Some? <==> key in items
      ensures r.Some? ==> r.value == items[key]
    {
      if key in items then Some(items[key]) else None
    }

    method SetItem(key: string, value: StoredValue)
      modifies this
      ensures items == old(items)[key := value]
    {
      items := items[key := value];
    }

    method RemoveItem(key: string)
      modifies this
      ensures items == old(items) - {key}
    {
      items := items - {key};
    }
  }

  /** `CHATBOT_STATE` together with the storage it persists to. */
  class Chatbot {
    var isOpen: bool
    var messages: seq<Message>
    var isLoading: bool
    var conversationId: string
    const storage: LocalStorage

    /** The state at script load: closed, empty, idle, with a freshly
        generated id (here a parameter). */
    constructor (id: string, store: LocalStorage)
      ensures !isOpen && messages == [] && !isLoading && conversationId == id
      ensures storage == store
    {
      isOpen := false;
      messages := [];
      isLoading := false;
      conversationId := id;
      storage := store;
    }

    /** `getChatbotStatus`: a snapshot of the state, with the log's length. */
    function GetStatus(): (s: Status)
      reads this
      ensures s.isOpen == isOpen && s.isLoading == isLoading
      ensures s.messagesCount == |messages| && s.conversationId == conversationId
    {
      Status(isOpen, isLoading, |messages|, conversationId)
    }

    /** `toggleChatbot`: flips `isOpen` when the widget element exists. */
    method Toggle(widgetPresent: bool)
      modifies this
      ensures isOpen == Toggled(old(isOpen), widgetPresent)
      ensures messages == old(messages) && isLoading == old(isLoading) && conversationId == old(conversationId)
    {
      if !widgetPresent {
        return;
      }
      isOpen := !isOpen;
    }

    /** `addUserMessage`: appends at the end only. */
    method AddUserMessage(content: string)
      modifies this
      ensures messages == old(messages) + [UserMessage(content)]
      ensures isOpen == old(isOpen) && isLoading == old(isLoading) && conversationId == old(conversationId)
    {
      messages := messages + [UserMessage(content)];
    }

    /** `addBotMessage`: appends at the end only. */
    method AddBotMessage(content: string, isWelcome: bool)
      modifies this
      ensures messages == old(messages) + [BotMessage(content, isWelcome)]
      ensures isOpen == old(isOpen) && isLoading == old(isLoading) && conversationId == old(conversationId)
    {
      messages := messages + [BotMessage(content, isWelcome)];
    }

    /** `saveMessageHistory`: the whole log replaces whatever was stored
        under this conversation's key; no other key changes. */
    method SaveMessageHistory()
      modifies storage
      ensures storage.items == old(storage.items)[HistoryKey(conversationId) := History(messages)]
    {
      storage.SetItem(HistoryKey(conversationId), History(messages));
    }

    /** `loadMessageHistory`: replaces the log by the stored one when it
        exists and parses. */
    method LoadMessageHistory()
      modifies this
      ensures messages == Restored(storage.items, conversationId, old(messages))
      ensures isOpen == old(isOpen) && isLoading == old(isLoading) && conversationId == old(conversationId)
    {
      var saved := storage.GetItem(HistoryKey(conversationId));
      if saved.Some? && saved.value.History? {
        messages := saved.value.log;
      }
    }

    /** `initializeChatbot`: restore the history, then greet if the log is
        still empty. */
    method Initialize()
      modifies this
      ensures messages == InitialLog(Restored(storage.items, conversationId, old(messages)))
      ensures isOpen == old(isOpen) && isLoading == old(isLoading) && conversationId == old(conversationId)
    {
      LoadMessageHistory();
      if |messages| == 0 {
        AddBotMessage(WelcomeMessage, true);
      }
    }

    /** The synchronous half of `handleChatbotInput`: drop the call when
        the text is blank or a reply is pending; otherwise append the user's
        text as given and raise the loading flag. */
    method BeginSend(message: string) returns (accepted: bool)
      modifies this
      ensures accepted == (Trim(message) != [] && !old(isLoading))
      ensures accepted ==> messages == old(messages) + [UserMessage(message)] && isLoading
      ensures !accepted ==> messages == old(messages) && isLoading == old(isLoading)
      ensures isOpen == old(isOpen) && conversationId == old(conversationId)
    {
      if Trim(message) == [] || isLoading {
        return false;
      }
      AddUserMessage(message);
      isLoading := true;
      accepted := true;
    }

    /** The continuation of `handleChatbotInput` once the request settles:
        append the one bot reply, persist the whole log, clear the flag. */
    method CompleteSend(outcome: BackendOutcome)
      requires ValidOutcome(outcome)
      modifies this, storage
      ensures messages == old(messages) + [BotMessage(BackendResult(outcome), false)]
      ensures storage.items == old(storage.items)[HistoryKey(conversationId) := History(messages)]
      ensures !isLoading
      ensures isOpen == old(isOpen) && conversationId == old(conversationId)
    {
      var response := BackendResult(outcome);
      AddBotMessage(response, false);
      SaveMessageHistory();
      isLoading := false;
    }

    /** `handleChatbotInput` as one call whose network outcome is given:
        either nothing changes, or the log gains the user's message and one
        bot reply, the whole log is saved, and the flag is down again. */
    method HandleChatbotInput(message: string, outcome: BackendOutcome) returns (accepted: bool)
      requires ValidOutcome(outcome)
      modifies this, storage
      ensures accepted == (Trim(message) != [] && !old(isLoading))
      ensures accepted ==>
        && messages == old(messages) + [UserMessage(message), BotMessage(BackendResult(outcome), false)]
        && storage.items == old(storage.items)[HistoryKey(conversationId) := History(messages)]
        && !isLoading
      ensures !accepted ==>
        && messages == old(messages) && isLoading == old(isLoading)
        && storage.items == old(storage.items)
      ensures isOpen == old(isOpen) && conversationId == old(conversationId)
    {
      accepted := BeginSend(message);
      if accepted {
        CompleteSend(outcome);
      }
    }

    /** `sendChatbotMessage`: read the input field (absent when the element
        is missing), trim it and hand a non-empty result to
        `handleChatbotInput`. */
    method SendChatbotMessage(input: Option<string>, outcome: BackendOutcome) returns (accepted: bool)
      requires ValidOutcome(outcome)
      modifies this, storage
      ensures accepted == (input.Some? && Trim(input.value) != [] && !old(isLoading))
      ensures accepted ==>
        && messages == old(messages) + [UserMessage(Trim(input.value)), BotMessage(BackendResult(outcome), false)]
        && storage.items == old(storage.items)[HistoryKey(conversationId) := History(messages)]
        && !isLoading
      ensures !accepted ==>
        && messages == old(messages) && isLoading == old(isLoading)
        && storage.items == old(storage.items)
      ensures isOpen == old(isOpen) && conversationId == old(conversationId)
    {
      if input.None? {
        return false;
      }
      var message := Trim(input.value);
      if message == [] {
        return false;
      }
      TrimIdempotent(input.value);
      accepted := HandleChatbotInput(message, outcome);
    }

    /** `clearChatbotHistory`: when confirmed, start a new conversation
        whose log is the welcome message alone and sweep every history key
        out of storage; when declined, change nothing. */
    method ClearHistory(confirmed: bool, newId: string)
      modifies this, storage
      ensures !confirmed ==>
        && messages == old(messages) && conversationId == old(conversationId)
        && storage.items == old(storage.items)
      ensures confirmed ==>
        && messages == [BotMessage(WelcomeMessage, true)]
        && conversationId == newId
        && storage.items == WithoutHistory(old(storage.items))
      ensures isOpen == old(isOpen) && isLoading == old(isLoading)
    {
      if !confirmed {
        return;
      }
      messages := [];
      conversationId := newId;
      ghost var start := storage.items;
      var pending := HistoryKeys(storage.items);
      while pending != {}
        modifies storage
        invariant pending <= HistoryKeys(start)
        invariant storage.items == start - (HistoryKeys(start) - pending)
        decreases |pending|
      {
        var key :| key in pending;
        storage.RemoveItem(key);
        pending := pending - {key};
      }
      AddBotMessage(WelcomeMessage, true);
    }
  }
}
