/** The Flask backend: an in-memory store of conversations, the chat
    endpoint that appends to it, and a keyword responder. */
module App {
  import opened Wrappers
  import opened Text

  /** One keyword of the responder and the reply it selects. */
  datatype Rule = Rule(keyword: string, response: string)

  /** The responder's table, in the order the dictionary iterates it. */
  const Responses: seq<Rule> := [
    Rule("halo", "Halo! Apa kabar Anda?"),
    Rule("apa", "Saya adalah Nexus Assistant, siap membantu Anda."),
    Rule("bantuan", "Saya bisa membantu menjawab pertanyaan tentang produk kami.")
  ]

  /** The index of the first rule whose keyword occurs in `text`. */
  function FirstMatch(rules: seq<Rule>, text: string): (r: Option<nat>)
    ensures r.Some? ==> r.value < |rules| && Contains(text, rules[r.value].keyword)
    ensures r.Some? ==> forall j :: 0 <= j < r.value ==> !Contains(text, rules[j].keyword)
    ensures r.None? ==> forall j :: 0 <= j < |rules| ==> !Contains(text, rules[j].keyword)
  {
    if rules == [] then None
    else if Contains(text, rules[0].keyword) then Some(0)
    else match FirstMatch(rules[1..], text)
      case None => None
      case Some(k) => Some(k + 1)
  }

  /** The reply when no keyword matches; it quotes the message as received. */
  function DefaultReply(message: string): string {
    "Terima kasih atas pertanyaan Anda: '" + message + "'. Tim kami sedang memproses jawaban Anda."
  }

  /** `generate_bot_response`: the first rule whose keyword occurs in the
      lower-cased message, else the default reply. The conversation id the
      source also passes is unused there and is not a parameter here. */
  function GenerateBotResponse(message: string): (r: string)
    ensures r == DefaultReply(message) || r == Responses[0].response
      || r == Responses[1].response || r == Responses[2].response
  {
    match FirstMatch(Responses, Lower(message))
    case Some(k) => Responses[k].response
    case None => DefaultReply(message)
  }

  /** The rule that wins is the first whose keyword occurs, case-insensitively. */
  lemma FirstKeywordWins(message: string, k: nat)
    requires k < |Responses|
    requires Contains(Lower(message), Responses[k].keyword)
    requires forall j :: 0 <= j < k ==> !Contains(Lower(message), Responses[j].keyword)
    ensures GenerateBotResponse(message) == Responses[k].response
  {
  }

  /** With no keyword present the reply is the default one, and it embeds the
      original (not lower-cased) message verbatim. */
  lemma NoKeywordQuotesMessage(message: string)
    requires forall j :: 0 <= j < |Responses| ==> !Contains(Lower(message), Responses[j].keyword)
    ensures GenerateBotResponse(message) == DefaultReply(message)
    ensures Contains(GenerateBotResponse(message), message)
  {
    ContainsMiddle("Terima kasih atas pertanyaan Anda: '", message,
                   "'. Tim kami sedang memproses jawaban Anda.");
  }

  /** "halo apa" contains two keywords; the earlier rule, `halo`, wins. */
  lemma HaloBeforeApa()
    ensures GenerateBotResponse("halo apa") == "Halo! Apa kabar Anda?"
  {
    assert StartsWith("halo apa", "halo");
    assert Lower("halo apa") == "halo apa";
    FirstKeywordWins("halo apa", 0);
  }

  /** Rule order, not text order, decides: "halo" anywhere in the
      message, with any other keyword before it (as in "bantuan halo"), gets
      the `halo` reply, because that rule is tried first. */
  lemma RuleOrderDecides(before: string, after: string)
    ensures GenerateBotResponse(before + "halo" + after) == "Halo! Apa kabar Anda?"
  {
    var m := before + "halo" + after;
    var t := Lower(m);
    assert t[|before|..|before| + 4] == "halo" by {
      forall i | 0 <= i < 4 ensures t[|before| + i] == "halo"[i] {
        assert m[|before| + i] == "halo"[i];
      }
    }
    ContainsFromOccurrence(t, "halo", |before|);
    FirstKeywordWins(m, 0);
  }

  /** Matching ignores case: "HALO APA" also selects the `halo` reply. */
  lemma MatchIgnoresCase()
    ensures GenerateBotResponse("HALO APA") == "Halo! Apa kabar Anda?"
  {
    assert Lower("HALO APA") == "halo apa";
    assert StartsWith("halo apa", "halo");
    FirstKeywordWins("HALO APA", 0);
  }

  datatype Role = User | Assistant

  /** One stored turn of a conversation (its timestamp is not modelled). */
  datatype Turn = Turn(role: Role, content: string)

  /** The JSON body of a chat request; either field may be missing. */
  datatype ChatRequest = ChatRequest(message: Option<string>, conversationId: Option<string>)

  /** A 200 reply echoing the conversation id, or an error with its status. */
  datatype ChatResponse =
    | Reply(reply: string, conversationId: string)
    | Error(status: nat, error: string)

  /** The server process: `conversations` maps a conversation id to its
      turns, oldest first. */
  class ChatServer {
    var conversations: map<string, seq<Turn>>

    constructor ()
      ensures conversations == map[]
    {
      conversations := map[];
    }

    /** `get_conversation`: the stored turns of a known id, nothing otherwise. */
    function GetConversation(id: string): (r: seq<Turn>)
      reads this
      ensures id in conversations ==> r == conversations[id]
      ensures id !in conversations ==> r == []
    {
      if id in conversations then conversations[id] else []
    }

    /** The two appends of `handle_chat`: create the conversation if it is
        absent, then add the user's turn and the assistant's turn. */
    method RecordExchange(id: string, message: string, reply: string)
      modifies this
      ensures conversations == old(conversations)[id := old(GetConversation(id)) + [Turn(User, message), Turn(Assistant, reply)]]
    {
      ghost var prior := GetConversation(id);
      if id !in conversations {
        conversations := conversations[id := []];
      }
      conversations := conversations[id := conversations[id] + [Turn(User, message)]];
      conversations := conversations[id := conversations[id] + [Turn(Assistant, reply)]];
      assert conversations[id] == prior + [Turn(User, message), Turn(Assistant, reply)];
    }

    /** `handle_chat`: reject a message that is empty after stripping, with
        no change; otherwise record the stripped message and the generated
        reply in that conversation and answer with the reply and the echoed
        id. */
    method HandleChat(request: ChatRequest) returns (response: ChatResponse)
      modifies this
      ensures var message := Trim(request.message.GetOr(""));
        message == [] ==> response == Error(400, "Message is empty") && conversations == old(conversations)
      ensures var message := Trim(request.message.GetOr(""));
        var id := request.conversationId.GetOr("");
        message != [] ==>
          && response == Reply(GenerateBotResponse(message), id)
          && conversations == old(conversations)[id := old(GetConversation(id)) + [Turn(User, message), Turn(Assistant, response.reply)]]
    {
      var message := Trim(request.message.GetOr(""));
      var id := request.conversationId.GetOr("");
      if message == [] {
        return Error(400, "Message is empty");
      }
      var reply := GenerateBotResponse(message);
      RecordExchange(id, message, reply);
      response := Reply(reply, id);
    }
  }

  /** On a fresh server, two accepted messages to one conversation leave
      its four turns in order, and a blank third message is rejected without
      touching them. */
  method TwoExchanges(id: string, first: string, second: string, blank: string)
    returns (history: seq<Turn>, rejected: ChatResponse)
    requires Trim(first) != [] && Trim(second) != [] && Trim(blank) == []
    ensures history ==
      [Turn(User, Trim(first)), Turn(Assistant, GenerateBotResponse(Trim(first)))] +
      [Turn(User, Trim(second)), Turn(Assistant, GenerateBotResponse(Trim(second)))]
    ensures rejected == Error(400, "Message is empty")
  {
    var server := new ChatServer();
    var one := server.HandleChat(ChatRequest(Some(first), Some(id)));
    ghost var turns := server.GetConversation(id);
    assert turns == [Turn(User, Trim(first)), Turn(Assistant, one.reply)];
    var two := server.HandleChat(ChatRequest(Some(second), Some(id)));
    rejected := server.HandleChat(ChatRequest(Some(blank), Some(id)));
    history := server.GetConversation(id);
    assert history == turns + [Turn(User, Trim(second)), Turn(Assistant, two.reply)];
  }
}
