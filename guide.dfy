/** The chat page (pages/Guide.tsx): the transcript, the input box and the
    busy flag, and `handleSend` split at its `await` into a begin step and a
    complete step. The clock readings that give ids and timestamps are
    parameters. */
module Guide {
  import opened Types
  import opened Text
  import GeminiService

  /** The greeting the transcript starts with. */
  const WelcomeText: string :=
    "Konnichiwa! (Hello!) \U{1F1EF}\U{1F1F5} I am your personal Japan travel guide. \n\n"
    + "I can help you with:\n"
    + "* **Itineraries:** \"Plan a 3-day trip to Kyoto\"\n"
    + "* **Food:** \"Best ramen in Osaka?\"\n"
    + "* **Etiquette:** \"How do I use chopsticks properly?\"\n"
    + "* **Transport:** \"How to use the Shinkansen?\"\n\n"
    + "What would you like to know?"

  /** The seeded welcome message, stamped with the time the page opened. */
  function Welcome(now: int): ChatMessage
  {
    ChatMessage("welcome", Model, WelcomeText, now, None)
  }

  /** The role the transcript holds at position `i`: the welcome message,
      then user and model turns alternating. */
  function RoleAt(i: nat): MessageRole
  {
    if i % 2 == 1 then User else Model
  }

  class ChatSession {
    var messages: seq<ChatMessage>
    var input: string
    var isLoading: bool

    /** The transcript starts with the welcome message; user and model turns
        alternate after it; the page is busy exactly while a user turn waits
        for its reply. */
    ghost predicate Valid()
      reads this
    {
      |messages| >= 1
      && messages[0] == Welcome(messages[0].timestamp)
      && (forall i :: 1 <= i < |messages| ==> messages[i].role == RoleAt(i))
      && (isLoading <==> |messages| % 2 == 0)
    }

    /** The page mounts with the welcome message alone, an empty input box and
        no request in flight. */
    constructor (now: int)
      ensures Valid()
      ensures messages == [Welcome(now)] && input == "" && !isLoading
    {
      messages := [Welcome(now)];
      input := "";
      isLoading := false;
    }

    /** Typing into the input box. */
    method SetInput(text: string)
      requires Valid()
      modifies this
      ensures Valid()
      ensures input == text && messages == old(messages) && isLoading == old(isLoading)
    {
      input := text;
    }

    /** `handleSend` up to its `await`. A blank input or a request already in
        flight changes nothing and sends nothing. Otherwise the input, untrimmed,
        becomes a user message appended to the transcript, the input box is
        cleared, the page turns busy, and the client is called with the
        transcript including the new message, that message's text, and no
        language, so the client's default applies. */
    method BeginSend(id: string, now: int) returns (call: Option<GeminiService.ClientCall>)
      requires Valid()
      modifies this
      ensures Valid()
      ensures (IsBlank(old(input)) || old(isLoading)) ==>
        call.None? && messages == old(messages) && input == old(input) && isLoading == old(isLoading)
      ensures !(IsBlank(old(input)) || old(isLoading)) ==>
        var userMsg := ChatMessage(id, User, old(input), now, None);
        && messages == old(messages) + [userMsg]
        && input == ""
        && isLoading
        && call == Some(GeminiService.ClientCall(old(messages) + [userMsg], old(input), GeminiService.DefaultLanguage))
    {
      if Trim(input) == "" || isLoading {
        return None;
      }
      var userMsg := ChatMessage(id, User, input, now, None);
      call := Some(GeminiService.ClientCall(messages + [userMsg], userMsg.text, GeminiService.DefaultLanguage));
      messages := messages + [userMsg];
      input := "";
      isLoading := true;
    }

    /** `handleSend` after its `await`: the reply becomes a model message, with
        its links, appended to the transcript, and the page is no longer busy.
        The input box keeps whatever was typed meanwhile. */
    method CompleteSend(id: string, now: int, reply: GeminiService.Reply)
      requires Valid() && isLoading
      modifies this
      ensures Valid()
      ensures messages == old(messages) + [ChatMessage(id, Model, reply.text, now, Some(reply.groundingLinks))]
      ensures !isLoading && input == old(input)
    {
      messages := messages + [ChatMessage(id, Model, reply.text, now, Some(reply.groundingLinks))];
      isLoading := false;
    }

    /** A whole `handleSend` whose `await` resolves before anything else
        happens: when accepted, the transcript grows by exactly the user turn
        and the model turn, everything before them (the welcome message
        included) is unchanged, and the client sees the trimmed transcript
        ending in the new user turn. */
    method HandleSend(userId: string, sentAt: int, modelId: string, repliedAt: int,
                      response: Option<GeminiService.RawResponse>)
      returns (request: Option<GeminiService.ChatRequest>)
      requires Valid()
      modifies this
      ensures Valid()
      ensures messages[0] == old(messages[0])
      ensures (IsBlank(old(input)) || old(isLoading)) ==>
        request.None? && messages == old(messages) && input == old(input) && isLoading == old(isLoading)
      ensures !(IsBlank(old(input)) || old(isLoading)) ==>
        var userMsg := ChatMessage(userId, User, old(input), sentAt, None);
        var reply := GeminiService.ReplyOf(response);
        && messages == old(messages) + [userMsg, ChatMessage(modelId, Model, reply.text, repliedAt, Some(reply.groundingLinks))]
        && input == "" && !isLoading
        && request.Some?
        && request.value.history == GeminiService.RecentHistory(old(messages) + [userMsg])
        && request.value.message == old(input)
        && request.value.instructionLanguage == GeminiService.DefaultLanguage
    {
      var call := BeginSend(userId, sentAt);
      if call.None? {
        return None;
      }
      var req, reply := GeminiService.SendMessageToGemini(call.value, response);
      CompleteSend(modelId, repliedAt, reply);
      request := Some(req);
    }
  }

  /** The first exchange forwards the welcome message too: the history the
      client sends is the welcome turn followed by the user's turn. */
  lemma FirstExchangeIncludesWelcome(now: int, userMsg: ChatMessage)
    requires userMsg.role == User
    ensures GeminiService.RecentHistory([Welcome(now), userMsg]) ==
      [GeminiService.Turn("model", WelcomeText), GeminiService.Turn("user", userMsg.text)]
  {
  }
}
