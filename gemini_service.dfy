/** The language-model client (services/geminiService.ts): shapes the
    outbound request from the conversation and turns the raw response, or
    the failure that replaces it, into reply text plus citation links. The
    hosted service is not modelled; its response is an input, and `None`
    stands for any exception the call raises. */
module GeminiService {
  import opened Types

  /** The hosted model every request names. */
  const ModelName := "gemini-2.5-flash"
  /** The language the system instruction asks for when the caller names none. */
  const DefaultLanguage := "English"
  /** How many of the most recent messages are forwarded as history. */
  const HistoryWindow := 10
  /** The reply text when the model returns no text. */
  const EmptyReplyText := "I'm sorry, I couldn't generate a response."
  /** The reply text when the call fails. */
  const ConnectionErrorText := "Sorry, I'm having trouble connecting to the travel guide service right now. Please try again later."
  /** Title of a map citation that carries none. */
  const MapsDefaultTitle := "View on Google Maps"
  /** Title of a web citation that carries none. */
  const WebDefaultTitle := "Source"

  // ---------------------------------------------------------------------
  // Request side
  // ---------------------------------------------------------------------

  /** The arguments of `sendMessageToGemini`. */
  datatype ClientCall = ClientCall(history: seq<ChatMessage>, newMessage: string, language: string)

  /** One role-tagged turn of the outbound history; `role` is "user" or "model". */
  datatype Turn = Turn(role: string, text: string)

  /** What the client hands to the hosted chat: the model, the language its
      system instruction names, whether maps grounding is on, the trimmed
      history and the new message. */
  datatype ChatRequest = ChatRequest(
    model: string,
    instructionLanguage: string,
    mapsGrounding: bool,
    history: seq<Turn>,
    message: string)

  function Min(a: int, b: int): int
  {
    if a <= b then a else b
  }

  /** The wire form of one message. */
  function ToTurn(m: ChatMessage): Turn
  {
    Turn(if m.role == User then "user" else "model", m.text)
  }

  /** `history.slice(-10).map(...)`: the last ten messages (all of them when
      there are fewer), in their original order, each keeping its text and
      tagged "user" exactly when it is a user message. */
  function RecentHistory(history: seq<ChatMessage>): (turns: seq<Turn>)
    ensures |turns| == Min(HistoryWindow, |history|)
    ensures forall i :: 0 <= i < |turns| ==>
      var m := history[|history| - |turns| + i];
      turns[i].text == m.text
      && (turns[i].role == "user" <==> m.role == User)
      && (turns[i].role == "model" <==> m.role == Model)
  {
    var recent := if |history| <= HistoryWindow then history else history[|history| - HistoryWindow..];
    seq(|recent|, i requires 0 <= i < |recent| => ToTurn(recent[i]))
  }

  /** The window slides: one more message adds its turn at the end and, once
      the window is full, drops the oldest turn. */
  lemma RecentHistorySlides(history: seq<ChatMessage>, m: ChatMessage)
    ensures RecentHistory(history + [m]) ==
      (if |history| < HistoryWindow then RecentHistory(history) else RecentHistory(history)[1..]) + [ToTurn(m)]
  {
    var h := history + [m];
    var before, after := RecentHistory(history), RecentHistory(h);
    var expected := (if |history| < HistoryWindow then before else before[1..]) + [ToTurn(m)];
    assert |after| == |expected|;
    forall i | 0 <= i < |after| ensures after[i] == expected[i] {
      if i == |after| - 1 {
        assert h[|h| - 1] == m;
      } else if |history| < HistoryWindow {
        assert h[i] == history[i];
      } else {
        assert h[|h| - |after| + i] == history[|history| - |before| + i + 1];
      }
    }
  }

  // ---------------------------------------------------------------------
  // Response side
  // ---------------------------------------------------------------------

  /** The `maps` or `web` part of a grounding chunk. */
  datatype Source = Source(uri: Option<string>, title: Option<string>)

  /** One grounding chunk of the response metadata. */
  datatype GroundingChunk = GroundingChunk(maps: Option<Source>, web: Option<Source>)

  datatype GroundingMetadata = GroundingMetadata(groundingChunks: Option<seq<GroundingChunk>>)

  datatype Candidate = Candidate(groundingMetadata: Option<GroundingMetadata>)

  /** The part of the hosted service's response the client reads. */
  datatype RawResponse = RawResponse(text: Option<string>, candidates: Option<seq<Candidate>>)

  /** What the client returns: reply text and citation links. */
  datatype Reply = Reply(text: string, groundingLinks: seq<GroundingLink>)

  /** A string the `||` and `?.` tests of the client accept: present and non-empty. */
  predicate Truthy(s: Option<string>)
  {
    s.Some? && s.value != ""
  }

  /** `s || fallback`. */
  function OrDefault(s: Option<string>, fallback: string): (r: string)
    ensures Truthy(s) ==> r == s.value
    ensures !Truthy(s) ==> r == fallback
  {
    if Truthy(s) then s.value else fallback
  }

  /** `chunk.maps?.uri` is truthy. */
  predicate HasMapsUri(c: GroundingChunk)
  {
    c.maps.Some? && Truthy(c.maps.value.uri)
  }

  /** `chunk.web?.uri` is truthy. */
  predicate HasWebUri(c: GroundingChunk)
  {
    c.web.Some? && Truthy(c.web.value.uri)
  }

  /** The link a chunk yields, if any. A chunk with a maps uri yields a maps
      link, even when it also has a web uri; a chunk with only a web uri
      yields a web link; a chunk with neither yields nothing. Missing titles
      become the default title of the link's kind. */
  function LinkOf(c: GroundingChunk): (r: Option<GroundingLink>)
    ensures r.Some? <==> HasMapsUri(c) || HasWebUri(c)
    ensures HasMapsUri(c) ==>
      r.value.sourceType == Maps && r.value.uri == c.maps.value.uri.value
      && (Truthy(c.maps.value.title) ==> r.value.title == c.maps.value.title.value)
      && (!Truthy(c.maps.value.title) ==> r.value.title == MapsDefaultTitle)
    ensures !HasMapsUri(c) && HasWebUri(c) ==>
      r.value.sourceType == Web && r.value.uri == c.web.value.uri.value
      && (Truthy(c.web.value.title) ==> r.value.title == c.web.value.title.value)
      && (!Truthy(c.web.value.title) ==> r.value.title == WebDefaultTitle)
    ensures r.Some? ==> r.value.uri != "" && r.value.title != ""
  {
    if HasMapsUri(c) then
      Some(GroundingLink(OrDefault(c.maps.value.title, MapsDefaultTitle), c.maps.value.uri.value, Maps))
    else if HasWebUri(c) then
      Some(GroundingLink(OrDefault(c.web.value.title, WebDefaultTitle), c.web.value.uri.value, Web))
    else
      None
  }

  /** The links of a chunk list, in chunk order: each chunk contributes its
      link or nothing. */
  function LinksOf(chunks: seq<GroundingChunk>): (links: seq<GroundingLink>)
    ensures |links| <= |chunks|
    ensures forall i :: 0 <= i < |links| ==> links[i].uri != "" && links[i].title != ""
  {
    if chunks == [] then []
    else
      var rest := LinksOf(chunks[1..]);
      match LinkOf(chunks[0])
      case Some(l) => [l] + rest
      case None => rest
  }

  /** Link extraction distributes over concatenation: links keep chunk order
      and nothing is merged or deduplicated across chunks. */
  lemma {:induction false} LinksOfAppend(a: seq<GroundingChunk>, b: seq<GroundingChunk>)
    ensures LinksOf(a + b) == LinksOf(a) + LinksOf(b)
  {
    if a == [] {
      assert a + b == b;
    } else {
      assert (a + b)[0] == a[0] && (a + b)[1..] == a[1..] + b;
      LinksOfAppend(a[1..], b);
    }
  }

  /** The chunks in positions before `i` that yield a link. */
  lemma {:induction false} LinksOfSplit(chunks: seq<GroundingChunk>, i: nat)
    requires i < |chunks|
    ensures LinksOf(chunks) == LinksOf(chunks[..i])
      + (if LinkOf(chunks[i]).Some? then [LinkOf(chunks[i]).value] else [])
      + LinksOf(chunks[i + 1..])
  {
    assert chunks == chunks[..i] + ([chunks[i]] + chunks[i + 1..]);
    LinksOfAppend(chunks[..i], [chunks[i]] + chunks[i + 1..]);
    assert ([chunks[i]] + chunks[i + 1..])[1..] == chunks[i + 1..];
  }

  /** Every chunk that yields a link has that link among the results. */
  lemma LinksOfKeepsCited(chunks: seq<GroundingChunk>, i: nat)
    requires i < |chunks| && LinkOf(chunks[i]).Some?
    ensures LinkOf(chunks[i]).value in LinksOf(chunks)
  {
    var l := LinkOf(chunks[i]).value;
    LinksOfSplit(chunks, i);
    var pre := LinksOf(chunks[..i]);
    assert LinksOf(chunks)[|pre|] == l;
  }

  /** The link list is empty exactly when no chunk yields a link. */
  lemma LinksOfEmptyIff(chunks: seq<GroundingChunk>)
    ensures LinksOf(chunks) == [] <==> forall i :: 0 <= i < |chunks| ==> LinkOf(chunks[i]).None?
  {
    if forall i :: 0 <= i < |chunks| ==> LinkOf(chunks[i]).None? {
      NoLinkNoLinks(chunks);
    } else {
      var i :| 0 <= i < |chunks| && LinkOf(chunks[i]).Some?;
      LinksOfKeepsCited(chunks, i);
    }
  }

  /** Chunks that yield nothing produce no links. */
  lemma {:induction false} NoLinkNoLinks(chunks: seq<GroundingChunk>)
    requires forall i :: 0 <= i < |chunks| ==> LinkOf(chunks[i]).None?
    ensures LinksOf(chunks) == []
  {
    if chunks != [] {
      NoLinkNoLinks(chunks[1..]);
    }
  }

  /** `response.candidates?.[0]?.groundingMetadata?.groundingChunks`. */
  function ChunksOf(r: RawResponse): (chunks: Option<seq<GroundingChunk>>)
    ensures chunks.Some? <==>
      r.candidates.Some? && |r.candidates.value| > 0
      && r.candidates.value[0].groundingMetadata.Some?
      && r.candidates.value[0].groundingMetadata.value.groundingChunks.Some?
    ensures chunks.Some? ==> chunks == r.candidates.value[0].groundingMetadata.value.groundingChunks
  {
    match r.candidates
    case None => None
    case Some(cs) =>
      if |cs| == 0 then None
      else match cs[0].groundingMetadata
        case None => None
        case Some(md) => md.groundingChunks
  }

  /** What the client returns for a response, or for a failed call (`None`):
      a failure becomes the fixed apology with no links; otherwise the reply
      carries the response text (the fixed fallback when it is empty) and
      the links of the first candidate's grounding chunks. */
  function ReplyOf(response: Option<RawResponse>): (reply: Reply)
    ensures reply.text != ""
    ensures response.None? ==> reply == Reply(ConnectionErrorText, [])
    ensures response.Some? ==>
      (Truthy(response.value.text) ==> reply.text == response.value.text.value)
      && (!Truthy(response.value.text) ==> reply.text == EmptyReplyText)
    ensures response.Some? && ChunksOf(response.value).None? ==> reply.groundingLinks == []
    ensures response.Some? && ChunksOf(response.value).Some? ==>
      reply.groundingLinks == LinksOf(ChunksOf(response.value).value)
  {
    match response
    case None => Reply(ConnectionErrorText, [])
    case Some(r) =>
      Reply(OrDefault(r.text, EmptyReplyText),
            match ChunksOf(r) case None => [] case Some(cs) => LinksOf(cs))
  }

  /** `sendMessageToGemini`: builds the request, then reads `response`, the
      outcome of the hosted call (`None` when it throws), scanning the
      grounding chunks one by one into the link list as the client's loop
      does. The client never fails. */
  method SendMessageToGemini(call: ClientCall, response: Option<RawResponse>)
    returns (request: ChatRequest, reply: Reply)
    ensures request.model == ModelName && request.mapsGrounding
    ensures request.instructionLanguage == call.language
    ensures request.history == RecentHistory(call.history)
    ensures request.message == call.newMessage
    ensures reply == ReplyOf(response)
  {
    request := ChatRequest(ModelName, call.language, true, RecentHistory(call.history), call.newMessage);
    if response.None? {
      reply := Reply(ConnectionErrorText, []);
      return;
    }
    var r := response.value;
    var text := OrDefault(r.text, EmptyReplyText);
    var groundingLinks: seq<GroundingLink> := [];
    var chunks := ChunksOf(r);
    if chunks.Some? {
      var cs := chunks.value;
      var i := 0;
      while i < |cs|
        invariant 0 <= i <= |cs|
        invariant groundingLinks == LinksOf(cs[..i])
      {
        var chunk := cs[i];
        if HasMapsUri(chunk) {
          groundingLinks := groundingLinks + [GroundingLink(OrDefault(chunk.maps.value.title, MapsDefaultTitle), chunk.maps.value.uri.value, Maps)];
        } else if HasWebUri(chunk) {
          groundingLinks := groundingLinks + [GroundingLink(OrDefault(chunk.web.value.title, WebDefaultTitle), chunk.web.value.uri.value, Web)];
        }
        assert cs[..i + 1] == cs[..i] + [chunk];
        LinksOfAppend(cs[..i], [chunk]);
        i := i + 1;
      }
      assert cs[..i] == cs;
    }
    reply := Reply(text, groundingLinks);
  }

  /** A worked example: a maps chunk without a title, a
      titled web chunk and a chunk of neither kind give a default-titled maps
      link followed by the web link; the third chunk is dropped. */
  lemma CitationExample()
    ensures LinksOf([
      GroundingChunk(Some(Source(Some("u1"), None)), None),
      GroundingChunk(None, Some(Source(Some("u2"), Some("T")))),
      GroundingChunk(None, None)]) ==
      [GroundingLink(MapsDefaultTitle, "u1", Maps), GroundingLink("T", "u2", Web)]
  {
  }
}
