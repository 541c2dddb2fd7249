/**
  The `POST /api/chat` handler of app/api/chat/route.ts. It validates the
  request body, turns the client's transcript into a Gemini chat history,
  decides whether that history is passed at all, glues the system prompt in
  front of the user's message and relays the model's answer. The Gemini call
  itself is outside the model: the handler reports what it would send
  (`GeminiRequest`) and takes the service's answer as a parameter.
 */
module Relay {
  import opened Wrappers
  import opened Strings

  /** One `{ role, content }` entry of the body's `messages` array. */
  datatype WireMessage = WireMessage(role: string, content: string)

  /** The request body: either `request.json()` throws on it, or it yields
      the three fields the handler reads, each possibly absent. */
  datatype Body =
    | Malformed(reason: string)
    | Parsed(messages: Option<seq<WireMessage>>, systemPrompt: Option<string>, userMessage: Option<string>)

  /** The two speakers of a Gemini chat history. */
  datatype GeminiRole = UserTurn | ModelTurn

  /** One `{ role, parts: [{ text }] }` entry of a Gemini chat history. */
  datatype Content = Content(role: GeminiRole, text: string)

  /** What the handler hands to the model: the history the chat is started
      with (empty when it starts a clean chat) and the message it sends. */
  datatype GeminiRequest = GeminiRequest(history: seq<Content>, prompt: string)

  /** What `chat.sendMessage` gives back: the generated text, or an error. */
  datatype GeminiReply = Replied(text: string) | GeminiFailed(message: string)

  /** The JSON the handler answers with. */
  datatype Payload =
    | Succeeded(message: string, timestamp: string)
    | Failed(error: string, details: Option<string>)

  datatype Response = Response(status: nat, payload: Payload)

  const MissingMessageError: string := "Mensaje del usuario es requerido"
  const MissingKeyError: string := "GEMINI_API_KEY no configurada"
  const InternalError: string := "Error interno del servidor"

  /** The TypeError `messages.filter` throws when the body has no `messages`. */
  const MissingMessagesDetails: string := "Cannot read properties of undefined (reading 'filter')"

  /** `!x` for a field that is a string or absent: absent and "" are falsy,
      every other string (white space included) is truthy. */
  predicate Falsy(x: Option<string>) {
    x.None? || x.value == []
  }

  /** `messages.filter(msg => msg.role !== 'system')`. */
  function NonSystem(msgs: seq<WireMessage>): (r: seq<WireMessage>)
    ensures |r| <= |msgs|
    ensures forall k :: 0 <= k < |r| ==> r[k] in msgs && r[k].role != "system"
    ensures forall m :: m in msgs && m.role != "system" ==> m in r
  {
    if msgs == [] then []
    else if msgs[0].role == "system" then NonSystem(msgs[1..])
    else [msgs[0]] + NonSystem(msgs[1..])
  }

  /** The filter works piecewise, so it keeps the transcript's order. */
  lemma {:induction false} NonSystemAppend(a: seq<WireMessage>, b: seq<WireMessage>)
    ensures NonSystem(a + b) == NonSystem(a) + NonSystem(b)
  {
    if a == [] {
      assert a + b == b;
    } else {
      assert (a + b)[0] == a[0];
      assert (a + b)[1..] == a[1..] + b;
      NonSystemAppend(a[1..], b);
    }
  }

  /** A transcript without system entries passes the filter whole. */
  lemma {:induction false} NonSystemKeepsAll(msgs: seq<WireMessage>)
    requires forall k :: 0 <= k < |msgs| ==> msgs[k].role != "system"
    ensures NonSystem(msgs) == msgs
  {
    if msgs != [] {
      NonSystemKeepsAll(msgs[1..]);
    }
  }

  /** A run of system entries disappears entirely. */
  lemma {:induction false} NonSystemDropsAll(msgs: seq<WireMessage>)
    requires forall k :: 0 <= k < |msgs| ==> msgs[k].role == "system"
    ensures NonSystem(msgs) == []
  {
    if msgs != [] {
      NonSystemDropsAll(msgs[1..]);
    }
  }

  /** One history entry: role "user" stays the user's turn, every other role
      becomes the model's; the text is the content unchanged. */
  function ToContent(m: WireMessage): (c: Content)
    ensures c.text == m.content
    ensures c.role == UserTurn <==> m.role == "user"
  {
    Content(if m.role == "user" then UserTurn else ModelTurn, m.content)
  }

  /** `history`: the non-system entries, in order, as Gemini contents. */
  function History(msgs: seq<WireMessage>): (h: seq<Content>)
    ensures |h| == |NonSystem(msgs)|
    ensures forall k :: 0 <= k < |h| ==> h[k] == ToContent(NonSystem(msgs)[k])
  {
    var valid := NonSystem(msgs);
    seq(|valid|, k requires 0 <= k < |valid| => ToContent(valid[k]))
  }

  /** The history is used only when it is non-empty and opens with a user turn. */
  predicate Accepted(h: seq<Content>) {
    |h| > 0 && h[0].role == UserTurn
  }

  /** The history the chat is actually started with. */
  function PassedHistory(msgs: seq<WireMessage>): (h: seq<Content>)
    ensures h == [] || h == History(msgs)
    ensures h != [] <==> Accepted(History(msgs))
  {
    var history := History(msgs);
    if Accepted(history) then history else []
  }

  /** The first entry that is not a system entry is a user entry. */
  predicate FirstNonSystemIsUser(msgs: seq<WireMessage>) {
    exists i :: 0 <= i < |msgs| && msgs[i].role == "user" &&
      forall j :: 0 <= j < i ==> msgs[j].role == "system"
  }

  /** The history is accepted exactly when the first entry that is not a
      system entry is a user entry. */
  lemma {:induction false} AcceptedIffFirstNonSystemIsUser(msgs: seq<WireMessage>)
    ensures Accepted(History(msgs)) <==> FirstNonSystemIsUser(msgs)
  {
    if msgs == [] {
    } else if msgs[0].role == "system" {
      AcceptedIffFirstNonSystemIsUser(msgs[1..]);
      assert NonSystem(msgs) == NonSystem(msgs[1..]);
      FirstNonSystemAfterSystem(msgs);
    } else {
      assert NonSystem(msgs)[0] == msgs[0];
      if msgs[0].role == "user" {
        assert 0 <= 0 < |msgs| && msgs[0].role == "user";
      }
    }
  }

  /** A leading system entry does not change which entry comes first
      among the others. */
  lemma {:induction false} FirstNonSystemAfterSystem(msgs: seq<WireMessage>)
    requires msgs != [] && msgs[0].role == "system"
    ensures FirstNonSystemIsUser(msgs) <==> FirstNonSystemIsUser(msgs[1..])
  {
    var tail := msgs[1..];
    if FirstNonSystemIsUser(msgs) {
      var i :| 0 <= i < |msgs| && msgs[i].role == "user" &&
         forall j :: 0 <= j < i ==> msgs[j].role == "system";
      assert i > 0 && tail[i - 1].role == "user";
      forall j | 0 <= j < i - 1 ensures tail[j].role == "system" {
        assert tail[j] == msgs[j + 1];
      }
    }
    if FirstNonSystemIsUser(tail) {
      var i :| 0 <= i < |tail| && tail[i].role == "user" &&
         forall j :: 0 <= j < i ==> tail[j].role == "system";
      assert msgs[i + 1].role == "user";
      forall j | 0 <= j < i + 1 ensures msgs[j].role == "system" {
        if j > 0 {
          assert msgs[j] == tail[j - 1];
        }
      }
    }
  }

  /** A transcript that opens (after any system entries) with an assistant
      turn reaches the model with no history at all. */
  lemma {:induction false} AssistantFirstDropsHistory(system: seq<WireMessage>, first: WireMessage, rest: seq<WireMessage>)
    requires forall k :: 0 <= k < |system| ==> system[k].role == "system"
    requires first.role != "user" && first.role != "system"
    ensures PassedHistory(system + [first] + rest) == []
  {
    NonSystemAppend(system + [first], rest);
    NonSystemAppend(system, [first]);
    NonSystemDropsAll(system);
    assert NonSystem([first]) == [first];
    assert NonSystem(system + [first] + rest)[0] == first;
  }

  /** `fullPrompt`: the system prompt, a blank line, then the user's message;
      just the message when the system prompt is absent or empty. */
  function FullPrompt(systemPrompt: Option<string>, userMessage: string): (r: string)
    ensures |r| >= |userMessage| && r[|r| - |userMessage|..] == userMessage
    ensures r == userMessage <==> Falsy(systemPrompt)
    ensures !Falsy(systemPrompt) ==> StartsWith(r, systemPrompt.value + "\n\n")
  {
    if !Falsy(systemPrompt) then systemPrompt.value + "\n\n" + userMessage else userMessage
  }

  /** The system prompt and the message can be read back from a full prompt
      built with a system prompt of known length. */
  lemma {:induction false} FullPromptSplits(systemPrompt: string, userMessage: string)
    requires systemPrompt != []
    ensures var r := FullPrompt(Some(systemPrompt), userMessage);
      r[..|systemPrompt|] == systemPrompt && r[|systemPrompt| + 2..] == userMessage
  {
    var r := FullPrompt(Some(systemPrompt), userMessage);
    assert r == systemPrompt + ("\n\n" + userMessage);
  }

  /** `POST(request)`: the validation order is body, user message, API key;
      a body without `messages` fails inside the history build; otherwise the
      model is called and its reply or error relayed. `now` is the server
      clock as an ISO string; `reply` is what the model would answer. */
  method Post(body: Body, apiKey: Option<string>, reply: GeminiReply, now: string)
    returns (resp: Response, sent: Option<GeminiRequest>)
    ensures resp.status == 200 || resp.status == 400 || resp.status == 500
    ensures resp.status == 400 <==> body.Parsed? && Falsy(body.userMessage)
    ensures resp.status == 400 ==> resp.payload == Failed(MissingMessageError, None)
    ensures resp.payload == Failed(MissingKeyError, None) <==>
              body.Parsed? && !Falsy(body.userMessage) && Falsy(apiKey)
    ensures sent.Some? <==>
              body.Parsed? && !Falsy(body.userMessage) && !Falsy(apiKey) && body.messages.Some?
    ensures sent.Some? ==>
              sent.value == GeminiRequest(PassedHistory(body.messages.value),
                                          FullPrompt(body.systemPrompt, body.userMessage.value))
    ensures resp.status == 200 <==> sent.Some? && reply.Replied?
    ensures resp.payload.Succeeded? <==> resp.status == 200
    ensures resp.status == 200 ==> resp.payload == Succeeded(reply.text, now)
    ensures body.Malformed? ==> resp == Response(500, Failed(InternalError, Some(body.reason)))
    ensures body.Parsed? && !Falsy(body.userMessage) && !Falsy(apiKey) && body.messages.None? ==>
              resp == Response(500, Failed(InternalError, Some(MissingMessagesDetails)))
    ensures sent.Some? && reply.GeminiFailed? ==>
              resp == Response(500, Failed(InternalError, Some(reply.message)))
  {
    sent := None;
    if body.Malformed? {
      resp := Response(500, Failed(InternalError, Some(body.reason)));
      return;
    }
    if Falsy(body.userMessage) {
      resp := Response(400, Failed(MissingMessageError, None));
      return;
    }
    if Falsy(apiKey) {
      resp := Response(500, Failed(MissingKeyError, None));
      return;
    }
    if body.messages.None? {
      resp := Response(500, Failed(InternalError, Some(MissingMessagesDetails)));
      return;
    }
    var history := History(body.messages.value);
    var passed := if history == [] || history[0].role != UserTurn then [] else history;
    var fullPrompt := FullPrompt(body.systemPrompt, body.userMessage.value);
    sent := Some(GeminiRequest(passed, fullPrompt));
    match reply
    case Replied(text) =>
      resp := Response(200, Succeeded(text, now));
    case GeminiFailed(message) =>
      resp := Response(500, Failed(InternalError, Some(message)));
  }
}
