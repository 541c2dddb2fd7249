/**
  What the three chat pages share: the transcript entry, the JSON body they
  POST to `/api/chat`, the outcome of that `fetch`, and the row each page asks
  the database to store in `interacciones_usuario`.
 */
module Chat {
  import opened Wrappers
  import opened Strings
  import Relay
  import TextUtils
  import ConversationalPrompts

  /** The `role` of a transcript entry. */
  datatype Role = User | Assistant | System

  /** A transcript entry; the id and timestamp the pages attach are left out. */
  datatype Message = Message(role: Role, content: string)

  /** The role as the string the pages put on the wire. */
  function RoleName(r: Role): (s: string)
    ensures s == "user" <==> r == User
    ensures s == "system" <==> r == System
  {
    match r
    case User => "user"
    case Assistant => "assistant"
    case System => "system"
  }

  /** Reading a role name back. */
  function ParseRole(s: string): (r: Option<Role>)
    ensures r.Some? ==> RoleName(r.value) == s
  {
    if s == "user" then Some(User)
    else if s == "assistant" then Some(Assistant)
    else if s == "system" then Some(System)
    else None
  }

  /** `{ role: msg.role, content: msg.content }`. */
  function ToWire(m: Message): (w: Relay.WireMessage)
    ensures w.content == m.content && ParseRole(w.role) == Some(m.role)
  {
    Relay.WireMessage(RoleName(m.role), m.content)
  }

  /** A transcript as the `messages` array of a request. */
  function WireHistory(msgs: seq<Message>): (w: seq<Relay.WireMessage>)
    ensures |w| == |msgs|
    ensures forall k :: 0 <= k < |msgs| ==> w[k] == ToWire(msgs[k])
  {
    seq(|msgs|, k requires 0 <= k < |msgs| => ToWire(msgs[k]))
  }

  /** The transcript can be read back from the wire: no entry is lost,
      reordered or changed on the way. */
  lemma {:induction false} WireHistoryInjective(a: seq<Message>, b: seq<Message>)
    requires WireHistory(a) == WireHistory(b)
    ensures a == b
  {
    assert |a| == |b|;
    forall k | 0 <= k < |a| ensures a[k] == b[k] {
      assert ToWire(a[k]) == WireHistory(a)[k] == WireHistory(b)[k] == ToWire(b[k]);
      assert ParseRole(ToWire(a[k]).role) == Some(a[k].role);
      assert ParseRole(ToWire(b[k]).role) == Some(b[k].role);
    }
  }

  /** Mapping a transcript onto the wire works piecewise. */
  lemma {:induction false} WireHistoryAppend(a: seq<Message>, b: seq<Message>)
    ensures WireHistory(a + b) == WireHistory(a) + WireHistory(b)
  {
    assert |WireHistory(a + b)| == |WireHistory(a) + WireHistory(b)|;
    forall k | 0 <= k < |a + b|
      ensures WireHistory(a + b)[k] == (WireHistory(a) + WireHistory(b))[k]
    {
      if k < |a| {
        assert (a + b)[k] == a[k];
      } else {
        assert (a + b)[k] == b[k - |a|];
      }
    }
  }

  /** `messages.filter(m => m.role === 'user').length`. */
  function UserTurns(msgs: seq<Message>): (n: nat)
    ensures n <= |msgs|
  {
    if msgs == [] then 0
    else (if msgs[0].role == User then 1 else 0) + UserTurns(msgs[1..])
  }

  /** Counting user turns works piecewise. */
  lemma {:induction false} UserTurnsAppend(a: seq<Message>, b: seq<Message>)
    ensures UserTurns(a + b) == UserTurns(a) + UserTurns(b)
  {
    if a == [] {
      assert a + b == b;
    } else {
      assert (a + b)[0] == a[0];
      assert (a + b)[1..] == a[1..] + b;
      UserTurnsAppend(a[1..], b);
    }
  }

  /** A transcript without user entries has no user turn. */
  lemma {:induction false} NoUserTurns(msgs: seq<Message>)
    requires forall k :: 0 <= k < |msgs| ==> msgs[k].role != User
    ensures UserTurns(msgs) == 0
  {
    if msgs != [] {
      NoUserTurns(msgs[1..]);
    }
  }

  /** The user turns are the entries whose role is `User`: appending one entry
      adds one to the count exactly when it is the user's. */
  lemma {:induction false} UserTurnsSnoc(a: seq<Message>, m: Message)
    ensures UserTurns(a + [m]) == UserTurns(a) + (if m.role == User then 1 else 0)
  {
    UserTurnsAppend(a, [m]);
    assert [m][1..] == [];
  }

  /** The JSON body a page sends: `{ messages, systemPrompt, userMessage }`. */
  datatype ChatRequest = ChatRequest(messages: seq<Relay.WireMessage>, systemPrompt: string, userMessage: string)

  /** A request as a page prepares it: the transcript it sends, what its
      system prompt is built from (`P`: the phase, or the message count of
      the context line) and the user's message. Each page renders it into the
      JSON body with its own prompt builder. */
  datatype Outbound<P> = Outbound(transcript: seq<Message>, promptArgs: P, userMessage: string)

  /** The body as the relay parses it: every field present. */
  function AsBody(req: ChatRequest): (b: Relay.Body)
    ensures b.Parsed? && b.messages == Some(req.messages)
    ensures b.systemPrompt == Some(req.systemPrompt) && b.userMessage == Some(req.userMessage)
  {
    Relay.Parsed(Some(req.messages), Some(req.systemPrompt), Some(req.userMessage))
  }

  /** What `fetch('/api/chat')` and `response.json()` yield: an exception
      with its message, or the relay's response. */
  datatype FetchOutcome = Threw(message: string) | Delivered(response: Relay.Response)

  /** `response.ok`. */
  predicate Ok(resp: Relay.Response) {
    200 <= resp.status <= 299
  }

  /** `data.success`: the relay answered with generated text. */
  predicate Answered(outcome: FetchOutcome) {
    outcome.Delivered? && outcome.response.payload.Succeeded?
  }

  /** `data.message` of an answered request. */
  function ReplyText(outcome: FetchOutcome): (t: string)
    requires Answered(outcome)
  {
    outcome.response.payload.message
  }

  /** A row of `interacciones_usuario`. */
  datatype InteractionRecord = InteractionRecord(
    userId: string,
    userMessage: string,
    reply: string,
    phase: int,
    number: nat,
    sessionId: int,
    durationMs: int)

  /** The context line the phase-less pages add to the conversational prompt,
      around the number of messages the request carries. */
  const ContextHead: string := "\n\nCONTEXTO ACTUAL: Esta conversación ya tiene "
  const ContextTail: string :=
    " mensajes. Lee todo el historial y responde SOLO a lo que el usuario acaba de decir, sin repetir información ya establecida."

  /** The context line of a request carrying `count` messages. */
  function ContextLine(count: nat): (r: string)
    ensures |r| > |ContextHead| + |ContextTail|
    ensures r[..|ContextHead|] == ContextHead && r[|r| - |ContextTail|..] == ContextTail
  {
    ContextHead + NatToString(count) + ContextTail
  }

  /** The context line states the count: the number between its fixed parts
      reads back as `count`. */
  lemma {:induction false} ContextLineStatesCount(count: nat)
    ensures var line := ContextLine(count);
      |line| > |ContextHead| + |ContextTail|
      && line[..|ContextHead|] == ContextHead
      && line[|line| - |ContextTail|..] == ContextTail
      && var digits := line[|ContextHead|..|line| - |ContextTail|];
         (forall k :: 0 <= k < |digits| ==> '0' <= digits[k] <= '9') && DigitsValue(digits) == count
  {
    var line := ContextLine(count);
    var digits := NatToString(count);
    assert line == ContextHead + digits + ContextTail;
    assert line[|ContextHead|..|line| - |ContextTail|] == digits;
    NatToStringRoundTrip(count);
  }

  /** The system prompt of the two free-conversation pages: the
      conversational template for the default profile, followed by the
      context line when a message count is given (sends) and alone when it is
      not (the opening). */
  function ConversationPrompt(count: Option<nat>): (r: string)
    ensures var base := ConversationalPrompts.GetConversationalPrompt(ConversationalPrompts.DefaultUserName,
                                                                      ConversationalPrompts.DefaultUserCargo);
      && |base| <= |r| && r[..|base|] == base
      && (count.None? <==> |r| == |base|)
      && (count.Some? ==> r[|base|..] == ContextLine(count.value))
  {
    ConversationalPrompts.GetConversationalPrompt(ConversationalPrompts.DefaultUserName,
                                                  ConversationalPrompts.DefaultUserCargo)
    + (if count.Some? then ContextLine(count.value) else "")
  }

  /** The JSON body of a request of the free-conversation pages. */
  function RenderConversation(o: Outbound<Option<nat>>): (r: ChatRequest)
    ensures r.messages == WireHistory(o.transcript) && r.userMessage == o.userMessage
    ensures var base := ConversationalPrompts.GetConversationalPrompt(ConversationalPrompts.DefaultUserName,
                                                                      ConversationalPrompts.DefaultUserCargo);
      |base| <= |r.systemPrompt| && r.systemPrompt[..|base|] == base
      && (o.promptArgs.Some? ==> r.systemPrompt[|base|..] == ContextLine(o.promptArgs.value))
  {
    ChatRequest(WireHistory(o.transcript), ConversationPrompt(o.promptArgs), o.userMessage)
  }

  /** What a send of the free-conversation pages appends after the user's
      entry: the sanitised reply when the relay answered, nothing otherwise. */
  function ReplyEntries(outcome: FetchOutcome): (es: seq<Message>)
    ensures |es| == 1 <==> Answered(outcome)
    ensures |es| <= 1
    ensures Answered(outcome) ==> es == [Message(Assistant, TextUtils.FormatChatText(ReplyText(outcome)))]
  {
    if Answered(outcome) then [Message(Assistant, TextUtils.FormatChatText(ReplyText(outcome)))] else []
  }

  /** The appended reply is the relay's text sanitised: on one line, with no
      white space at either end, and never longer than the raw text. */
  lemma {:induction false} ReplyEntriesAreSanitised(outcome: FetchOutcome)
    requires Answered(outcome)
    ensures var r := ReplyEntries(outcome)[0].content;
      && |r| <= |ReplyText(outcome)|
      && (r == [] || (!IsSpace(r[0]) && !IsSpace(r[|r| - 1])))
      && NoLineTerminator(r)
  {
    TextUtils.FormatChatTextShape(ReplyText(outcome));
  }

  /** A request whose transcript opens with an assistant entry reaches the
      model with no history. */
  lemma {:induction false} AssistantFirstSendsNoHistory(transcript: seq<Message>)
    requires transcript != [] && transcript[0].role == Assistant
    ensures Relay.PassedHistory(WireHistory(transcript)) == []
  {
    assert transcript == [] + [transcript[0]] + transcript[1..];
    GreetingFirstSendsNoHistory([], transcript[0], transcript[1..]);
  }

  /** Once a transcript opens with the assistant's greeting, whatever follows,
      the relay starts every chat from it with an empty history. */
  lemma {:induction false} GreetingFirstSendsNoHistory(system: seq<Message>, greeting: Message, rest: seq<Message>)
    requires forall k :: 0 <= k < |system| ==> system[k].role == System
    requires greeting.role == Assistant
    ensures Relay.PassedHistory(WireHistory(system + [greeting] + rest)) == []
  {
    WireHistoryAppend(system + [greeting], rest);
    WireHistoryAppend(system, [greeting]);
    assert WireHistory([greeting]) == [ToWire(greeting)];
    Relay.AssistantFirstDropsHistory(WireHistory(system), ToWire(greeting), WireHistory(rest));
  }

  /** On the free-conversation pages, every request a send makes after a
      greeting (or an apology) reaches the model with no history: the
      transcript it carries opens with that assistant entry. */
  lemma {:induction false} SendAfterOpeningHasNoHistory(opening: Message, later: seq<Message>, user: Message, count: nat)
    requires opening.role == Assistant
    ensures Relay.PassedHistory(RenderConversation(Outbound([opening] + later + [user], Some(count), user.content)).messages) == []
  {
    var t := [opening] + later + [user];
    assert t[0] == opening;
    AssistantFirstSendsNoHistory(t);
  }

  /** Without an opening entry the first send's transcript is the user's
      entry alone, and it is passed to the model as a one-turn history. */
  lemma {:induction false} LoneUserTurnIsPassed(user: Message, count: nat)
    requires user.role == User
    ensures Relay.PassedHistory(RenderConversation(Outbound([user], Some(count), user.content)).messages)
            == [Relay.Content(Relay.UserTurn, user.content)]
  {
    var w := WireHistory([user]);
    assert w == [ToWire(user)];
    assert Relay.NonSystem(w) == w by { Relay.NonSystemKeepsAll(w); }
  }
}
