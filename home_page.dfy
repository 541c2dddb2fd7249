/**
  The free-conversation simulator of app/page.tsx: a session controller with
  no phases. It starts once the page runs on the client, greets the user with
  the conversational prompt, and on each send posts the whole transcript with
  the prompt plus a context line, appending the sanitised reply.
 */
module HomePage {
  import opened Wrappers
  import opened Strings
  import opened Chat
  import Relay
  import TextUtils

  const TestUserId: string := "test-user"
  const OpeningUserMessage: string := "Iniciar conversación"

  /** The assistant entry shown when the opening request fails. */
  const Apology: string :=
    "Lo siento, parece que hay un problema técnico. Por favor, revisa tu conexión e intenta de nuevo."

  /** `!sessionId`: no id, or the id 0. */
  predicate HasSession(id: Option<int>) {
    id.Some? && id.value != 0
  }

  /** The opening request: no history and the bare conversational prompt. */
  function OpeningRequest(): Outbound<Option<nat>> {
    Outbound([], None, OpeningUserMessage)
  }

  /** The transcript the opening leaves: the sanitised greeting when the
      relay answered, the apology when the request threw or was not `ok`,
      and the old transcript when the relay answered `ok` without success. */
  function OpeningTranscript(before: seq<Message>, outcome: FetchOutcome): (t: seq<Message>)
    ensures t == before || |t| == 1
    ensures outcome.Threw? || !Ok(outcome.response) ==> t == [Message(Assistant, Apology)]
    ensures outcome.Delivered? && Ok(outcome.response) && outcome.response.payload.Succeeded? ==>
      t == [Message(Assistant, TextUtils.FormatChatText(outcome.response.payload.message))]
    ensures outcome.Delivered? && Ok(outcome.response) && !outcome.response.payload.Succeeded? ==> t == before
  {
    match outcome
    case Threw(_) => [Message(Assistant, Apology)]
    case Delivered(resp) =>
      if !Ok(resp) then [Message(Assistant, Apology)]
      else if resp.payload.Succeeded? then [Message(Assistant, TextUtils.FormatChatText(resp.payload.message))]
      else before
  }

  /** Unless the relay answered `ok` without success, the opening leaves a
      single assistant entry, so every later request of the session reaches
      the model with no history. */
  lemma {:induction false} OpeningSilencesHistory(before: seq<Message>, outcome: FetchOutcome, later: seq<Message>)
    requires !(outcome.Delivered? && Ok(outcome.response) && !outcome.response.payload.Succeeded?)
    ensures |OpeningTranscript(before, outcome)| == 1
    ensures OpeningTranscript(before, outcome)[0].role == Assistant
    ensures Relay.PassedHistory(WireHistory(OpeningTranscript(before, outcome) + later)) == []
  {
    var t := OpeningTranscript(before, outcome) + later;
    assert t[0] == OpeningTranscript(before, outcome)[0];
    AssistantFirstSendsNoHistory(t);
  }

  /** The row the opening asks the database to store, when the relay answered. */
  function OpeningRecord(sid: int, outcome: FetchOutcome): (r: Option<InteractionRecord>)
    ensures r.Some? <==> outcome.Delivered? && Ok(outcome.response) && outcome.response.payload.Succeeded?
    ensures r.Some? ==> r.value.phase == 1 && r.value.number == 1 && r.value.durationMs == 0
    ensures r.Some? ==>
      r.value.reply == outcome.response.payload.message && r.value.userMessage == OpeningUserMessage
      && r.value.sessionId == sid
  {
    match outcome
    case Threw(_) => None
    case Delivered(resp) =>
      if Ok(resp) && resp.payload.Succeeded? then
        Some(InteractionRecord(TestUserId, OpeningUserMessage, resp.payload.message, 1, 1, sid, 0))
      else None
  }

  /** The row a send asks the database to store: only for an answered
      request, with the raw (unsanitised) reply, phase 1, the length of the
      transcript sent as its number and no duration. */
  function SendRecord(content: string, number: nat, sid: int, outcome: FetchOutcome): (r: Option<InteractionRecord>)
    ensures r.Some? <==> Answered(outcome)
    ensures r.Some? ==>
      r.value.userMessage == content && r.value.reply == ReplyText(outcome)
      && r.value.phase == 1 && r.value.number == number && r.value.sessionId == sid && r.value.durationMs == 0
  {
    if Answered(outcome) then Some(InteractionRecord(TestUserId, content, ReplyText(outcome), 1, number, sid, 0))
    else None
  }

  class Session {
    var messages: seq<Message>
    var userInput: string
    var isLoading: bool
    var sessionId: Option<int>
    var sessionStarted: bool
    var isClient: bool

    /** The first render, on the server or before hydration. */
    constructor ()
      ensures messages == [] && userInput == "" && !isLoading
      ensures sessionId == None && !sessionStarted && !isClient
    {
      messages := [];
      userInput := "";
      isLoading := false;
      sessionId := None;
      sessionStarted := false;
      isClient := false;
    }

    /** The hydration effect: the page now runs on the client. */
    method Hydrate()
      modifies this`isClient
      ensures isClient
    {
      isClient := true;
    }

    /** Typing in the text box. */
    method SetInput(text: string)
      modifies this`userInput
      ensures userInput == text
    {
      userInput := text;
    }

    /** The start effect: on the client and not yet started, start a session
        (`initializeSession`) and mark it started. `tempId` stands for
        `Date.now()`, `dbId` for the id of the row the database created. */
    method Start(tempId: int, dbId: Option<int>, outcome: FetchOutcome)
      returns (request: Option<Outbound<Option<nat>>>, record: Option<InteractionRecord>)
      modifies this
      ensures request.Some? <==> old(isClient) && !old(sessionStarted)
      ensures request.None? ==>
        messages == old(messages) && sessionId == old(sessionId)
        && sessionStarted == old(sessionStarted) && record.None?
      ensures request.Some? ==>
        request.value == OpeningRequest()
        && messages == OpeningTranscript(old(messages), outcome)
        && sessionId == Some(if dbId.Some? then dbId.value else tempId)
        && sessionStarted
        && record == OpeningRecord(tempId, outcome)
      ensures userInput == old(userInput) && isLoading == old(isLoading) && isClient == old(isClient)
    {
      request, record := None, None;
      if isClient && !sessionStarted {
        var opening;
        opening, record := InitializeSession(tempId, dbId, outcome);
        request := Some(opening);
        sessionStarted := true;
      }
    }

    /** `initializeSession`: the temporary id, then the database's id when it
        created a row, then the opening request. Its `if (!isClient) return`
        is the `requires`: the only caller, the start effect, runs it on the
        client alone. */
    method InitializeSession(tempId: int, dbId: Option<int>, outcome: FetchOutcome)
      returns (request: Outbound<Option<nat>>, record: Option<InteractionRecord>)
      requires isClient
      modifies this`sessionId, this`messages
      ensures sessionId == Some(if dbId.Some? then dbId.value else tempId)
      ensures request == OpeningRequest()
      ensures messages == OpeningTranscript(old(messages), outcome)
      ensures record == OpeningRecord(tempId, outcome)
    {
      sessionId := Some(tempId);
      if dbId.Some? {
        sessionId := Some(dbId.value);
      }
      request, record := SendInitialMessage(tempId, outcome);
    }

    /** `sendInitialMessage(sessionId)`: the greeting replaces the transcript;
        a thrown error or a response that is not `ok` puts the apology in its
        place; an `ok` response without success changes nothing. Its
        `if (!isClient) return` is the `requires`: it is reached only from
        `InitializeSession`, on the client. */
    method SendInitialMessage(sid: int, outcome: FetchOutcome)
      returns (request: Outbound<Option<nat>>, record: Option<InteractionRecord>)
      requires isClient
      modifies this`messages
      ensures request == OpeningRequest()
      ensures messages == OpeningTranscript(old(messages), outcome)
      ensures record == OpeningRecord(sid, outcome)
    {
      request := Outbound([], None, OpeningUserMessage);
      record := None;
      match outcome {
        case Threw(_) =>
          messages := [Message(Assistant, Apology)];
        case Delivered(resp) =>
          if !Ok(resp) {
            messages := [Message(Assistant, Apology)];
          } else if resp.payload.Succeeded? {
            messages := [Message(Assistant, TextUtils.FormatChatText(resp.payload.message))];
            record := Some(InteractionRecord(TestUserId, OpeningUserMessage, resp.payload.message,
                                             1, 1, sid, 0));
          }
      }
    }

    /** `sendMessage`. Off the client, without text, while a request is in
        flight or without a session nothing happens. Otherwise the user's
        entry is appended, the transcript sent with a context line counting
        it, and the sanitised reply appended only if the relay answered. */
    method Send(outcome: FetchOutcome)
      returns (request: Option<Outbound<Option<nat>>>, record: Option<InteractionRecord>)
      modifies this`messages, this`userInput, this`isLoading
      ensures request.Some? <==>
        old(isClient) && Trim(old(userInput)) != [] && !old(isLoading) && HasSession(old(sessionId))
      ensures request.None? ==>
        messages == old(messages) && userInput == old(userInput) && isLoading == old(isLoading) && record.None?
      ensures request.Some? ==>
        var user := Message(User, Trim(old(userInput)));
        && request.value == Outbound(old(messages) + [user], Some(|old(messages)| + 1), user.content)
        && userInput == "" && !isLoading
        && messages == old(messages) + [user] + ReplyEntries(outcome)
        && record == SendRecord(user.content, |old(messages)| + 1, old(sessionId).value, outcome)
    {
      request, record := None, None;
      var text := Trim(userInput);
      if !isClient || text == [] || isLoading || !HasSession(sessionId) {
        return;
      }
      var user := Message(User, text);
      var prior := messages;
      record := SendRecord(text, |prior| + 1, sessionId.value, outcome);
      messages := prior + [user];
      userInput := "";
      isLoading := true;

      var conversationHistory := prior + [user];
      request := Some(Outbound(conversationHistory, Some(|prior| + 1), text));

      messages := conversationHistory + ReplyEntries(outcome);
      isLoading := false;
    }

    /** `handleRestart`: on the client, empty transcript and text box, not
        started and no session, so the start effect runs again. */
    method Restart()
      modifies this`messages, this`sessionStarted, this`userInput, this`sessionId
      ensures old(isClient) ==>
        messages == [] && !sessionStarted && userInput == "" && sessionId == None
      ensures !old(isClient) ==>
        messages == old(messages) && sessionStarted == old(sessionStarted)
        && userInput == old(userInput) && sessionId == old(sessionId)
    {
      if !isClient {
        return;
      }
      messages := [];
      sessionStarted := false;
      userInput := "";
      sessionId := None;
    }
  }
}
