/**
  The scripted tutoring session of app/simulacion/page.tsx. The page keeps a
  transcript, the text box, a loading flag, the current phase (1 to 5) and a
  session id. Each send counts the user's turns, advances the phase through a
  fixed table before building that phase's system prompt, and appends the
  reply, if there is one, unsanitised. The page's own status notices
  (`addSystemMessage`) are part of the transcript as `System` entries.
 */
module SimulationPage {
  import opened Wrappers
  import opened Strings
  import opened Chat
  import Relay
  import SystemPrompts

  /** The test profile every session uses: the values the page sets equal
      the fallbacks it reads them with. */
  const PreferredName: string := "María"
  const CargoName: string := "Coordinadora Académica"
  const GeneroName: string := "femenino"
  const TestUserId: string := "test-user"

  /** The user message of the opening request. */
  const OpeningUserMessage: string := "Iniciar conversación"

  /** The status notices the page adds to the transcript. */
  const StartingNotice: string := "🔄 Iniciando simulador conversacional..."
  const ProfileNotice: string := "📱 Configurando perfil de usuario..."
  const SessionNotice: string := "🔑 Sesión configurada correctamente"
  const SendingNotice: string := "💬 Enviando mensaje inicial del asistente..."
  const ConnectingNotice: string := "🤖 Conectando con el asistente de IA..."
  const ConnectedNotice: string := "✅ Asistente IA conectado y listo para conversar"
  const ConnectFailedNotice: string := "❌ Error conectando con el asistente"

  function Min(a: int, b: int): int {
    if a <= b then a else b
  }

  /** The phase table of `sendMessage` (and of `detectPhaseChange`): given the
      phase before a send and the number of user turns including the new one,
      the phase the turn is answered in. */
  function NextPhase(phase: int, count: int): (p: int)
    ensures p == phase || p == phase + 1
    ensures 1 <= phase <= 5 ==> 1 <= p <= 5
    ensures p == phase + 1 ==> 1 <= phase <= 4 && count >= phase
  {
    if count == 1 && phase == 1 then 2
    else if count == 2 && phase == 2 then 3
    else if count >= 3 && phase == 3 then 4
    else if count >= 4 && phase == 4 then 5
    else phase
  }

  /** The phase a session is in after `turns` user turns with no manual step. */
  function ScriptedPhase(turns: nat): (p: int)
    ensures 1 <= p <= 5
  {
    Min(turns + 1, 5)
  }

  /** The table keeps a session on script: one more user turn is one more
      phase, up to the fifth. */
  lemma {:induction false} NextPhaseFollowsScript(turns: nat)
    ensures NextPhase(ScriptedPhase(turns), turns + 1) == ScriptedPhase(turns + 1)
  {
  }

  /** The prompt of a phase for the session's profile. */
  function PhasePrompt(phase: int): (r: string)
    ensures r != []
    ensures 1 <= phase <= 5 ==> r == SystemPrompts.PhaseTemplate(phase, PreferredName)
  {
    assert 1 <= phase <= 5 ==> (phase as real).Floor == phase;
    SystemPrompts.GetSystemPrompt(phase as real, PreferredName, CargoName, GeneroName)
  }

  /** `!sessionId`: no id, or the id 0. */
  predicate HasSession(id: Option<int>) {
    id.Some? && id.value != 0
  }

  /** The assistant entry shown when the opening request fails, around the
      error's message. */
  const TechnicalErrorHead: string := "Error técnico: "
  const TechnicalErrorTail: string :=
    ". Por favor revisa la configuración de las variables de entorno (GEMINI_API_KEY) y recarga la página."

  function TechnicalError(message: string): (r: string)
    ensures |r| == |TechnicalErrorHead| + |message| + |TechnicalErrorTail|
    ensures r[|TechnicalErrorHead|..|TechnicalErrorHead| + |message|] == message
  {
    TechnicalErrorHead + message + TechnicalErrorTail
  }

  /** The message of the error thrown for a response that is not `ok`. */
  const HttpErrorHead: string := "Error HTTP: "

  function HttpError(status: nat): (r: string)
    ensures |r| > |HttpErrorHead| && r[..|HttpErrorHead|] == HttpErrorHead
    ensures var digits := r[|HttpErrorHead|..];
      (forall k :: 0 <= k < |digits| ==> '0' <= digits[k] <= '9') && DigitsValue(digits) == status
  {
    NatToStringRoundTrip(status);
    assert (HttpErrorHead + NatToString(status))[|HttpErrorHead|..] == NatToString(status);
    HttpErrorHead + NatToString(status)
  }

  /** `'❌ Error: ' + (data.error || 'Error desconocido')`. */
  const FailureHead: string := "❌ Error: "

  function FailureNotice(payload: Relay.Payload): (r: string)
    ensures |r| > |FailureHead| && r[..|FailureHead|] == FailureHead
    ensures payload.Failed? && payload.error != [] ==> r[|FailureHead|..] == payload.error
  {
    FailureHead + (if payload.Failed? && payload.error != [] then payload.error else "Error desconocido")
  }

  /** The JSON body of a request of this page: the transcript on the wire and
      the prompt of the request's phase. */
  function Render(o: Outbound<int>): (r: ChatRequest)
    ensures r.messages == WireHistory(o.transcript) && r.userMessage == o.userMessage
    ensures 1 <= o.promptArgs <= 5 ==> r.systemPrompt == SystemPrompts.PhaseTemplate(o.promptArgs, PreferredName)
  {
    ChatRequest(WireHistory(o.transcript), PhasePrompt(o.promptArgs), o.userMessage)
  }

  /** The request `sendInitialMessage` POSTs: no history, phase 1. */
  function OpeningRequest(): Outbound<int> {
    Outbound([], 1, OpeningUserMessage)
  }

  /** The opening request succeeded: `response.ok` and `data.success`. */
  predicate OpeningAnswered(outcome: FetchOutcome) {
    outcome.Delivered? && Ok(outcome.response) && outcome.response.payload.Succeeded?
  }

  /** The entries `sendInitialMessage` appends after its connecting notice. */
  function OpeningEntries(outcome: FetchOutcome): (es: seq<Message>)
    ensures 1 <= |es| <= 2
    ensures OpeningAnswered(outcome) ==>
      es == [Message(Assistant, outcome.response.payload.message), Message(System, ConnectedNotice)]
    ensures outcome.Threw? ==>
      es == [Message(System, ConnectFailedNotice), Message(Assistant, TechnicalError(outcome.message))]
    ensures outcome.Delivered? && !Ok(outcome.response) ==>
      es == [Message(System, ConnectFailedNotice), Message(Assistant, TechnicalError(HttpError(outcome.response.status)))]
    ensures outcome.Delivered? && Ok(outcome.response) && !outcome.response.payload.Succeeded? ==>
      es == [Message(System, FailureNotice(outcome.response.payload))]
  {
    match outcome
    case Threw(message) =>
      [Message(System, ConnectFailedNotice), Message(Assistant, TechnicalError(message))]
    case Delivered(resp) =>
      if !Ok(resp) then
        [Message(System, ConnectFailedNotice), Message(Assistant, TechnicalError(HttpError(resp.status)))]
      else if resp.payload.Succeeded? then
        [Message(Assistant, resp.payload.message), Message(System, ConnectedNotice)]
      else
        [Message(System, FailureNotice(resp.payload))]
  }

  /** Everything the session start (`initializeSession`) appends. */
  function StartEntries(outcome: FetchOutcome): (es: seq<Message>)
    ensures 5 <= |es| <= 6
    ensures forall k :: 0 <= k < |es| ==> es[k].role != User
  {
    [Message(System, ProfileNotice), Message(System, SessionNotice),
     Message(System, SendingNotice), Message(System, ConnectingNotice)]
    + OpeningEntries(outcome)
  }

  /** The start's entries, appended one notice at a time and then those of
      the opening, are `StartEntries`. */
  lemma {:induction false} StartEntriesAfter(before: seq<Message>, outcome: FetchOutcome)
    ensures before + [Message(System, ProfileNotice)] + [Message(System, SessionNotice)]
            + [Message(System, SendingNotice)] + [Message(System, ConnectingNotice)] + OpeningEntries(outcome)
         == before + StartEntries(outcome)
  {
    var o := OpeningEntries(outcome);
    var p, q, r, c := Message(System, ProfileNotice), Message(System, SessionNotice),
                      Message(System, SendingNotice), Message(System, ConnectingNotice);
    AppendFour(before, p, q, r, c, o);
  }

  /** Appending four entries one at a time, then more, is appending them
      all at once. */
  lemma {:induction false} AppendFour(a: seq<Message>, p: Message, q: Message, r: Message, c: Message, o: seq<Message>)
    ensures a + [p] + [q] + [r] + [c] + o == a + ([p, q, r, c] + o)
  {
    assert a + [p] + [q] + [r] + [c] == a + [p, q, r, c];
  }

  /** Starting a session leaves the count of user turns as it was. */
  lemma {:induction false} StartKeepsTurns(before: seq<Message>, outcome: FetchOutcome)
    ensures UserTurns(before + StartEntries(outcome)) == UserTurns(before)
  {
    NoUserTurns(StartEntries(outcome));
    UserTurnsAppend(before, StartEntries(outcome));
  }

  /** The opening adds an assistant entry (the greeting or the technical
      error) unless the relay answered `ok` without success, when it adds
      only a notice. */
  lemma {:induction false} StartEntriesShape(outcome: FetchOutcome)
    ensures var es := StartEntries(outcome);
      (exists k :: 4 <= k < |es| && es[k].role == Assistant) <==>
      !(outcome.Delivered? && Ok(outcome.response) && !outcome.response.payload.Succeeded?)
  {
    var es := StartEntries(outcome);
    var o := OpeningEntries(outcome);
    assert |es| == 4 + |o| && forall k :: 0 <= k < |o| ==> es[4 + k] == o[k];
    if |o| == 2 {
      if o[0].role == Assistant {
        assert es[4].role == Assistant;
      } else {
        assert es[5].role == Assistant;
      }
    }
  }


  /** When the opening put an assistant entry in the transcript, no later
      request of the session reaches the model with any history. */
  lemma {:induction false} OpeningSilencesHistory(outcome: FetchOutcome, before: seq<Message>, rest: seq<Message>)
    requires forall k :: 0 <= k < |before| ==> before[k].role == System
    requires !(outcome.Delivered? && Ok(outcome.response) && !outcome.response.payload.Succeeded?)
    ensures Relay.PassedHistory(WireHistory(before + StartEntries(outcome) + rest)) == []
  {
    var o := OpeningEntries(outcome);
    var notices := [Message(System, ProfileNotice), Message(System, SessionNotice),
                    Message(System, SendingNotice), Message(System, ConnectingNotice)];
    assert |o| == 2 && o == [o[0], o[1]];
    assert StartEntries(outcome) == notices + [o[0], o[1]];
    PairSplits(before, notices, o[0], o[1], rest);
    if o[0].role == Assistant {
      GreetingFirstSendsNoHistory(before + notices, o[0], [o[1]] + rest);
    } else {
      GreetingFirstSendsNoHistory(before + notices + [o[0]], o[1], rest);
    }
  }

  /** Two ways of cutting a transcript around the pair of entries `x, y`. */
  lemma {:induction false} PairSplits(a: seq<Message>, b: seq<Message>, x: Message, y: Message, c: seq<Message>)
    ensures a + (b + [x, y]) + c == (a + b) + [x] + ([y] + c)
    ensures a + (b + [x, y]) + c == (a + b + [x]) + [y] + c
  {
  }

  /** The row the opening asks the database to store, when it succeeds. */
  function OpeningRecord(sessionId: int, outcome: FetchOutcome, elapsedMs: int): (r: Option<InteractionRecord>)
    ensures r.Some? <==> OpeningAnswered(outcome)
    ensures r.Some? ==> r.value.phase == 1 && r.value.number == 1 && r.value.sessionId == sessionId
    ensures r.Some? ==>
      r.value.reply == outcome.response.payload.message && r.value.userMessage == OpeningUserMessage
      && r.value.durationMs == elapsedMs
  {
    if OpeningAnswered(outcome) then
      Some(InteractionRecord(TestUserId, OpeningUserMessage, outcome.response.payload.message,
                             1, 1, sessionId, elapsedMs))
    else None
  }

  /** A send adds exactly one user turn, answered or not. */
  lemma {:induction false} UserTurnsOfTurn(prior: seq<Message>, user: Message, outcome: FetchOutcome)
    requires user.role == User
    ensures UserTurns(prior + [user]) == UserTurns(prior) + 1
    ensures Answered(outcome) ==>
      UserTurns(prior + [user, Message(Assistant, ReplyText(outcome))]) == UserTurns(prior) + 1
  {
    UserTurnsSnoc(prior, user);
    if Answered(outcome) {
      var reply := Message(Assistant, ReplyText(outcome));
      assert prior + [user, reply] == prior + [user] + [reply];
      UserTurnsSnoc(prior + [user], reply);
    }
  }

  class Session {
    var messages: seq<Message>
    var userInput: string
    var isLoading: bool
    var currentPhase: int
    var sessionId: Option<int>
    /** Whether the phase has only been moved by sends since the last start. */
    ghost var scripted: bool

    ghost predicate Valid()
      reads this
    {
      1 <= currentPhase <= 5
      && (scripted ==> currentPhase == ScriptedPhase(UserTurns(messages)))
    }

    /** The first render: empty transcript, phase 1, no session. */
    constructor ()
      ensures Valid() && scripted
      ensures messages == [] && userInput == "" && !isLoading
      ensures currentPhase == 1 && sessionId == None
    {
      messages := [];
      userInput := "";
      isLoading := false;
      currentPhase := 1;
      sessionId := None;
      scripted := true;
    }

    /** Typing in the text box. */
    method SetInput(text: string)
      modifies this`userInput
      ensures userInput == text
    {
      userInput := text;
    }

    /** The mount effect: a starting notice, then the session start.
        `tempId` stands for `Date.now()`, `dbId` for the id of the row the
        database created (if any), `outcome` for the opening request. */
    method Mount(tempId: int, dbId: Option<int>, outcome: FetchOutcome, elapsedMs: int)
      returns (request: Outbound<int>, record: Option<InteractionRecord>)
      requires Valid()
      modifies this
      ensures Valid() && scripted == old(scripted)
      ensures messages == old(messages) + [Message(System, StartingNotice)] + StartEntries(outcome)
      ensures sessionId == Some(if dbId.Some? then dbId.value else tempId)
      ensures currentPhase == old(currentPhase) && userInput == old(userInput) && isLoading == old(isLoading)
      ensures request == OpeningRequest()
      ensures record == OpeningRecord(tempId, outcome, elapsedMs)
    {
      messages := messages + [Message(System, StartingNotice)];
      UserTurnsSnoc(old(messages), Message(System, StartingNotice));
      request, record := InitializeSession(tempId, dbId, outcome, elapsedMs);
    }

    /** `initializeSession`: notices, the temporary id, then the database's id
        when it created a row, then the opening request. */
    method InitializeSession(tempId: int, dbId: Option<int>, outcome: FetchOutcome, elapsedMs: int)
      returns (request: Outbound<int>, record: Option<InteractionRecord>)
      requires Valid()
      modifies this`messages, this`sessionId
      ensures Valid() && scripted == old(scripted)
      ensures messages == old(messages) + StartEntries(outcome)
      ensures sessionId == Some(if dbId.Some? then dbId.value else tempId)
      ensures currentPhase == old(currentPhase) && userInput == old(userInput) && isLoading == old(isLoading)
      ensures request == OpeningRequest()
      ensures record == OpeningRecord(tempId, outcome, elapsedMs)
    {
      messages := messages + [Message(System, ProfileNotice)];
      sessionId := Some(tempId);
      messages := messages + [Message(System, SessionNotice)];
      if dbId.Some? {
        sessionId := Some(dbId.value);
      }
      messages := messages + [Message(System, SendingNotice)];
      request, record := SendInitialMessage(tempId, outcome, elapsedMs);
      StartEntriesAfter(old(messages), outcome);
      StartKeepsTurns(old(messages), outcome);
    }

    /** `sendInitialMessage(sessionId)`: a connecting notice, the phase 1
        request, then the greeting and a notice, a failure notice, or a
        notice and the technical error shown as the assistant's entry. */
    method SendInitialMessage(sid: int, outcome: FetchOutcome, elapsedMs: int)
      returns (request: Outbound<int>, record: Option<InteractionRecord>)
      modifies this`messages
      ensures messages == old(messages) + [Message(System, ConnectingNotice)] + OpeningEntries(outcome)
      ensures request == OpeningRequest()
      ensures record == OpeningRecord(sid, outcome, elapsedMs)
    {
      messages := messages + [Message(System, ConnectingNotice)];
      request := Outbound([], 1, OpeningUserMessage);
      record := None;
      match outcome {
        case Threw(message) =>
          messages := messages + [Message(System, ConnectFailedNotice)];
          messages := messages + [Message(Assistant, TechnicalError(message))];
        case Delivered(resp) =>
          if !Ok(resp) {
            messages := messages + [Message(System, ConnectFailedNotice)];
            messages := messages + [Message(Assistant, TechnicalError(HttpError(resp.status)))];
          } else if resp.payload.Succeeded? {
            messages := messages + [Message(Assistant, resp.payload.message)];
            messages := messages + [Message(System, ConnectedNotice)];
            record := Some(InteractionRecord(TestUserId, OpeningUserMessage, resp.payload.message,
                                             1, 1, sid, elapsedMs));
          } else {
            messages := messages + [Message(System, FailureNotice(resp.payload))];
          }
      }
    }

    /** `sendMessage`. Without text, while a request is in flight or without a
        session nothing happens. Otherwise the user's entry is appended, the
        phase advanced and kept, the new phase's prompt sent with the whole
        transcript, and the reply appended only if the relay answered. */
    method Send(outcome: FetchOutcome, elapsedMs: int)
      returns (request: Option<Outbound<int>>, record: Option<InteractionRecord>)
      requires Valid()
      modifies this`messages, this`userInput, this`isLoading, this`currentPhase
      ensures Valid()
      ensures request.Some? <==> Trim(old(userInput)) != [] && !old(isLoading) && HasSession(old(sessionId))
      ensures request.None? ==>
        messages == old(messages) && userInput == old(userInput) && isLoading == old(isLoading)
        && currentPhase == old(currentPhase) && record.None?
      ensures request.Some? ==>
        var user := Message(User, Trim(old(userInput)));
        var phase := NextPhase(old(currentPhase), UserTurns(old(messages)) + 1);
        && request.value == Outbound(old(messages) + [user], phase, user.content)
        && currentPhase == phase && userInput == "" && !isLoading
        && (Answered(outcome) ==>
              messages == old(messages) + [user, Message(Assistant, ReplyText(outcome))]
              && record == Some(InteractionRecord(TestUserId, user.content, ReplyText(outcome),
                                                  old(currentPhase), |old(messages)| + 1,
                                                  old(sessionId).value, elapsedMs)))
        && (!Answered(outcome) ==> messages == old(messages) + [user] && record.None?)
    {
      request, record := None, None;
      var text := Trim(userInput);
      if text == [] || isLoading || !HasSession(sessionId) {
        return;
      }
      var sent;
      sent, record := Exchange(Message(User, text), outcome, elapsedMs);
      request := Some(sent);
    }

    /** `sendMessage` past its guards: the user's entry is appended and the
        text box emptied, the phase advanced by the table before the prompt
        is chosen, then the reply and the row when the relay answered. The
        row carries the phase before the send and the transcript length plus
        one, as the handler's stale state gives them. */
    method Exchange(user: Message, outcome: FetchOutcome, elapsedMs: int)
      returns (request: Outbound<int>, record: Option<InteractionRecord>)
      requires Valid() && user.role == User && HasSession(sessionId)
      modifies this`messages, this`userInput, this`isLoading, this`currentPhase
      ensures Valid()
      ensures var phase := NextPhase(old(currentPhase), UserTurns(old(messages)) + 1);
        && request == Outbound(old(messages) + [user], phase, user.content)
        && currentPhase == phase && userInput == "" && !isLoading
      ensures Answered(outcome) ==>
        messages == old(messages) + [user, Message(Assistant, ReplyText(outcome))]
        && record == Some(InteractionRecord(TestUserId, user.content, ReplyText(outcome),
                                            old(currentPhase), |old(messages)| + 1,
                                            sessionId.value, elapsedMs))
      ensures !Answered(outcome) ==> messages == old(messages) + [user] && record.None?
    {
      var prior := messages;
      var phaseBefore := currentPhase;
      record := None;
      if Answered(outcome) {
        record := Some(InteractionRecord(TestUserId, user.content, ReplyText(outcome),
                                         phaseBefore, |prior| + 1, sessionId.value, elapsedMs));
      }
      messages := prior + [user];
      userInput := "";
      isLoading := true;

      var count := UserTurns(prior) + 1;
      var newPhase := NextPhase(phaseBefore, count);
      currentPhase := newPhase;

      request := Outbound(prior + [user], newPhase, user.content);

      if Answered(outcome) {
        messages := prior + [user, Message(Assistant, ReplyText(outcome))];
      }
      isLoading := false;
      UserTurnsOfTurn(prior, user, outcome);
      assert UserTurns(messages) == count;
      NextPhaseFollowsScript(UserTurns(prior));
    }

    /** `detectPhaseChange`: the same table applied to the current phase and
        the transcript's user turns plus one. */
    method DetectPhaseChange(aiMessage: string, interactionNumber: int)
      requires Valid()
      modifies this`currentPhase, this`scripted
      ensures Valid() && !scripted
      ensures currentPhase == NextPhase(old(currentPhase), UserTurns(messages) + 1)
    {
      var count := UserTurns(messages) + 1;
      currentPhase := NextPhase(currentPhase, count);
      scripted := false;
    }

    /** The "Siguiente Paso" button: one phase on, never past the fifth. */
    method ManualAdvance()
      requires Valid()
      modifies this`currentPhase, this`scripted
      ensures Valid() && !scripted
      ensures currentPhase == Min(old(currentPhase) + 1, 5)
    {
      currentPhase := Min(currentPhase + 1, 5);
      scripted := false;
    }

    /** The "Reiniciar" button: empty transcript, phase 1, empty text box,
        then a new session start. */
    method Restart(tempId: int, dbId: Option<int>, outcome: FetchOutcome, elapsedMs: int)
      returns (request: Outbound<int>, record: Option<InteractionRecord>)
      requires Valid()
      modifies this
      ensures Valid() && scripted
      ensures messages == StartEntries(outcome)
      ensures currentPhase == 1 && userInput == "" && isLoading == old(isLoading)
      ensures sessionId == Some(if dbId.Some? then dbId.value else tempId)
      ensures request == OpeningRequest()
      ensures record == OpeningRecord(tempId, outcome, elapsedMs)
    {
      messages := [];
      currentPhase := 1;
      userInput := "";
      scripted := true;
      request, record := InitializeSession(tempId, dbId, outcome, elapsedMs);
    }
  }

  /** After a restart whose opening showed an assistant entry, any number of
      sends follows: every request a send makes reaches the model with no
      history, whatever the phase. */
  lemma {:induction false} RestartedSessionSendsNoHistory(outcome: FetchOutcome, later: seq<Message>, user: Message)
    requires !(outcome.Delivered? && Ok(outcome.response) && !outcome.response.payload.Succeeded?)
    ensures Relay.PassedHistory(WireHistory(StartEntries(outcome) + later + [user])) == []
  {
    assert StartEntries(outcome) + later + [user] == [] + StartEntries(outcome) + (later + [user]);
    OpeningSilencesHistory(outcome, [], later + [user]);
  }
}
