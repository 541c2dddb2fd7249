/**
  The chat of app/conversational/page.tsx: the free-conversation simulator
  without sessions, database or client check. It greets once it has not yet
  started, and on each send posts the whole transcript with the
  conversational prompt plus a context line, appending the sanitised reply.
  Failures of either request are swallowed: nothing is appended.
 */
module ConversationalPage {
  import opened Wrappers
  import opened Strings
  import opened Chat

  const OpeningUserMessage: string := "Iniciar conversación de forma natural"

  /** The opening request: no history and the bare conversational prompt. */
  function OpeningRequest(): Outbound<Option<nat>> {
    Outbound([], None, OpeningUserMessage)
  }

  /** The transcript the opening leaves: the sanitised greeting alone when the
      relay answered, the old transcript otherwise. */
  function OpeningTranscript(before: seq<Message>, outcome: FetchOutcome): (t: seq<Message>)
    ensures Answered(outcome) ==> t == [Message(Assistant, TextUtils.FormatChatText(ReplyText(outcome)))]
    ensures !Answered(outcome) ==> t == before
  {
    if Answered(outcome) then ReplyEntries(outcome) else before
  }

  class Session {
    var messages: seq<Message>
    var userInput: string
    var isLoading: bool
    var sessionStarted: bool

    /** The first render. */
    constructor ()
      ensures messages == [] && userInput == "" && !isLoading && !sessionStarted
    {
      messages := [];
      userInput := "";
      isLoading := false;
      sessionStarted := false;
    }

    /** Typing in the text box. */
    method SetInput(text: string)
      modifies this`userInput
      ensures userInput == text
    {
      userInput := text;
    }

    /** The start effect: when not started, send the opening request and mark
        the session started. */
    method Start(outcome: FetchOutcome) returns (request: Option<Outbound<Option<nat>>>)
      modifies this`messages, this`sessionStarted
      ensures request.Some? <==> !old(sessionStarted)
      ensures request.Some? ==> request.value == OpeningRequest()
      ensures request.Some? ==> messages == OpeningTranscript(old(messages), outcome)
      ensures request.None? ==> messages == old(messages)
      ensures sessionStarted
    {
      request := None;
      if !sessionStarted {
        var opening := SendInitialMessage(outcome);
        request := Some(opening);
        sessionStarted := true;
      }
    }

    /** `sendInitialMessage`: on success the greeting replaces the
        transcript; a failed or thrown request changes nothing. */
    method SendInitialMessage(outcome: FetchOutcome) returns (request: Outbound<Option<nat>>)
      modifies this`messages
      ensures request == OpeningRequest()
      ensures messages == OpeningTranscript(old(messages), outcome)
    {
      request := Outbound([], None, OpeningUserMessage);
      if Answered(outcome) {
        messages := ReplyEntries(outcome);
      }
    }

    /** `sendMessage`. Without text or while a request is in flight nothing
        happens. Otherwise the user's entry is appended, the transcript sent
        with a context line counting it, and the sanitised reply appended only
        if the relay answered. */
    method Send(outcome: FetchOutcome) returns (request: Option<Outbound<Option<nat>>>)
      modifies this`messages, this`userInput, this`isLoading
      ensures request.Some? <==> Trim(old(userInput)) != [] && !old(isLoading)
      ensures request.None? ==>
        messages == old(messages) && userInput == old(userInput) && isLoading == old(isLoading)
      ensures request.Some? ==>
        var user := Message(User, Trim(old(userInput)));
        && request.value == Outbound(old(messages) + [user], Some(|old(messages)| + 1), user.content)
        && messages == old(messages) + [user] + ReplyEntries(outcome)
        && userInput == "" && !isLoading
    {
      request := None;
      if Trim(userInput) == [] || isLoading {
        return;
      }
      var user := Message(User, Trim(userInput));
      var prior := messages;
      messages := messages + [user];
      userInput := "";
      isLoading := true;

      var conversationHistory := prior + [user];
      request := Some(Outbound(conversationHistory, Some(|conversationHistory|), user.content));

      messages := prior + [user] + ReplyEntries(outcome);
      isLoading := false;
    }

    /** The restart button: empty transcript and text box, not started, so
        the start effect greets again. */
    method Restart()
      modifies this`messages, this`sessionStarted, this`userInput
      ensures messages == [] && !sessionStarted && userInput == ""
    {
      messages := [];
      sessionStarted := false;
      userInput := "";
    }
  }
}
