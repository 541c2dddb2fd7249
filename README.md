# Scripted tutoring chat — a Dafny model

The system is a small Next.js application. It teaches academic coordinators to
write effective prompts, through a chat with an assistant called "Alex".
Three pages talk to one relay endpoint:

- **Simulation page** (`/simulacion`). A scripted session in five phases:
  greeting, checklist, practice scenario, feedback, closing. It counts the
  user's turns, moves the phase through a fixed table and sends that phase's
  system prompt with every message. It shows its own status notices in the
  transcript and appends replies unsanitised.
- **Home page** (`/`). A free conversation with one long conversational
  prompt plus a context line that states how many messages the request
  carries. Replies pass through the markdown sanitiser.
- **Conversational page** (`/conversational`). The same free conversation,
  without sessions, database rows or a client check.
- **Relay** (`POST /api/chat`). It validates the body, turns the transcript
  into a Gemini chat history, decides whether that history is passed at all,
  puts the system prompt in front of the user's message and relays the
  model's answer.

The model has one module per source file:

- `Strings`: the JavaScript string built-ins the code relies on (`trim`,
  `\s`, `includes`, `toLowerCase`, number to decimal string).
- `TextUtils`: `cleanMarkdown` and `formatChatText`. Each global regular
  expression is a left-to-right rewrite, and the sanitiser is a chain of them.
- `SystemPrompts` and `ConversationalPrompts`: the prompt templates and the
  keyword heuristic.
- `Relay`: the route handler, as a method. The model's answer is a parameter.
- `Chat`: what the pages share. This covers the transcript entry, the JSON
  body, the outcome of the `fetch`, the database row and the context line.
- `SimulationPage`, `HomePage`, `ConversationalPage`: one `Session` class
  per page. Its fields are the page's React state, and its methods are the
  effects and handlers. Each method returns the request it would POST and
  the row it would store. The fetch outcome, the clock and the database's
  answer are parameters.

Behaviour of the code worth knowing, which the model keeps as written:

- **A failed send in the simulation page.** Nothing is appended and the phase
  stays advanced.
- **Paragraphs in the sanitiser.** `cleanMarkdown` turns every white-space
  run into one space, line breaks included. So `formatChatText` never keeps
  a paragraph break, and its two newline passes change nothing
  (`TextUtils.CleanMarkdownSingleLine`, `TextUtils.FormatChatTextIsCleanMarkdown`).
- **Heading rule.** The heading rewrite is `/^#+\s+/gm`: any number of `#`,
  with no limit of six.
- **A link followed by `)`.** The text keeps the extra character:
  `[link](url))` sanitises to `link)`.
- **Simulation replies are not sanitised.** The simulation page shows the
  relay's text as it is. Only the two free-conversation pages call
  `formatChatText`.

## Model

| member | source | states |
|---|---|---|
| Strings.Trim | lib/textUtils.ts:26 | the result has no white space at either end |
| Strings.TrimIsSlice | lib/textUtils.ts:26 | `trim` removes only white space: the result is a slice of the input with white space on both sides of it |
| Strings.TrimIdempotent | lib/textUtils.ts:37 | trimming twice equals trimming once |
| Strings.Contains | lib/conversationalPrompts.ts:54 | `includes` holds whenever the text starts with the substring, and never for a substring longer than the text |
| Strings.ContainsIffOccurs | lib/conversationalPrompts.ts:54 | `includes` holds exactly when the substring occurs at some index |
| Strings.ToLower | lib/conversationalPrompts.ts:51 | `toLowerCase` keeps the length and maps each character independently |
| Strings.ToLowerIdempotent | lib/conversationalPrompts.ts:51 | lower-casing twice equals lower-casing once |
| Strings.NatToString | app/page.tsx:170 | the decimal rendering of a count is non-empty, all digits, and has no leading zero |
| Strings.NatToStringRoundTrip | app/page.tsx:170 | reading the digits back gives the count |
| TextUtils.CloseAt | lib/textUtils.ts:5-13 | the index where the lazy group stops leaves room for the closing delimiter within the text |
| TextUtils.CloseAtIsFirst | lib/textUtils.ts:5-13 | the closing delimiter starts at the index found, no earlier index starts one, and `.` keeps the span on one line |
| TextUtils.CloseAtNotFound | lib/textUtils.ts:5-13 | when the lazy group finds nothing, the delimiter starts nowhere up to the first line terminator |
| TextUtils.StripDelimited | lib/textUtils.ts:5-13 | one delimiter pass never lengthens the text (what it does is stated by the three lemmas below) |
| TextUtils.StripWithoutDelimiter | lib/textUtils.ts:5-13 | text without the delimiter is left unchanged by its rewrite |
| TextUtils.StripWrapped | lib/textUtils.ts:5-13 | `DxD` followed by more text becomes `x` followed by the rewrite of the rest |
| TextUtils.LinkAt | lib/textUtils.ts:16 | a link match is `[`, a non-empty text without `]`, `](`, a non-empty url without `)`, and `)`, all within the input |
| TextUtils.LinkPass | lib/textUtils.ts:16 | the link pass never lengthens the text (what it does is stated by the two lemmas below) |
| TextUtils.LinkPassWithoutBracket | lib/textUtils.ts:16 | text without `[` is left unchanged by the link rewrite |
| TextUtils.LinkReplaced | lib/textUtils.ts:16 | `[text](url)` followed by more text becomes `text` followed by the rewrite of the rest |
| TextUtils.MarkerAt | lib/textUtils.ts:19-22 | a heading match is the whole run of `#` then white space; a bullet match is `-`, `*` or `+` then white space; either way the white-space run is maximal and the match is at least as long as its replacement |
| TextUtils.LineStartPass | lib/textUtils.ts:19-22 | the heading and bullet passes never lengthen the text (what they do is stated by the lemmas below) |
| TextUtils.LineStartPassOneLine | lib/textUtils.ts:19-22 | away from a line start, one-line text is left unchanged by the heading and bullet rewrites |
| TextUtils.LineStartPassNoSpace | lib/textUtils.ts:19-22 | text without white space is left unchanged by the heading and bullet rewrites |
| TextUtils.HeadingRemoved | lib/textUtils.ts:19 | `#…#` and white space at the start of a one-line text are removed |
| TextUtils.HeadingAfterLine | lib/textUtils.ts:19 | `#…#` and white space right after a `\n` are removed too (the `m` flag), the line before being rewritten on its own |
| TextUtils.BulletReplaced | lib/textUtils.ts:22 | `-`, `*` or `+` and white space at the start of a one-line text become `• ` |
| TextUtils.BulletAfterLine | lib/textUtils.ts:22 | `-`, `*` or `+` and white space right after a `\n` become `• ` too (the `m` flag) |
| TextUtils.LineStartPassAcrossLine | lib/textUtils.ts:19-22 | a line ending in text is rewritten on its own and the next line is rewritten as a line start |
| TextUtils.MarkerWithinLine | lib/textUtils.ts:19-22 | a marker match at a line start never reaches past a line that ends in text |
| TextUtils.CollapseSpaces | lib/textUtils.ts:25 | the collapsed text is empty only for empty input, every white-space character left is a single plain space, and the first character keeps its class |
| TextUtils.CollapseKeepsText | lib/textUtils.ts:25 | collapsing white space keeps every other character, in order |
| TextUtils.CollapseRun | lib/textUtils.ts:25 | each maximal white-space run becomes exactly one space, and the text on both sides is collapsed on its own |
| TextUtils.CollapseNoSpace | lib/textUtils.ts:25 | text without white space is left unchanged by the collapse |
| TextUtils.Apply | lib/textUtils.ts:5-37 | no rewrite lengthens the text |
| TextUtils.ApplyAllAppend | lib/textUtils.ts:3-26 | a chain of rewrites splits into its parts |
| TextUtils.CleanMarkdown | lib/textUtils.ts:2-27 | the sanitised text is never longer than the input, and empty input stays empty |
| TextUtils.CleanMarkdownUnfolds | lib/textUtils.ts:3-26 | unfolding step: the sanitiser is the ten rewrites of the source, in the source's order |
| TextUtils.CleanMarkdownShape | lib/textUtils.ts:2-27 | the sanitised text has no white space at either end, and never two white-space characters in a row |
| TextUtils.CleanMarkdownSingleLine | lib/textUtils.ts:25-26 | no line terminator survives the sanitiser |
| TextUtils.PlainUnchanged | lib/textUtils.ts:16-26 | text with no white space and no markdown characters is left unchanged by the link, heading, bullet, collapse and trim passes |
| TextUtils.StripInline | lib/textUtils.ts:5-13 | the five inline passes never lengthen the text (StripInlineUnwraps states what they do) |
| TextUtils.StripInlineUnwraps | lib/textUtils.ts:5-13 | `**x**`, `__x__`, `*x*`, `_x_` and `` `x` `` lose their delimiters when `x` is plain |
| TextUtils.CleanMarkdownBulletList | lib/textUtils.ts:2-27 | a two-item list `- a\n- b` sanitises to `• a • b` |
| TextUtils.CleanMarkdownUnwraps | lib/textUtils.ts:2-27 | `**x**`, `__x__`, `*x*`, `_x_` and `` `x` `` sanitise to `x` when `x` is plain |
| TextUtils.LastNewline | lib/textUtils.ts:35 | the index found holds the last `\n` of the text; when none is found the text has no `\n` |
| TextUtils.NewlinePass | lib/textUtils.ts:36 | the newline rewrite keeps the length |
| TextUtils.NewlinePassIdentity | lib/textUtils.ts:36 | replacing `\n` with `\n` changes nothing |
| TextUtils.ParagraphPass | lib/textUtils.ts:35 | the paragraph pass never lengthens the text |
| TextUtils.ParagraphPassNoNewline | lib/textUtils.ts:35 | text without `\n` is left unchanged by the paragraph rewrite |
| TextUtils.FormatChatText | lib/textUtils.ts:30-38 | the formatted text is never longer than the input |
| TextUtils.FormatChatTextUnfolds | lib/textUtils.ts:30-38 | unfolding step: `formatChatText` is `cleanMarkdown`, then the paragraph rewrite, the newline rewrite and `trim` |
| TextUtils.FormatChatTextIsCleanMarkdown | lib/textUtils.ts:30-38 | `formatChatText` gives exactly what `cleanMarkdown` gives |
| TextUtils.FormatChatTextShape | lib/textUtils.ts:30-38 | formatted replies are on one line with no white space at either end |
| SystemPrompts.SaludoGenero | lib/systemPrompts.ts:7 | `estimada` exactly for `femenino`, `estimado` exactly for `masculino`, `estimade` otherwise |
| SystemPrompts.PhaseTemplate | lib/systemPrompts.ts:9-56 | the table entry of a phase; the phase 1 entry names the user |
| SystemPrompts.GetSystemPrompt | lib/systemPrompts.ts:1-59 | the prompt is never empty and is always one of the five templates, for the given name |
| SystemPrompts.PromptOfPhase | lib/systemPrompts.ts:58 | for a phase from 1 to 5 the prompt is that phase's template |
| SystemPrompts.FallbackIsPhaseOne | lib/systemPrompts.ts:58 | any other phase number gets the phase 1 prompt |
| SystemPrompts.IgnoresCargoAndGenero | lib/systemPrompts.ts:1-59 | the role and gender arguments never change the prompt |
| SystemPrompts.LaterPhasesAreConstant | lib/systemPrompts.ts:9-56 | the prompts of phases 2 to 5 do not depend on any argument |
| SystemPrompts.PhaseMarks | lib/systemPrompts.ts:9-56 | three character positions tell the five templates apart |
| SystemPrompts.PromptIdentifiesPhase | lib/systemPrompts.ts:9-56 | equal prompts come from the same phase, whatever the names |
| ConversationalPrompts.GetConversationalPrompt | lib/conversationalPrompts.ts:1-48 | the prompt is the fixed head, the user line `name, cargo` and the fixed tail; the user line reads back from between them, so different user lines give different prompts |
| ConversationalPrompts.PromptNamesUser | lib/conversationalPrompts.ts:6 | the prompt contains the user line, the name and the role |
| ConversationalPrompts.ShouldOfferTransition | lib/conversationalPrompts.ts:50-76 | a result is one of the four labels, and `null` comes back exactly when no rule fires |
| ConversationalPrompts.TransitionPriority | lib/conversationalPrompts.ts:50-76 | each label comes back exactly when its rule fires and no earlier rule does |
| ConversationalPrompts.TransitionIgnoresCase | lib/conversationalPrompts.ts:51 | a lower-cased text gets the same label |
| ConversationalPrompts.PromptTalkIsNotIntroduction | lib/conversationalPrompts.ts:54-56 | a text containing `prompt` is never an introduction |
| ConversationalPrompts.ConceptsShadowPractice | lib/conversationalPrompts.ts:59-68 | agreement plus `sesión` wins over the practice rule even when that rule also fires |
| Relay.NonSystem | app/api/chat/route.ts:32 | the filter keeps exactly the entries whose role is not `system` |
| Relay.NonSystemAppend | app/api/chat/route.ts:32 | the filter works piecewise, so it keeps the order |
| Relay.ToContent | app/api/chat/route.ts:33-36 | role `user` stays the user's turn and every other role becomes the model's, with the text unchanged |
| Relay.History | app/api/chat/route.ts:32-36 | the history is the filtered entries, in order, each converted |
| Relay.PassedHistory | app/api/chat/route.ts:47-64 | the chat starts with the whole history or with none, and with the whole history exactly when it is non-empty and opens with a user turn |
| Relay.AcceptedIffFirstNonSystemIsUser | app/api/chat/route.ts:47 | the history is accepted exactly when the first non-system entry is a user entry |
| Relay.AssistantFirstDropsHistory | app/api/chat/route.ts:47-64 | a transcript whose first non-system entry is an assistant entry reaches the model with no history |
| Relay.FullPrompt | app/api/chat/route.ts:67 | the full prompt ends with the message, is the bare message exactly when the system prompt is falsy, and otherwise starts with the system prompt and a blank line |
| Relay.FullPromptSplits | app/api/chat/route.ts:67 | the system prompt and the message can be read back from the full prompt |
| Relay.Post | app/api/chat/route.ts:7-89 | status 400 exactly for a falsy user message; 500 for a missing key, a body that does not parse, a missing `messages` or a model error, each with its own payload; 200 exactly when the model replied; the model gets the passed history and the full prompt |
| Chat.RoleName | app/page.tsx:164-167 | only `User` is named `user`, and only `System` is named `system` |
| Chat.ParseRole | app/page.tsx:164-167 | a parsed name is the name of the role it parses to |
| Chat.ToWire | app/page.tsx:164-167 | the wire entry keeps the content, and its role reads back |
| Chat.WireHistory | app/page.tsx:164-167 | the wire array has one entry per transcript entry, in order |
| Chat.WireHistoryInjective | app/page.tsx:164-167 | different transcripts never produce the same wire array |
| Chat.UserTurns | app/simulacion/page.tsx:285 | the user-turn count never exceeds the transcript length |
| Chat.UserTurnsAppend | app/simulacion/page.tsx:285 | counting user turns works piecewise |
| Chat.UserTurnsSnoc | app/simulacion/page.tsx:285 | appending an entry adds one turn exactly when the entry is the user's |
| Chat.ContextLine | app/page.tsx:170 | the context line opens with its fixed head and ends with its fixed tail, with something between them |
| Chat.ContextLineStatesCount | app/page.tsx:169-170 | the context line is the fixed head, digits that read back as the count, and the fixed tail |
| Chat.ConversationPrompt | app/page.tsx:169-170 | the prompt of the free-conversation pages opens with the conversational prompt for the default profile; it is that prompt alone exactly when no count is given, and otherwise the rest is the context line of that count, whose digits read back as the count (`Chat.ContextLineStatesCount`) |
| Chat.RenderConversation | app/page.tsx:163-182 | the request's `messages` are the transcript on the wire, entry by entry in order; the user's text goes as it is; the prompt is the conversational prompt followed by the context line of the request's count (the prior message count + 1 in `Send`) |
| Chat.ReplyEntries | app/page.tsx:186-194 | a send appends exactly the sanitised reply as an assistant entry when the relay answered, and nothing otherwise |
| Chat.ReplyEntriesAreSanitised | app/page.tsx:190 | the appended reply is on one line, has no white space at either end and is no longer than the raw text |
| Chat.GreetingFirstSendsNoHistory | app/api/chat/route.ts:47-64 | once an assistant entry follows the system notices, every later request reaches the model with no history |
| Chat.SendAfterOpeningHasNoHistory | app/page.tsx:163-182 | on the free-conversation pages, every send after a greeting or an apology reaches the model with no history |
| Chat.LoneUserTurnIsPassed | app/page.tsx:163-182 | without an opening entry, the first send passes its user turn as a one-entry history |
| HomePage.OpeningTranscript | app/page.tsx:101-143 | the apology alone when the request threw or was not `ok`; the sanitised greeting alone on success; the old transcript when the relay answered `ok` without success |
| HomePage.OpeningSilencesHistory | app/page.tsx:83-145 | unless the relay answered `ok` without success, the opening leaves one assistant entry, and every later request reaches the model with no history |
| HomePage.OpeningRecord | app/page.tsx:116-131 | a row is stored exactly when the opening succeeded; it holds the opening's fixed user text, the raw (unsanitised) greeting, phase 1, number 1, duration 0 and the id it is given, which `Start` passes as the temporary id even when the database created a session |
| HomePage.SendRecord | app/page.tsx:196-210 | a row is stored exactly when the relay answered, holding the user's text, the raw reply, phase 1 and the transcript length plus one |
| HomePage.Session.constructor | app/page.tsx:16-21 | the initial state: empty transcript and input, not loading, no session, not started, not on the client |
| HomePage.Session.Hydrate | app/page.tsx:27-29 | after hydration the page runs on the client |
| HomePage.Session.SetInput | app/page.tsx:357 | the text box holds the typed text |
| HomePage.Session.Start | app/page.tsx:47-52 | the session starts exactly once on the client; the state afterwards is that of the opening, with the database's id when there is one and the temporary id otherwise |
| HomePage.Session.InitializeSession | app/page.tsx:54-81 | the session id is the database's id when a row was created and the temporary id otherwise; then comes the opening |
| HomePage.Session.SendInitialMessage | app/page.tsx:83-145 | the opening request carries no history, and the transcript becomes the sanitised greeting, the apology, or stays the same |
| HomePage.Session.Send | app/page.tsx:147-221 | a send happens exactly when the page is on the client, the trimmed input is non-empty, nothing is in flight and there is a session; it carries the whole transcript and the count; the transcript gains the user's entry and the sanitised reply |
| HomePage.Session.Restart | app/page.tsx:230-236 | on the client, empty transcript and input, not started and no session; off the client nothing changes |
| SimulationPage.NextPhase | app/simulacion/page.tsx:287-301 | a send never moves the phase back and moves it by at most one, stays within 1 to 5, and moves only from phases 1 to 4 once enough user turns have been counted |
| SimulationPage.ScriptedPhase | app/simulacion/page.tsx:287-301 | the scripted phase is always between 1 and 5 |
| SimulationPage.NextPhaseFollowsScript | app/simulacion/page.tsx:285-306 | on script, one more user turn is one more phase, up to the fifth |
| SimulationPage.PhasePrompt | app/simulacion/page.tsx:313-318 | the prompt of a phase from 1 to 5 is that phase's template for the profile's preferred name |
| SimulationPage.TechnicalError | app/simulacion/page.tsx:226 | the technical error carries the error's message, which reads back from between its fixed parts |
| SimulationPage.HttpError | app/simulacion/page.tsx:176 | the error of a response that is not `ok` is `Error HTTP: ` then digits that read back as the status |
| SimulationPage.FailureNotice | app/simulacion/page.tsx:216 | the notice is `❌ Error: ` then a reason that is never empty: the relay's error when it gave one |
| SimulationPage.Render | app/simulacion/page.tsx:313-345 | the request's `messages` are the transcript on the wire, entry by entry in order; the user's text goes as it is; the prompt is the template of the request's phase |
| SimulationPage.OpeningEntries | app/simulacion/page.tsx:156-232 | on success the raw greeting then the connected notice; `ok` without success the failure notice alone; a throw or a response that is not `ok` the connect-failed notice then the technical error |
| SimulationPage.StartEntries | app/simulacion/page.tsx:77-233 | the start appends five or six entries, none of them the user's |
| SimulationPage.StartKeepsTurns | app/simulacion/page.tsx:77-233 | starting a session leaves the count of user turns unchanged |
| SimulationPage.StartEntriesShape | app/simulacion/page.tsx:156-232 | the session start adds an assistant entry exactly unless the relay answered `ok` without success |
| SimulationPage.OpeningSilencesHistory | app/simulacion/page.tsx:324-327 | after a start that showed an assistant entry, every request of the session reaches the model with no history |
| SimulationPage.OpeningRecord | app/simulacion/page.tsx:198-209 | a row is stored exactly when the opening succeeded; it holds the opening's fixed user text, the raw (unsanitised) greeting, phase 1, number 1, the session id it is given and the measured response time |
| SimulationPage.UserTurnsOfTurn | app/simulacion/page.tsx:285 | a send adds exactly one user turn, answered or not |
| SimulationPage.Session.constructor | app/simulacion/page.tsx:18-22 | the initial state: empty transcript, phase 1, no session, on script |
| SimulationPage.Session.SetInput | app/simulacion/page.tsx:564 | the text box holds the typed text |
| SimulationPage.Session.Mount | app/simulacion/page.tsx:71-75 | the mount adds a starting notice, then starts the session; the phase stays in step with the user turns |
| SimulationPage.Session.InitializeSession | app/simulacion/page.tsx:77-128 | the start adds its notices and the opening's entries, and sets the session id to the database's id when a row was created, the temporary id otherwise |
| SimulationPage.Session.SendInitialMessage | app/simulacion/page.tsx:131-233 | the opening asks for phase 1 with no history, and appends the greeting, the failure notice or the technical error |
| SimulationPage.Session.Send | app/simulacion/page.tsx:236-394 | a send happens exactly when the trimmed input is non-empty, nothing is in flight and there is a session; it advances the phase by the table before the prompt is built and keeps it even when the relay fails; the transcript gains the user's entry and the raw reply; the row records the phase before the send |
| SimulationPage.Session.Exchange | app/simulacion/page.tsx:255-394 | past the guards: the phase is advanced by the table and kept, the request carries the transcript with the user's entry and the new phase, the reply and the row follow only when the relay answered, and the phase stays in step with the user turns |
| SimulationPage.Session.DetectPhaseChange | app/simulacion/page.tsx:397-427 | the phase moves by the same table, applied to the transcript's user turns plus one |
| SimulationPage.Session.ManualAdvance | app/simulacion/page.tsx:482-485 | one phase on, never past the fifth |
| SimulationPage.Session.Restart | app/simulacion/page.tsx:491-496 | empty transcript and input, phase 1, then a new session start; the phase is back on script |
| SimulationPage.RestartedSessionSendsNoHistory | app/simulacion/page.tsx:324-327 | after a restart whose opening showed an assistant entry, every send reaches the model with no history |
| ConversationalPage.OpeningTranscript | app/conversational/page.tsx:55-63 | the sanitised greeting alone when the relay answered; the old transcript otherwise |
| ConversationalPage.Session.constructor | app/conversational/page.tsx:15-19 | the initial state: empty transcript and input, not loading, not started |
| ConversationalPage.Session.SetInput | app/conversational/page.tsx:213 | the text box holds the typed text |
| ConversationalPage.Session.Start | app/conversational/page.tsx:32-37 | the opening is sent exactly when the session has not started, and the session is then started |
| ConversationalPage.Session.SendInitialMessage | app/conversational/page.tsx:39-67 | the opening request carries no history; on success the greeting replaces the transcript, otherwise nothing changes |
| ConversationalPage.Session.Send | app/conversational/page.tsx:69-124 | a send happens exactly when the trimmed input is non-empty and nothing is in flight; it carries the whole transcript and the count; the transcript gains the user's entry and the sanitised reply |
| ConversationalPage.Session.Restart | app/conversational/page.tsx:244-248 | empty transcript and input, not started, so the opening runs again |

## Left out

- The Supabase database: inserting sessions and interaction rows. The
  database's answer (the id of a created session) is a parameter. Each
  stored row is returned as a value, not written.
- `fetch`, the Gemini SDK and the server clock. The fetch outcome, the
  model's reply and the ISO timestamp are parameters. The generation
  settings (`maxOutputTokens`, `temperature`) and the model name are not
  modelled.
- `Date.now()` and response times: the temporary session id and the
  elapsed milliseconds are parameters.
- Message ids and timestamps are not modelled. Neither are the debug log,
  `console` output, scrolling, focus and the rest of the rendering.
- Asynchrony. Each handler runs to completion as one step, so an
  interleaving of two in-flight requests is not modelled. React's batched
  state updates are applied in program order. The stale `messages` and
  `currentPhase` the closures read are the values before the call.
- The middleware, `components/SystemStatus.tsx` and `lib/supabase.ts`.
  These are not part of this model.
- `SystemPrompts.GetSystemPrompt`: the phase is a `real`. NaN, infinities
  and non-numeric keys are not modelled. A phase is a table key exactly
  when it is one of the integers 1 to 5.
- The relay reads the body's fields as strings or absent. A body whose
  fields have other JSON types is not modelled. The one exception is a
  missing `messages`, which fails with the TypeError message.
- `Strings.LowerChar`: case mapping covers ASCII and the Latin-1 letters,
  not the whole of Unicode.
- SimulationPage: the "Siguiente Paso" and "Reiniciar" buttons show only
  once there is a session. Their methods can be called at any time.
- `SimulationPage.Session.DetectPhaseChange`: the page never calls it. It
  is modelled as written.
- HomePage and ConversationalPage: the user's name is the constant
  `María`. On the conversational page it is state that is never set.
- Outbound requests. Each request is a transcript, the prompt's arguments
  and the user message (`Chat.Outbound`). The JSON body is obtained with the
  page's render function (`SimulationPage.Render`,
  `Chat.RenderConversation`) rather than stored in the request.
- The rewrites of `lib/textUtils.ts` are modelled one regular expression at
  a time, for the regular expressions written there. This is not a general
  regular-expression engine.
- TextUtils.StripDelimited: its own contract is only the length bound.
  What it does is stated by StripWrapped, CloseAtIsFirst and
  StripWithoutDelimiter.
- TextUtils.LinkPass: its own contract is only the length bound. What it
  does is stated by LinkReplaced and LinkPassWithoutBracket.
- TextUtils.LineStartPass: its own contract is only the length bound. What
  it does is stated by HeadingRemoved, BulletReplaced, HeadingAfterLine,
  BulletAfterLine, LineStartPassAcrossLine and the two lemmas for text it
  leaves alone.
- TextUtils.ParagraphPass: its own contract is only the length bound. Text
  without `\n` is covered by ParagraphPassNoNewline. The blank-line rewrite
  itself is not stated; after `cleanMarkdown` no `\n` is left for it.
- TextUtils.StripInline: its own contract is only the length bound. What it
  does is stated by StripInlineUnwraps.
