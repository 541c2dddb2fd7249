/**
  The free-conversation prompt and the keyword heuristic of
  lib/conversationalPrompts.ts. The prompt interpolates the user's name and
  role into one fixed template; `shouldOfferTransition` lower-cases a text and
  tries four keyword rules in order, returning the label of the first that
  fires.
 */
module ConversationalPrompts {
  import opened Wrappers
  import opened Strings

  /** The default arguments of `getConversationalPrompt`. */
  const DefaultUserName: string := "María"
  const DefaultUserCargo: string := "Coordinadora Académica"

  /** The template around the interpolated `${userName}, ${userCargo}`. */
  const PromptHead: string := @"Eres Alex, un asistente educativo especializado en inteligencia artificial para comunicación académica.

INFORMACIÓN BÁSICA (no repitas si ya se estableció):
- Sesión 1: Actividad de Entrada sobre IA para coordinadores educativos
- Usuario: "

  const PromptTail: string := @"
- Objetivo: Enseñar prompts efectivos para correos de estudiantes

REGLAS CRÍTICAS DE CONVERSACIÓN:
- NUNCA repitas información ya establecida en conversaciones anteriores
- RESPONDE DIRECTAMENTE a lo que el usuario acaba de decir
- MANTÉN el contexto completo de toda la conversación
- NO te presentes de nuevo si ya lo hiciste
- NO expliques el objetivo de la sesión si ya se mencionó
- PROGRESA naturalmente desde donde quedó la conversación anterior

TU PERSONALIDAD:
- Conversacional y natural, como hablar con un colega
- Empático y paciente
- Directo y útil
- Sin repeticiones innecesarias

CÓMO RESPONDER:
1. Lee TODO el historial de la conversación
2. Responde específicamente al último mensaje del usuario
3. Avanza la conversación de forma natural
4. Solo introduce nuevos conceptos cuando sea apropiado
5. Si el usuario pregunta algo específico, responde ESO primero

FLUJO NATURAL (sin forzar):
- Si es el primer mensaje: Saluda y pregunta nombre preferido
- Si ya sabes su nombre: Úsalo y continúa naturalmente  
- Si pregunta sobre la sesión: Explica brevemente
- Si está listo para conceptos: Explica prompts efectivos
- Si quiere práctica: Presenta el escenario del estudiante
- Si necesita ayuda: Guía la creación del prompt

ESCENARIO PARA PRÁCTICA (cuando sea natural mencionarlo):
""Un estudiante te escribió preocupado porque no entiende la metodología de su profesor. Las explicaciones son muy rápidas y no sabe cómo pedir ayuda sin parecer desatento.""

RESPONDE:
- Directamente al punto
- Sin repetir lo ya dicho
- Manteniendo el flujo natural
- Como si fuera una conversación real entre colegas
- SIN formato markdown (no uses **, *, _, etc.)
- Solo texto plano y natural para chat"

  /** `getConversationalPrompt(userName, userCargo)`: the template with the
      user line filled in. Callers that omit the arguments pass the defaults. */
  function GetConversationalPrompt(userName: string, userCargo: string): (r: string)
    ensures |r| == |PromptHead| + |userName| + 2 + |userCargo| + |PromptTail|
    ensures r[..|PromptHead|] == PromptHead
    ensures r[|r| - |PromptTail|..] == PromptTail
    ensures r[|PromptHead|..|r| - |PromptTail|] == UserLine(userName, userCargo)
  {
    Framed(PromptHead, UserLine(userName, userCargo), PromptTail);
    PromptHead + UserLine(userName, userCargo) + PromptTail
  }

  /** The middle of a framed text is what was put between the frame. */
  lemma Framed(h: string, m: string, t: string)
    ensures var r := h + m + t;
      && |r| == |h| + |m| + |t| && r[..|h|] == h && r[|r| - |t|..] == t
      && r[|h|..|r| - |t|] == m
  {
  }

  /** The interpolated `${userName}, ${userCargo}`. */
  function UserLine(userName: string, userCargo: string): string {
    userName + ", " + userCargo
  }

  /** A user line `name, cargo` placed between any two texts can be found in
      the result, and so can each of its halves. */
  lemma {:induction false} UserLineInfix(h: string, name: string, cargo: string, t: string)
    ensures Contains(h + UserLine(name, cargo) + t, UserLine(name, cargo))
    ensures Contains(h + UserLine(name, cargo) + t, name)
    ensures Contains(h + UserLine(name, cargo) + t, cargo)
  {
    var r := h + UserLine(name, cargo) + t;
    ContainsInfix(h, UserLine(name, cargo), t);
    assert r == h + name + (", " + cargo + t);
    ContainsInfix(h, name, ", " + cargo + t);
    assert r == (h + name + ", ") + cargo + t;
    ContainsInfix(h + name + ", ", cargo, t);
  }

  /** The prompt carries the user's name and role, side by side as the user line. */
  lemma {:induction false} PromptNamesUser(userName: string, userCargo: string)
    ensures Contains(GetConversationalPrompt(userName, userCargo), UserLine(userName, userCargo))
    ensures Contains(GetConversationalPrompt(userName, userCargo), userName)
    ensures Contains(GetConversationalPrompt(userName, userCargo), userCargo)
  {
    UserLineInfix(PromptHead, userName, userCargo, PromptTail);
  }

  /** The four labels `shouldOfferTransition` can return. */
  const Introduccion: string := "introducción"
  const Conceptos: string := "conceptos"
  const Practica: string := "práctica"
  const Aplicacion: string := "aplicación"

  /** Rule 1: the user gave a preferred name and has not talked about prompts. */
  predicate IntroRule(lower: string) {
    Contains(lower, "nombre") && Contains(lower, "prefiero") && !Contains(lower, "prompt")
  }

  /** Rule 2: an agreement word together with "sesión". */
  predicate ConceptRule(lower: string) {
    (Contains(lower, "entiendo") || Contains(lower, "claro") || Contains(lower, "sí"))
    && Contains(lower, "sesión")
  }

  /** Rule 3: a concept word together with an agreement word. */
  predicate PracticeRule(lower: string) {
    (Contains(lower, "claridad") || Contains(lower, "contexto") || Contains(lower, "prompt"))
    && (Contains(lower, "entiendo") || Contains(lower, "claro"))
  }

  /** Rule 4: the user asks to practise or for an example. */
  predicate ApplyRule(lower: string) {
    Contains(lower, "practicar") || Contains(lower, "ejemplo") || Contains(lower, "caso")
  }

  /** `shouldOfferTransition(conversation)`: the label of the first rule that
      fires on the lower-cased text, or `null` (here `None`). */
  function ShouldOfferTransition(conversation: string): (r: Option<string>)
    ensures r.Some? ==> r.value in {Introduccion, Conceptos, Practica, Aplicacion}
    ensures r.None? <==> !IntroRule(ToLower(conversation)) && !ConceptRule(ToLower(conversation))
                         && !PracticeRule(ToLower(conversation)) && !ApplyRule(ToLower(conversation))
  {
    var lower := ToLower(conversation);
    if IntroRule(lower) then Some(Introduccion)
    else if ConceptRule(lower) then Some(Conceptos)
    else if PracticeRule(lower) then Some(Practica)
    else if ApplyRule(lower) then Some(Aplicacion)
    else None
  }

  /** Each label is returned exactly when its rule fires and no earlier rule
      does: the rules are tried in a fixed priority order. */
  lemma {:induction false} TransitionPriority(conversation: string)
    ensures var lower := ToLower(conversation);
      && (ShouldOfferTransition(conversation) == Some(Introduccion) <==> IntroRule(lower))
      && (ShouldOfferTransition(conversation) == Some(Conceptos) <==> !IntroRule(lower) && ConceptRule(lower))
      && (ShouldOfferTransition(conversation) == Some(Practica) <==>
            !IntroRule(lower) && !ConceptRule(lower) && PracticeRule(lower))
      && (ShouldOfferTransition(conversation) == Some(Aplicacion) <==>
            !IntroRule(lower) && !ConceptRule(lower) && !PracticeRule(lower) && ApplyRule(lower))
  {
    assert Introduccion != Conceptos && Introduccion != Practica && Introduccion != Aplicacion;
    assert Conceptos != Practica && Conceptos != Aplicacion && Practica != Aplicacion;
  }

  /** The heuristic ignores case: a lower-cased text gets the same label. */
  lemma {:induction false} TransitionIgnoresCase(conversation: string)
    ensures ShouldOfferTransition(ToLower(conversation)) == ShouldOfferTransition(conversation)
  {
    ToLowerIdempotent(conversation);
  }

  /** A text mentioning prompts is never classed as an introduction. */
  lemma {:induction false} PromptTalkIsNotIntroduction(a: string, b: string)
    ensures ShouldOfferTransition(a + "prompt" + b) != Some(Introduccion)
  {
    var c := a + "prompt" + b;
    var lower := ToLower(c);
    assert lower == ToLower(a) + "prompt" + ToLower(b);
    ContainsInfix(ToLower(a), "prompt", ToLower(b));
    TransitionPriority(c);
  }

  /** Agreement together with "sesión" shadows the practice rule: a text that
      also mentions prompts, and so satisfies rule 3, is still offered the
      concepts stage. */
  lemma {:induction false} ConceptsShadowPractice(conversation: string)
    requires var lower := ToLower(conversation);
      Contains(lower, "entiendo") && Contains(lower, "sesión") && Contains(lower, "prompt")
    ensures PracticeRule(ToLower(conversation))
    ensures ShouldOfferTransition(conversation) == Some(Conceptos)
  {
  }
}
