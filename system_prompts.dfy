/**
  The phase prompts of lib/systemPrompts.ts: `getSystemPrompt` looks the phase
  up in a table of five fixed Spanish templates and falls back to the first.
  Only the first template interpolates the user's name; the role label is never
  used and the gender salutation is computed but never interpolated.
 */
module SystemPrompts {
  import opened Strings

  /** `saludoGenero`: the salutation matching the gender label. */
  function SaludoGenero(userGenero: string): (s: string)
    ensures s == "estimada" <==> userGenero == "femenino"
    ensures s == "estimado" <==> userGenero == "masculino"
    ensures s == "estimada" || s == "estimado" || s == "estimade"
  {
    if userGenero == "femenino" then "estimada"
    else if userGenero == "masculino" then "estimado"
    else "estimade"
  }

  /** Phase 1, greeting: the text before and after the user's name. */
  const Phase1Head: string := "Eres Alex, " + @"un asistente educativo especializado en inteligencia artificial para comunicación académica. 

Saluda cordialmente a "

  const Phase1Tail: string := @" y preséntate brevemente. Luego pregúntale con qué nombre prefiere que le llames para personalizar la sesión. 

Mantén un tono profesional pero cercano. No incluyas instrucciones técnicas ni ejemplos de implementación en tu respuesta.

Responde de forma natural y conversacional."

  /** The opening words phases 2 to 5 share. Each template below is written
      as its first words and the rest, so that the words telling the
      templates apart are short literals. */
  const Lead: string := "Continúas siendo Alex. "

  /** Phase 2, the checklist of an effective prompt. */
  const Phase2: string := Lead + "El usuario te" + @" ha dicho su nombre preferido.

Agradece por el nombre y úsalo. Explica brevemente que esta es la ""Sesión 1: Actividad de Entrada"" donde aprenderán a usar inteligencia artificial para comunicación académica.

Luego explica directamente las características de un prompt efectivo:
- Claridad: ser específico y directo
- Contexto: proporcionar información relevante  
- Objetivo: definir qué se busca
- Formato: especificar tipo de respuesta
- Tono: indicar estilo de comunicación

Menciona que el objetivo específico es crear un correo para responder a un estudiante que consulta sobre metodología del profesor.

Responde de forma natural, sin instrucciones técnicas."

  /** Phase 3, the practice scenario. */
  const Phase3: string := Lead + "El usuario ya" + @" conoce las características de un prompt efectivo.

Ahora presenta el escenario práctico: ""Un estudiante te ha enviado un correo consultando sobre la metodología de su profesor porque siente que no entiende bien las clases.""

Pide al usuario que formule un prompt para generar un correo de respuesta que sea empático, profesional, que ofrezca soluciones concretas y mantenga la autoridad académica.

Guía la construcción del prompt paso a paso si es necesario."

  /** Phase 4, feedback on the user's prompt. */
  const Phase4: string := Lead + "El usuario ha" + @" formulado un prompt.

Evalúa el prompt propuesto y ofrece retroalimentación constructiva. Si está bien estructurado, felicítalo. Si necesita mejoras, sugiere ajustes específicos.

Una vez que el prompt esté bien formulado, úsalo para generar un ejemplo de correo de respuesta al estudiante.

Responde de forma natural y educativa."

  /** Phase 5, closing. */
  const Phase5: string := Lead + "Es momento" + @" de cerrar la sesión.

Revisa lo trabajado y destaca los aspectos positivos del aprendizaje. Pregunta qué fue lo más útil y cómo pueden aplicar estos conocimientos sobre prompts efectivos en su trabajo diario.

Ofrece consejos finales para mejorar la interacción con IA y cierra de manera motivadora.

Responde de forma natural y alentadora."

  /** The `prompts` table: the template of each phase 1 to 5. */
  function PhaseTemplate(phase: int, userName: string): (r: string)
    requires 1 <= phase <= 5
    ensures phase == 1 ==> Contains(r, userName)
  {
    match phase
    case 1 => ContainsInfix(Phase1Head, userName, Phase1Tail); Phase1Head + userName + Phase1Tail
    case 2 => Phase2
    case 3 => Phase3
    case 4 => Phase4
    case 5 => Phase5
  }

  /** A phase number is a table key when it is one of the integers 1 to 5
      (the number is turned into the property name "1" ... "5"). */
  predicate IsPhaseKey(fase: real) {
    fase == 1.0 || fase == 2.0 || fase == 3.0 || fase == 4.0 || fase == 5.0
  }

  /** `getSystemPrompt(fase, userName, userCargo, userGenero)`: the table
      entry of `fase`, or the phase 1 entry when there is none. The
      salutation is computed and then left unused, as in the source. */
  function GetSystemPrompt(fase: real, userName: string, userCargo: string, userGenero: string): (r: string)
    ensures r != []
    ensures exists p :: 1 <= p <= 5 && r == PhaseTemplate(p, userName)
  {
    var saludoGenero := SaludoGenero(userGenero);
    if IsPhaseKey(fase) then PhaseTemplate(fase.Floor, userName)
    else PhaseTemplate(1, userName)
  }

  /** For a phase from 1 to 5 the prompt is exactly that phase's template. */
  lemma {:induction false} PromptOfPhase(phase: int, userName: string, userCargo: string, userGenero: string)
    requires 1 <= phase <= 5
    ensures GetSystemPrompt(phase as real, userName, userCargo, userGenero) == PhaseTemplate(phase, userName)
  {
    assert (phase as real).Floor == phase;
  }

  /** Any other phase number (0, 6, negative, fractional) gets the phase 1 prompt. */
  lemma {:induction false} FallbackIsPhaseOne(fase: real, userName: string, userCargo: string, userGenero: string)
    requires !IsPhaseKey(fase)
    ensures GetSystemPrompt(fase, userName, userCargo, userGenero)
         == GetSystemPrompt(1.0, userName, userCargo, userGenero)
  {
  }

  /** The role label and the gender label never change the prompt. */
  lemma {:induction false} IgnoresCargoAndGenero(fase: real, userName: string,
                                                 cargo1: string, genero1: string,
                                                 cargo2: string, genero2: string)
    ensures GetSystemPrompt(fase, userName, cargo1, genero1)
         == GetSystemPrompt(fase, userName, cargo2, genero2)
  {
  }

  /** Phases 2 to 5 are constant texts: no argument changes them. */
  lemma {:induction false} LaterPhasesAreConstant(phase: int,
                                                  name1: string, cargo1: string, genero1: string,
                                                  name2: string, cargo2: string, genero2: string)
    requires 2 <= phase <= 5
    ensures GetSystemPrompt(phase as real, name1, cargo1, genero1)
         == GetSystemPrompt(phase as real, name2, cargo2, genero2)
  {
    PromptOfPhase(phase, name1, cargo1, genero1);
    PromptOfPhase(phase, name2, cargo2, genero2);
  }

  /** What tells the templates apart: the first character, then the
      characters at indices 24 and 34 ("Continúas siendo Alex. El usuario te",
      "... ya", "... ha", "... Es momento"). */
  lemma {:induction false} TemplateMarks()
    ensures Phase1Head[0] == 'E'
    ensures Phase2[0] == 'C' && Phase3[0] == 'C' && Phase4[0] == 'C' && Phase5[0] == 'C'
    ensures Phase2[24] == 'l' && Phase3[24] == 'l' && Phase4[24] == 'l' && Phase5[24] == 's'
    ensures Phase2[34] == 't' && Phase3[34] == 'y' && Phase4[34] == 'h'
  {
  }

  /** Three characters tell the templates apart: the first (phase 1 only
      opens with `E`), the 25th (phase 5 only has `s` there among the later
      phases) and the 35th (distinct among phases 2 to 4). */
  lemma {:induction false} PhaseMarks(p: int, name: string)
    requires 1 <= p <= 5
    ensures var t := PhaseTemplate(p, name);
      && |t| > 34
      && (t[0] == 'E' <==> p == 1)
      && (p != 1 ==> (t[24] == 's' <==> p == 5))
      && (2 <= p <= 4 ==> t[34] == "tyh"[p - 2])
  {
    TemplateMarks();
    if p == 1 {
      var t := Phase1Head + name + Phase1Tail;
      assert t[0] == Phase1Head[0];
    }
  }

  /** The five templates are pairwise distinct, whatever the name: a prompt
      for a phase from 1 to 5 tells which phase it was built for. */
  lemma {:induction false} PromptIdentifiesPhase(p1: int, name1: string, p2: int, name2: string)
    requires 1 <= p1 <= 5 && 1 <= p2 <= 5
    requires PhaseTemplate(p1, name1) == PhaseTemplate(p2, name2)
    ensures p1 == p2
  {
    PhaseMarks(p1, name1);
    PhaseMarks(p2, name2);
    var t := PhaseTemplate(p1, name1);
    if p1 != 1 && p1 != 5 && p2 != 1 && p2 != 5 {
      assert "tyh"[p1 - 2] == t[34] == "tyh"[p2 - 2];
    }
  }
}
