/**
 * The prompt builders handed to the dashboard generator: a system prompt that depends on
 * the user's name, persona and active widgets, and a user prompt that states how many
 * transactions follow. The long rule prose between the sections is not modelled.
 */
module Prompts {
  import opened Types
  import Text

  /** One row of the persona metaphor table: its heading, the tone and the preferred component. */
  datatype Metaphor = Metaphor(metaphor: string, tone: string, component: string)

  /** The metaphor table is a total lookup over the three personas. */
  function PersonaMetaphor(p: Persona): (m: Metaphor)
    ensures m.tone != "" && m.component != ""
  {
    match p
    case Relaxed => Metaphor(
      "🌿 SALUD Y BIENESTAR (Reducción de Ansiedad Cognitiva)",
      "Empático, tranquilizador, protector",
      "WellnessCard - Tarjeta grande con padding generoso, tipografía Sans-Serif redondeada")
    case Auditor => Metaphor(
      "📊 CENTRO DE COMANDO / TERMINAL (Eficiencia y Control Total)",
      "Técnico, directo, objetivo, sin adornos",
      "TransactionLedger - Tabla Excel con zebra stripes, columnas ordenables")
    case Spender => Metaphor(
      "🎮 GAMIFICACIÓN / VIDEOJUEGO (Motivación hacia Metas)",
      "Motivacional, coach, orientado a acción",
      "GoalProgress - Anillos que se llenan, progreso visual tipo \"race\"")
  }

  /** Lines "1. w1", "2. w2", ... numbered from `first`. */
  function NumberedLines(ws: seq<WidgetType>, first: nat): seq<string>
  {
    if ws == [] then [] else [Text.NatToString(first) + ". " + WidgetName(ws[0])] + NumberedLines(ws[1..], first + 1)
  }

  /** `activeWidgets.map((w, i) => `${i + 1}. ${w}`).join('\n')`. */
  function WidgetSection(ws: seq<WidgetType>): string
  {
    Text.Join(NumberedLines(ws, 1), '\n')
  }

  const Preamble: string :=
    "\nEres el motor de **Generative UI** de FinaFlow. Generas NO SOLO datos, sino la REPRESENTACIÓN VISUAL correcta.\n\n# PERFIL DEL USUARIO: "
  const ArchetypeHeading: string := "\n## 🎭 ARQUETIPO: "

  function MetaphorBlock(m: Metaphor): string
  {
    "\n\n### " + m.metaphor + "\n**Tono de Comunicación:** " + m.tone
    + "\n\n### 🎨 COMPONENTE PREFERIDO:\n" + m.component + "\n\n# WIDGETS ACTIVOS (Orden jerárquico)\n"
  }

  /** Everything after the archetype line: the metaphor block, the widget section and the task line. */
  function PromptBody(persona: Persona, ws: seq<WidgetType>): string
  {
    MetaphorBlock(PersonaMetaphor(persona)) + WidgetSection(ws)
    + "\n\n# REGLAS CRÍTICAS DE GENERACIÓN POR PERFIL\n\n# TU TAREA\nAnaliza los datos financieros proporcionados y genera el contenido ADAPTADO al perfil "
    + PersonaName(persona) + ".\n"
  }

  /** buildDashboardSystemPrompt, with the per-persona rule prose reduced to its heading and task line. */
  function SystemPrompt(profile: UserProfile): string
  {
    Preamble + profile.name + ArchetypeHeading + Text.AsciiUpper(PersonaName(profile.preferences.persona))
    + PromptBody(profile.preferences.persona, profile.dashboardConfig.activeWidgets)
  }

  /** buildDashboardUserPrompt; `JSON.stringify` of the two lists is given as uninterpreted functions. */
  function UserPrompt(
    transactions: seq<Transaction>, budgets: seq<Budget>,
    stringifyTransactions: seq<Transaction> -> string, stringifyBudgets: seq<Budget> -> string): string
  {
    UserPromptHead + Text.NatToString(|transactions|) + ")\n" + stringifyTransactions(transactions)
    + "\n\nPRESUPUESTOS\n" + stringifyBudgets(budgets)
    + "\n\nIMPORTANTE: Respeta la metáfora visual del perfil del usuario al generar los datos.\n"
  }

  const UserPromptHead: string := "\nGenera insights personalizados basándote en estos datos:\n\nTRANSACCIONES (Últimas "

  lemma {:induction false} NumberedLinesAt(ws: seq<WidgetType>, first: nat)
    ensures |NumberedLines(ws, first)| == |ws|
    ensures forall i :: 0 <= i < |ws| ==>
      NumberedLines(ws, first)[i] == Text.NatToString(first + i) + ". " + WidgetName(ws[i])
  {
    if ws != [] {
      NumberedLinesAt(ws[1..], first + 1);
    }
  }

  /**
   * The widget section has one line per active widget, in order; line i reads "i+1. w".
   * Splitting the section at newlines recovers exactly those lines; no widgets, no text.
   */
  lemma WidgetSectionLines(ws: seq<WidgetType>)
    ensures ws == [] ==> WidgetSection(ws) == ""
    ensures ws != [] ==>
      var lines := Text.Split(WidgetSection(ws), '\n');
      && |lines| == |ws|
      && forall i :: 0 <= i < |ws| ==> lines[i] == Text.NatToString(i + 1) + ". " + WidgetName(ws[i])
  {
    NumberedLinesAt(ws, 1);
    var lines := NumberedLines(ws, 1);
    if ws != [] {
      forall i | 0 <= i < |lines| ensures '\n' !in lines[i] {
        WidgetNamesDistinct(ws[i], ws[i]);
      }
      Text.SplitJoin(lines, '\n');
    }
  }

  /** Where each part of a four-part concatenation sits. */
  lemma ConcatParts(a: string, b: string, c: string, d: string, e: string)
    ensures var s := a + b + c + d + e; var i, j, k := |a|, |a| + |b|, |a| + |b| + |c|;
      s[..i] == a && s[i..j] == b && s[j..k] == c && s[k..k + |d|] == d
  {
    var s := a + b + c + d + e;
    assert s == a + (b + (c + (d + e)));
  }

  /** The system prompt embeds the user's name right after the preamble, followed by the upper-cased persona. */
  lemma SystemPromptEmbedsNameAndPersona(profile: UserProfile)
    ensures var s := SystemPrompt(profile); var k := |Preamble| + |profile.name|;
      && s[..|Preamble|] == Preamble
      && s[|Preamble|..k] == profile.name
      && s[k..k + |ArchetypeHeading|] == ArchetypeHeading
      && s[k + |ArchetypeHeading|..k + |ArchetypeHeading| + |PersonaName(profile.preferences.persona)|]
         == Text.AsciiUpper(PersonaName(profile.preferences.persona))
  {
    var up := Text.AsciiUpper(PersonaName(profile.preferences.persona));
    var rest := PromptBody(profile.preferences.persona, profile.dashboardConfig.activeWidgets);
    ConcatParts(Preamble, profile.name, ArchetypeHeading, up, rest);
  }

  /** The archetype line shows the persona's name in capitals. */
  lemma ArchetypeUpperCased(p: Persona)
    ensures Text.AsciiUpper(PersonaName(p)) == match p
      case Relaxed => "RELAXED" case Auditor => "AUDITOR" case Spender => "SPENDER"
  {
    var name := PersonaName(p);
    var up := match p case Relaxed => "RELAXED" case Auditor => "AUDITOR" case Spender => "SPENDER";
    assert |name| == |up| == 7;
    forall i | 0 <= i < 7 ensures Text.AsciiUpper(name)[i] == up[i] {
      assert 'a' <= name[i] <= 'z';
    }
  }

  /** The system prompt is a function of the name, the persona and the active widgets only. */
  lemma SystemPromptInputs(p: UserProfile, q: UserProfile)
    requires p.name == q.name && p.preferences.persona == q.preferences.persona
    requires p.dashboardConfig.activeWidgets == q.dashboardConfig.activeWidgets
    ensures SystemPrompt(p) == SystemPrompt(q)
  {
  }

  /** The count in the user prompt's header reads back as the number of transactions. */
  lemma UserPromptStatesCount(
    transactions: seq<Transaction>, budgets: seq<Budget>,
    st: seq<Transaction> -> string, sb: seq<Budget> -> string)
    ensures var s := UserPrompt(transactions, budgets, st, sb); var n := Text.NatToString(|transactions|);
      && s[..|UserPromptHead|] == UserPromptHead
      && s[|UserPromptHead|..|UserPromptHead| + |n|] == n
      && s[|UserPromptHead| + |n|] == ')'
      && Text.ParseDigits(s[|UserPromptHead|..|UserPromptHead| + |n|]) == |transactions|
  {
    var n := Text.NatToString(|transactions|);
    var rest := ")\n" + st(transactions) + "\n\nPRESUPUESTOS\n" + sb(budgets)
      + "\n\nIMPORTANTE: Respeta la metáfora visual del perfil del usuario al generar los datos.\n";
    assert UserPrompt(transactions, budgets, st, sb) == UserPromptHead + n + rest;
    Text.ParseNatToString(|transactions|);
  }

  /** Different personas get different metaphor rows. */
  lemma MetaphorsDistinct(p: Persona, q: Persona)
    ensures PersonaMetaphor(p).tone == PersonaMetaphor(q).tone <==> p == q
  {
    var r := PersonaMetaphor(Relaxed).tone;
    var a := PersonaMetaphor(Auditor).tone;
    var s := PersonaMetaphor(Spender).tone;
    assert r[0] != a[0] && r[0] != s[0] && a[0] != s[0];
  }
}
