/**
 * The settings form: the persona choices it offers, and the three profile transforms it
 * applies (edit the name, pick a persona, save with the persona's widgets and layout).
 */
module SettingsForm {
  import opened Types

  datatype PersonaOption = PersonaOption(value: Persona, emoji: string, caption: string, description: string)

  const Personas: seq<PersonaOption> := [
    PersonaOption(Relaxed, "🌿", "Ansioso / Minimalista",
      "Prefiero no ver muchos números. Quiero saber si \"voy bien\" o no."),
    PersonaOption(Auditor, "📊", "Auditor / Controlador",
      "Necesito ver TODO el detalle. Los números exactos me dan control."),
    PersonaOption(Spender, "🎯", "Estratega / Orientado a Metas",
      "Me importa más cómo me acerco a mis objetivos que el pasado.")
  ]

  /** The save transform of handleSubmit: the persona's widget list and layout replace the configured ones. */
  function SaveProfile(profile: UserProfile): (r: UserProfile)
    ensures r.dashboardConfig.activeWidgets == PersonaWidgets(profile.preferences.persona)
    ensures r.dashboardConfig.layout == PersonaLayout(profile.preferences.persona)
    ensures r.dashboardConfig.widgetOrder == profile.dashboardConfig.widgetOrder
    ensures r.dashboardConfig.defaultTimeRange == profile.dashboardConfig.defaultTimeRange
    ensures r.dashboardConfig.autoRefresh == profile.dashboardConfig.autoRefresh
    ensures r.dashboardConfig.refreshIntervalSeconds == profile.dashboardConfig.refreshIntervalSeconds
    ensures r.id == profile.id && r.name == profile.name && r.preferences == profile.preferences
    ensures r.isOnboarded == profile.isOnboarded
  {
    var persona := profile.preferences.persona;
    profile.(dashboardConfig := profile.dashboardConfig.(
      activeWidgets := PersonaWidgets(persona), layout := PersonaLayout(persona)))
  }

  /** The name input: only the name changes. */
  function EditName(profile: UserProfile, name: string): (r: UserProfile)
    ensures r.name == name
    ensures r.id == profile.id && r.preferences == profile.preferences
    ensures r.dashboardConfig == profile.dashboardConfig && r.isOnboarded == profile.isOnboarded
  {
    profile.(name := name)
  }

  /** A persona button: the preferences become `{persona}`; name and dashboard config stay. */
  function SelectPersona(profile: UserProfile, persona: Persona): (r: UserProfile)
    ensures r.preferences == UserPreferences(persona)
    ensures r.id == profile.id && r.name == profile.name
    ensures r.dashboardConfig == profile.dashboardConfig && r.isOnboarded == profile.isOnboarded
  {
    profile.(preferences := UserPreferences(persona))
  }

  function OfferedPersonas(options: seq<PersonaOption>): (r: seq<Persona>)
    ensures |r| == |options|
    ensures forall i :: 0 <= i < |options| ==> r[i] == options[i].value
  {
    if options == [] then [] else [options[0].value] + OfferedPersonas(options[1..])
  }

  /** The form offers each persona exactly once, captioned with that persona's label. */
  lemma PersonasComplete()
    ensures OfferedPersonas(Personas) == [Relaxed, Auditor, Spender]
    ensures NoDuplicates(OfferedPersonas(Personas))
    ensures forall p: Persona :: p in OfferedPersonas(Personas)
    ensures forall i :: 0 <= i < |Personas| ==> Personas[i].caption == PersonaLabel(Personas[i].value)
  {
    var offered := OfferedPersonas(Personas);
    assert offered == [Relaxed, Auditor, Spender];
    forall p: Persona ensures p in offered {
      match p
      case Relaxed => assert offered[0] == p;
      case Auditor => assert offered[1] == p;
      case Spender => assert offered[2] == p;
    }
  }

  /** The saved widget list depends on the persona alone, never on the widgets configured before. */
  lemma SaveIgnoresPreviousWidgets(p: UserProfile, q: UserProfile)
    requires p.preferences == q.preferences
    ensures SaveProfile(p).dashboardConfig.activeWidgets == SaveProfile(q).dashboardConfig.activeWidgets
    ensures SaveProfile(p).dashboardConfig.layout == SaveProfile(q).dashboardConfig.layout
  {
  }

  /** Saving twice is saving once. */
  lemma SaveIdempotent(profile: UserProfile)
    ensures SaveProfile(SaveProfile(profile)) == SaveProfile(profile)
  {
  }

  /** Picking a persona and saving installs that persona's table entries, whatever was chosen before. */
  lemma SelectThenSave(profile: UserProfile, persona: Persona)
    ensures SaveProfile(SelectPersona(profile, persona)).dashboardConfig.activeWidgets == PersonaWidgets(persona)
    ensures SaveProfile(SelectPersona(profile, persona)).dashboardConfig.layout == PersonaLayout(persona)
    ensures SaveProfile(SelectPersona(profile, persona)).name == profile.name
  {
  }

  /** Editing the name and saving commute. */
  lemma EditNameCommutesWithSave(profile: UserProfile, name: string)
    ensures SaveProfile(EditName(profile, name)) == EditName(SaveProfile(profile), name)
  {
  }
}
