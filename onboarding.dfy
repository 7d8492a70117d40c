/**
 * The onboarding page: a three-step machine over the name, persona, widget selection and
 * layout being edited, the profile update it writes on completion, and the step texts.
 */
module Onboarding {
  import opened Wrappers
  import opened Types
  import Text
  import WidgetSelector
  import ConfigContext

  /** handleComplete's update: name, persona over the other preferences, widgets as both lists, layout, onboarded. */
  function CompletionUpdate(base: UserProfile, name: string, persona: Persona, selected: seq<WidgetType>, layout: Layout)
    : ConfigContext.ProfileUpdate
  {
    ConfigContext.ProfileUpdate(
      None, Some(name), Some(base.preferences.(persona := persona)),
      Some(base.dashboardConfig.(activeWidgets := selected, widgetOrder := selected, layout := layout)),
      Some(true))
  }

  /** What completing writes into the profile; the id and the remaining config fields are kept. */
  lemma CompletionWrites(base: UserProfile, name: string, persona: Persona, selected: seq<WidgetType>, layout: Layout)
    ensures var r := ConfigContext.MergeProfile(base, CompletionUpdate(base, name, persona, selected, layout));
      && r.id == base.id && r.name == name && r.preferences.persona == persona && r.isOnboarded
      && r.dashboardConfig.activeWidgets == selected && r.dashboardConfig.widgetOrder == selected
      && r.dashboardConfig.layout == layout
      && r.dashboardConfig.defaultTimeRange == base.dashboardConfig.defaultTimeRange
      && r.dashboardConfig.autoRefresh == base.dashboardConfig.autoRefresh
      && r.dashboardConfig.refreshIntervalSeconds == base.dashboardConfig.refreshIntervalSeconds
  {
  }

  class OnboardingPage {
    var step: int
    var name: string
    var persona: Persona
    var selectedWidgets: seq<WidgetType>
    var layout: Layout
    /** Whether the page has navigated to the dashboard. */
    var left: bool

    /**
     * The step stays in 1..3, and each later step was reached through its guard: past
     * step 1 the name is not blank (it can only be edited on step 1), and on step 3 at least
     * one widget is selected (the selection can only be edited on step 2).
     */
    predicate Valid()
      reads this
    {
      && 1 <= step <= 3
      && (step >= 2 ==> !Text.IsBlank(name))
      && (step == 3 ==> |selectedWidgets| > 0)
    }

    constructor (profile: UserProfile)
      ensures Valid() && !left
      ensures step == 1 && name == profile.name && persona == profile.preferences.persona
      ensures selectedWidgets == profile.dashboardConfig.activeWidgets && layout == profile.dashboardConfig.layout
    {
      step := 1;
      name := profile.name;
      persona := profile.preferences.persona;
      selectedWidgets := profile.dashboardConfig.activeWidgets;
      layout := profile.dashboardConfig.layout;
      left := false;
    }

    method EditName(newName: string)
      requires Valid() && step == 1
      modifies this
      ensures Valid() && name == newName
      ensures step == old(step) && persona == old(persona) && selectedWidgets == old(selectedWidgets)
      ensures layout == old(layout) && left == old(left)
    {
      name := newName;
    }

    method ChoosePersona(p: Persona)
      requires Valid() && step == 1
      modifies this
      ensures Valid() && persona == p
      ensures step == old(step) && name == old(name) && selectedWidgets == old(selectedWidgets)
      ensures layout == old(layout) && left == old(left)
    {
      persona := p;
    }

    /** Step 1's Continue, disabled while the name is blank. */
    method ContinueFromName()
      requires Valid() && step == 1
      modifies this
      ensures Valid()
      ensures step == if Text.IsBlank(name) then 1 else 2
      ensures name == old(name) && persona == old(persona) && selectedWidgets == old(selectedWidgets)
      ensures layout == old(layout) && left == old(left)
    {
      if !Text.IsBlank(name) {
        step := 2;
      }
    }

    /** A click in the widget selector of step 2. */
    method ToggleWidget(w: WidgetType)
      requires Valid() && step == 2
      modifies this
      ensures Valid()
      ensures selectedWidgets == WidgetSelector.Toggle(old(selectedWidgets), w)
      ensures step == old(step) && name == old(name) && persona == old(persona)
      ensures layout == old(layout) && left == old(left)
    {
      selectedWidgets := WidgetSelector.Toggle(selectedWidgets, w);
    }

    method BackToName()
      requires Valid() && step == 2
      modifies this
      ensures Valid() && step == 1
      ensures name == old(name) && persona == old(persona) && selectedWidgets == old(selectedWidgets)
      ensures layout == old(layout) && left == old(left)
    {
      step := 1;
    }

    /** Step 2's Continue, disabled while no widget is selected. */
    method ContinueFromWidgets()
      requires Valid() && step == 2
      modifies this
      ensures Valid()
      ensures step == if |selectedWidgets| == 0 then 2 else 3
      ensures name == old(name) && persona == old(persona) && selectedWidgets == old(selectedWidgets)
      ensures layout == old(layout) && left == old(left)
    {
      if |selectedWidgets| != 0 {
        step := 3;
      }
    }

    method ChooseLayout(l: Layout)
      requires Valid() && step == 3
      modifies this
      ensures Valid() && layout == l
      ensures step == old(step) && name == old(name) && persona == old(persona)
      ensures selectedWidgets == old(selectedWidgets) && left == old(left)
    {
      layout := l;
    }

    method BackToWidgets()
      requires Valid() && step == 3
      modifies this
      ensures Valid() && step == 2
      ensures name == old(name) && persona == old(persona) && selectedWidgets == old(selectedWidgets)
      ensures layout == old(layout) && left == old(left)
    {
      step := 2;
    }

    /**
     * Complete (step 3 only): hand the context the completion update, built over `current`, the
     * profile the context holds at that moment, and leave. Thanks to the guards, the name
     * written is not blank and the widget list is not empty.
     */
    method Complete(current: UserProfile) returns (update: ConfigContext.ProfileUpdate)
      requires Valid() && step == 3
      modifies this
      ensures left && step == old(step)
      ensures name == old(name) && persona == old(persona) && selectedWidgets == old(selectedWidgets)
      ensures layout == old(layout)
      ensures update == CompletionUpdate(current, old(name), old(persona), old(selectedWidgets), old(layout))
      ensures !Text.IsBlank(update.name.value) && |update.dashboardConfig.value.activeWidgets| > 0
    {
      update := CompletionUpdate(current, name, persona, selectedWidgets, layout);
      left := true;
    }

    /** Skip, offered on step 1 only: leave without any profile update. */
    method Skip()
      requires Valid() && step == 1
      modifies this
      ensures left
      ensures step == old(step) && name == old(name) && persona == old(persona)
      ensures selectedWidgets == old(selectedWidgets) && layout == old(layout)
    {
      left := true;
    }
  }

  /** The header's "N paso(s)" text. */
  function RemainingSteps(step: int): string
  {
    (if step == 1 then "3" else if step == 2 then "2" else "1") + " paso" + (if step == 3 then "" else "s")
  }

  /** Steps 1, 2, 3 announce 3, 2, 1 remaining steps, plural except on the last. */
  lemma RemainingStepsText(step: int)
    requires 1 <= step <= 3
    ensures Text.ParseDigits(RemainingSteps(step)[..1]) == 4 - step
    ensures RemainingSteps(step)[1..] == if step == 3 then " paso" else " pasos"
  {
  }

  /** The three progress segments: segment s is filled iff s <= step. */
  function Progress(step: int): (bar: seq<bool>)
    ensures |bar| == 3
    ensures forall i :: 0 <= i < 3 ==> bar[i] == (i + 1 <= step)
  {
    [1 <= step, 2 <= step, 3 <= step]
  }

  /**
   * On a valid step the filled segments are the first `step` ones, so the first is always
   * filled, and moving forward never empties a segment.
   */
  lemma ProgressFillsPrefix(step: int, later: int)
    requires 1 <= step <= later <= 3
    ensures Progress(step)[0]
    ensures forall i :: 0 <= i < 3 && Progress(step)[i] ==> Progress(later)[i]
    ensures Progress(3) == [true, true, true]
  {
  }
}
