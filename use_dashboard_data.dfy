/**
 * The data hook: holds the generated dashboard, a loading flag and an error message across
 * the initial load (re-run when its dependencies change) and manual refreshes. Each call to
 * the generator is a pending request; Settle delivers the outcome of one of them, in any order.
 */
module UseDashboardData {
  import opened Wrappers
  import opened Types
  import opened Schemas
  import Text

  /** The effect's dependency list: the user id, `activeWidgets.join(',')` and `shouldGenerate`. */
  datatype Deps = Deps(id: string, widgetsKey: string, shouldGenerate: bool)

  function WidgetNames(ws: seq<WidgetType>): (r: seq<string>)
    ensures |r| == |ws|
    ensures forall i :: 0 <= i < |ws| ==> r[i] == WidgetName(ws[i])
  {
    if ws == [] then [] else [WidgetName(ws[0])] + WidgetNames(ws[1..])
  }

  function DepsOf(profile: UserProfile, shouldGenerate: bool): Deps
  {
    Deps(profile.id, Text.Join(WidgetNames(profile.dashboardConfig.activeWidgets), ','), shouldGenerate)
  }

  /**
   * The dependency key tells profiles apart exactly when the effect should re-run: the keys
   * agree iff the ids, the active widget lists (in order) and the flags agree.
   */
  lemma DepsKeyExact(p: UserProfile, q: UserProfile, g: bool, h: bool)
    ensures DepsOf(p, g) == DepsOf(q, h) <==>
      p.id == q.id && p.dashboardConfig.activeWidgets == q.dashboardConfig.activeWidgets && g == h
  {
    var a := WidgetNames(p.dashboardConfig.activeWidgets);
    var b := WidgetNames(q.dashboardConfig.activeWidgets);
    if DepsOf(p, g) == DepsOf(q, h) {
      forall i | 0 <= i < |a| ensures ',' !in a[i] && a[i] != "" {
        WidgetNamesDistinct(p.dashboardConfig.activeWidgets[i], p.dashboardConfig.activeWidgets[i]);
      }
      forall i | 0 <= i < |b| ensures ',' !in b[i] && b[i] != "" {
        WidgetNamesDistinct(q.dashboardConfig.activeWidgets[i], q.dashboardConfig.activeWidgets[i]);
      }
      if a == [] || b == [] {
        assert a == [] && b == [];
      } else {
        Text.JoinInjective(a, b, ',');
      }
      var ws, vs := p.dashboardConfig.activeWidgets, q.dashboardConfig.activeWidgets;
      forall i | 0 <= i < |ws| ensures ws[i] == vs[i] {
        WidgetNamesDistinct(ws[i], vs[i]);
        assert a[i] == b[i];
      }
    }
  }

  /** A request in flight: the effect's load or a manual refresh. */
  datatype Request = InitialLoad | Refresh

  /** How a request ends: the generator's output, or an exception. */
  datatype LoadOutcome = Loaded(data: DashboardOutput) | Failed

  const LoadError: string := "No se pudo cargar el dashboard"
  const RefreshError: string := "No se pudo actualizar el dashboard"

  function ErrorFor(r: Request): (msg: string)
    ensures msg == LoadError || msg == RefreshError
    ensures msg != ""
  {
    match r
    case InitialLoad => LoadError
    case Refresh => RefreshError
  }

  class DashboardDataHook {
    var dashboardData: Option<DashboardOutput>
    var isLoading: bool
    var error: Option<string>
    /** The dependencies the effect last ran with (None before the first render). */
    var lastDeps: Option<Deps>
    var pending: seq<Request>

    /**
     * The flag is only up before the first effect or while a request is in flight, and an
     * error is always one of the two messages.
     */
    predicate Valid()
      reads this
    {
      && (isLoading ==> pending != [] || lastDeps.None?)
      && (error.Some? ==> error.value == LoadError || error.value == RefreshError)
    }

    /** Initial state: no data, loading, no error. */
    constructor ()
      ensures Valid()
      ensures dashboardData == None && isLoading && error == None && lastDeps == None && pending == []
    {
      dashboardData := None;
      isLoading := true;
      error := None;
      lastDeps := None;
      pending := [];
    }

    /**
     * A render with this profile and flag. The effect runs only when the dependencies changed.
     * With `shouldGenerate` false it just drops the loading flag; otherwise it starts a load,
     * raising the flag and clearing the error.
     */
    method OnRender(profile: UserProfile, shouldGenerate: bool)
      requires Valid()
      modifies this
      ensures Valid()
      ensures dashboardData == old(dashboardData)
      ensures lastDeps == Some(DepsOf(profile, shouldGenerate))
      ensures old(lastDeps) == Some(DepsOf(profile, shouldGenerate)) ==>
        isLoading == old(isLoading) && error == old(error) && pending == old(pending)
      ensures old(lastDeps) != Some(DepsOf(profile, shouldGenerate)) && !shouldGenerate ==>
        !isLoading && error == old(error) && pending == old(pending)
      ensures old(lastDeps) != Some(DepsOf(profile, shouldGenerate)) && shouldGenerate ==>
        isLoading && error == None && pending == old(pending) + [InitialLoad]
    {
      var deps := DepsOf(profile, shouldGenerate);
      if lastDeps != Some(deps) {
        lastDeps := Some(deps);
        if !shouldGenerate {
          isLoading := false;
        } else {
          isLoading := true;
          error := None;
          pending := pending + [InitialLoad];
        }
      }
    }

    /** refresh: raise the flag and start a request; an earlier error stays. */
    method StartRefresh()
      requires Valid()
      modifies this
      ensures Valid()
      ensures isLoading && pending == old(pending) + [Refresh]
      ensures error == old(error) && dashboardData == old(dashboardData) && lastDeps == old(lastDeps)
    {
      isLoading := true;
      pending := pending + [Refresh];
    }

    /**
     * Request i finishes. Success replaces the data wholesale and leaves the error alone;
     * failure keeps the data and sets the request's message. Either way loading is over.
     */
    method Settle(i: nat, outcome: LoadOutcome)
      requires Valid() && i < |pending|
      modifies this
      ensures Valid()
      ensures !isLoading && lastDeps == old(lastDeps)
      ensures pending == old(pending)[..i] + old(pending)[i + 1..]
      ensures outcome.Loaded? ==> dashboardData == Some(outcome.data) && error == old(error)
      ensures outcome.Failed? ==> dashboardData == old(dashboardData) && error == Some(ErrorFor(old(pending)[i]))
    {
      var request := pending[i];
      pending := pending[..i] + pending[i + 1..];
      match outcome {
        case Loaded(data) =>
          dashboardData := Some(data);
        case Failed =>
          error := Some(ErrorFor(request));
      }
      isLoading := false;
    }
  }
}
