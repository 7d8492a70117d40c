/**
 * The configuration provider: the in-place sort inside hashConfig, the hash itself, the two
 * shallow-merge updates, and the provider state driven by the load and persist effects.
 */
module ConfigContext {
  import opened Wrappers
  import opened Types
  import MockData

  /**
   * Position of a widget under the default `Array.prototype.sort` order, which compares the
   * names as strings: alerts < budget < chart < summary < transactions.
   */
  function Rank(w: WidgetType): (r: nat)
    ensures r < 5
  {
    match w
    case AlertsWidget => 0
    case BudgetWidget => 1
    case ChartWidget => 2
    case SummaryWidget => 3
    case TransactionsWidget => 4
  }

  /** The widgets in sort order; `ByName[k]` is the widget of rank k. */
  const ByName: seq<WidgetType> := [AlertsWidget, BudgetWidget, ChartWidget, SummaryWidget, TransactionsWidget]

  /** The names differ in their first letter, so string order of names is the order of ranks. */
  lemma RankIsNameOrder(v: WidgetType, w: WidgetType)
    ensures Rank(v) < Rank(w) <==> WidgetName(v)[0] < WidgetName(w)[0]
  {
    WidgetNamesDistinct(v, w);
  }

  /** Rank and ByName are inverse: the rank identifies the widget. */
  lemma RankInjective(v: WidgetType, k: nat)
    requires k < 5
    ensures ByName[k] == v <==> Rank(v) == k
  {
  }

  predicate Sorted(s: seq<WidgetType>)
  {
    forall i, j :: 0 <= i < j < |s| ==> Rank(s[i]) <= Rank(s[j])
  }

  function Repeat(w: WidgetType, n: nat): (r: seq<WidgetType>)
    ensures |r| == n
    ensures forall i :: 0 <= i < n ==> r[i] == w
  {
    if n == 0 then [] else [w] + Repeat(w, n - 1)
  }

  /** The first k rank blocks of a sorted list with the counts of m. */
  function Blocks(m: multiset<WidgetType>, k: nat): seq<WidgetType>
    requires k <= 5
  {
    if k == 0 then [] else Blocks(m, k - 1) + Repeat(ByName[k - 1], m[ByName[k - 1]])
  }

  /** What `s.sort()` leaves in the array: each widget as often as in s, in rank order. */
  function SortedWidgets(s: seq<WidgetType>): seq<WidgetType>
  {
    Blocks(multiset(s), 5)
  }

  lemma {:induction false} RepeatCount(w: WidgetType, n: nat, v: WidgetType)
    ensures multiset(Repeat(w, n))[v] == if v == w then n else 0
  {
    if n > 0 {
      RepeatCount(w, n - 1, v);
      assert Repeat(w, n) == [w] + Repeat(w, n - 1);
    }
  }

  lemma {:induction false} BlocksCount(m: multiset<WidgetType>, k: nat, v: WidgetType)
    requires k <= 5
    ensures multiset(Blocks(m, k))[v] == if Rank(v) < k then m[v] else 0
  {
    if k > 0 {
      BlocksCount(m, k - 1, v);
      var w := ByName[k - 1];
      var prev := Blocks(m, k - 1);
      var block := Repeat(w, m[w]);
      RepeatCount(w, m[w], v);
      RankInjective(v, k - 1);
      assert Blocks(m, k) == prev + block;
      assert multiset(prev + block)[v] == multiset(prev)[v] + multiset(block)[v];
    }
  }

  /** All five blocks hold exactly the multiset m. */
  lemma BlocksMultiset(m: multiset<WidgetType>)
    ensures multiset(Blocks(m, 5)) == m
  {
    forall v ensures multiset(Blocks(m, 5))[v] == m[v] {
      BlocksCount(m, 5, v);
    }
  }

  lemma {:induction false} BlocksRanks(m: multiset<WidgetType>, k: nat)
    requires k <= 5
    ensures forall i :: 0 <= i < |Blocks(m, k)| ==> Rank(Blocks(m, k)[i]) < k
  {
    if k > 0 {
      BlocksRanks(m, k - 1);
      var prev := Blocks(m, k - 1);
      var b := Blocks(m, k);
      forall i | 0 <= i < |b| ensures Rank(b[i]) < k {
        if i < |prev| {
          assert b[i] == prev[i];
        } else {
          assert b[i] == ByName[k - 1];
        }
      }
    }
  }

  lemma {:induction false} BlocksSorted(m: multiset<WidgetType>, k: nat)
    requires k <= 5
    ensures Sorted(Blocks(m, k))
  {
    if k > 0 {
      BlocksSorted(m, k - 1);
      BlocksRanks(m, k - 1);
      var w := ByName[k - 1];
      var prev := Blocks(m, k - 1);
      var b := Blocks(m, k);
      forall i, j | 0 <= i < j < |b| ensures Rank(b[i]) <= Rank(b[j]) {
        if j < |prev| {
          assert b[i] == prev[i] && b[j] == prev[j];
        } else if i < |prev| {
          assert b[i] == prev[i] && b[j] == w;
        } else {
          assert b[i] == w && b[j] == w;
        }
      }
    }
  }

  lemma {:induction false} BlocksPrefix(m: multiset<WidgetType>, k: nat, n: nat)
    requires k <= n <= 5
    ensures Blocks(m, k) <= Blocks(m, n)
  {
    if k < n {
      BlocksPrefix(m, k, n - 1);
    }
  }

  /** The sort result is sorted and a permutation of its input. */
  lemma SortedWidgetsCorrect(s: seq<WidgetType>)
    ensures Sorted(SortedWidgets(s))
    ensures multiset(SortedWidgets(s)) == multiset(s)
  {
    BlocksSorted(multiset(s), 5);
    BlocksMultiset(multiset(s));
  }

  lemma SortedTail(s: seq<WidgetType>)
    requires Sorted(s) && s != []
    ensures Sorted(s[1..])
  {
    forall a, b | 0 <= a < b < |s| - 1 ensures Rank(s[1..][a]) <= Rank(s[1..][b]) {
      assert s[1..][a] == s[a + 1] && s[1..][b] == s[b + 1];
    }
  }

  /** The head of a sorted list has the least rank of any element. */
  lemma SortedHeadLeast(s: seq<WidgetType>, v: WidgetType)
    requires Sorted(s) && v in multiset(s)
    ensures Rank(s[0]) <= Rank(v)
  {
    var i :| 0 <= i < |s| && s[i] == v;
    if i > 0 {
      assert Rank(s[0]) <= Rank(s[i]);
    }
  }

  /** A sorted list is determined by its multiset. */
  lemma {:induction false} SortedUnique(t: seq<WidgetType>, u: seq<WidgetType>)
    requires Sorted(t) && Sorted(u) && multiset(t) == multiset(u)
    ensures t == u
  {
    if t != [] {
      assert t[0] in multiset(u);
      assert u != [] && u[0] in multiset(t);
      SortedHeadLeast(u, t[0]);
      SortedHeadLeast(t, u[0]);
      RankInjective(t[0], Rank(u[0]));
      RankInjective(u[0], Rank(u[0]));
      assert t == [t[0]] + t[1..] && u == [u[0]] + u[1..];
      assert multiset(t) == multiset{t[0]} + multiset(t[1..]);
      assert multiset(u) == multiset{u[0]} + multiset(u[1..]);
      assert t[0] == u[0];
      forall v ensures multiset(t[1..])[v] == multiset(u[1..])[v] {
        assert multiset(t)[v] == multiset(u)[v];
      }
      assert multiset(t[1..]) == multiset(u[1..]);
      SortedTail(t);
      SortedTail(u);
      SortedUnique(t[1..], u[1..]);
    } else {
      assert |multiset(u)| == 0;
    }
  }

  /** Sorting an already sorted list does nothing, so sorting twice is sorting once. */
  lemma SortIdempotent(s: seq<WidgetType>)
    ensures Sorted(s) ==> SortedWidgets(s) == s
    ensures SortedWidgets(SortedWidgets(s)) == SortedWidgets(s)
  {
    SortedWidgetsCorrect(s);
    SortedWidgetsCorrect(SortedWidgets(s));
    if Sorted(s) {
      SortedUnique(SortedWidgets(s), s);
    }
  }

  /** Writes `count` copies of w from index `from` on; the rest of the array is untouched. */
  method Fill(a: array<WidgetType>, from: nat, count: nat, w: WidgetType)
    requires from + count <= a.Length
    modifies a
    ensures a[..from + count] == old(a[..from]) + Repeat(w, count)
    ensures a[from + count..] == old(a[from + count..])
  {
    var i := from;
    while i < from + count
      invariant from <= i <= from + count
      invariant a[..i] == old(a[..from]) + Repeat(w, i - from)
      invariant a[from + count..] == old(a[from + count..])
    {
      assert Repeat(w, i + 1 - from) == Repeat(w, i - from) + [w];
      a[i] := w;
      assert a[..i + 1] == a[..i] + [w];
      i := i + 1;
    }
  }

  /** `activeWidgets.sort()`: rearranges the array in place into SortedWidgets of its old contents. */
  method SortInPlace(a: array<WidgetType>)
    modifies a
    ensures a[..] == SortedWidgets(old(a[..]))
  {
    var m := multiset(a[..]);
    BlocksMultiset(m);
    assert |Blocks(m, 5)| == a.Length by {
      assert |multiset(Blocks(m, 5))| == |Blocks(m, 5)|;
      assert |m| == |a[..]|;
    }
    var k := 0;
    var pos := 0;
    while k < 5
      invariant 0 <= k <= 5
      invariant pos == |Blocks(m, k)| <= a.Length
      invariant a[..pos] == Blocks(m, k)
    {
      var w := ByName[k];
      BlocksPrefix(m, k + 1, 5);
      Fill(a, pos, m[w], w);
      pos := pos + m[w];
      k := k + 1;
    }
    assert a[..] == a[..pos];
  }

  /**
   * `JSON.stringify({widgets, layout, timeRange})`. Stringifying is injective on these records,
   * so the hash is modelled as the record itself; NoHash is the initial empty string.
   */
  datatype ConfigHash = NoHash | Hash(widgets: seq<WidgetType>, layout: Layout, timeRange: TimeRange)

  /** hashConfig as a value: the sorted widgets, the layout and the default time range. */
  function HashOf(c: DashboardConfig): (h: ConfigHash)
    ensures h.Hash? && h.layout == c.layout && h.timeRange == c.defaultTimeRange
  {
    Hash(SortedWidgets(c.activeWidgets), c.layout, c.defaultTimeRange)
  }

  /**
   * Two configs hash alike iff they have the same widgets with the same multiplicities, the
   * same layout and the same time range: order of widgets, widget order, auto-refresh and
   * the refresh interval are ignored.
   */
  lemma HashEqualIff(c: DashboardConfig, d: DashboardConfig)
    ensures HashOf(c) == HashOf(d) <==>
      multiset(c.activeWidgets) == multiset(d.activeWidgets)
      && c.layout == d.layout && c.defaultTimeRange == d.defaultTimeRange
  {
    SortedWidgetsCorrect(c.activeWidgets);
    SortedWidgetsCorrect(d.activeWidgets);
  }

  /** The order of the active widgets never changes the hash. */
  lemma HashIgnoresWidgetOrder(c: DashboardConfig, ws: seq<WidgetType>)
    requires multiset(ws) == multiset(c.activeWidgets)
    ensures HashOf(c.(activeWidgets := ws)) == HashOf(c)
  {
    HashEqualIff(c.(activeWidgets := ws), c);
  }

  /** A dashboard config as the heap object it is: the two widget lists are arrays that may be shared. */
  class ConfigObject {
    var activeWidgets: array<WidgetType>
    var widgetOrder: array<WidgetType>
    var layout: Layout
    var defaultTimeRange: TimeRange
    var autoRefresh: bool
    var refreshIntervalSeconds: int

    constructor (activeWidgets: array<WidgetType>, widgetOrder: array<WidgetType>, layout: Layout,
                 defaultTimeRange: TimeRange, autoRefresh: bool, refreshIntervalSeconds: int)
      ensures this.activeWidgets == activeWidgets && this.widgetOrder == widgetOrder
      ensures this.layout == layout && this.defaultTimeRange == defaultTimeRange
      ensures this.autoRefresh == autoRefresh && this.refreshIntervalSeconds == refreshIntervalSeconds
    {
      this.activeWidgets := activeWidgets;
      this.widgetOrder := widgetOrder;
      this.layout := layout;
      this.defaultTimeRange := defaultTimeRange;
      this.autoRefresh := autoRefresh;
      this.refreshIntervalSeconds := refreshIntervalSeconds;
    }

    /** The config as a value. */
    function Value(): DashboardConfig
      reads this, activeWidgets, widgetOrder
    {
      DashboardConfig(activeWidgets[..], widgetOrder[..], layout, defaultTimeRange, autoRefresh, refreshIntervalSeconds)
    }
  }

  /**
   * hashConfig on the object: returns the hash of the config as it was, and leaves its
   * `activeWidgets` array sorted in place. A `widgetOrder` that is the same array is reordered
   * with it; a separate one is untouched.
   */
  method HashConfig(config: ConfigObject) returns (h: ConfigHash)
    modifies config.activeWidgets
    ensures h == HashOf(old(config.Value()))
    ensures config.activeWidgets[..] == SortedWidgets(old(config.activeWidgets[..]))
    ensures config.widgetOrder != config.activeWidgets ==> config.widgetOrder[..] == old(config.widgetOrder[..])
    ensures h == HashOf(config.Value())
  {
    SortInPlace(config.activeWidgets);
    h := Hash(config.activeWidgets[..], config.layout, config.defaultTimeRange);
    SortIdempotent(old(config.activeWidgets[..]));
  }

  /**
   * The relaxed profile's `activeWidgets`, its `widgetOrder` and the relaxed entry of the
   * persona table are one array. Hashing that config reorders all three views to
   * budget, chart, summary.
   */
  method SharedRelaxedArray() returns (active: seq<WidgetType>, order: seq<WidgetType>, table: seq<WidgetType>)
    ensures active == order == table == [BudgetWidget, ChartWidget, SummaryWidget]
    ensures table != PersonaWidgets(Relaxed)
  {
    var relaxed := new WidgetType[3];
    relaxed[0], relaxed[1], relaxed[2] := SummaryWidget, ChartWidget, BudgetWidget;
    assert relaxed[..] == PersonaWidgets(Relaxed);
    var config := new ConfigObject(relaxed, relaxed, PersonaLayout(Relaxed), Month, false, 300);
    var _ := HashConfig(config);
    PersonaListsSorted();
    active, order, table := config.activeWidgets[..], config.widgetOrder[..], relaxed[..];
  }

  /** `Partial<UserProfile>`: each field either given (Some) or absent. */
  datatype ProfileUpdate = ProfileUpdate(
    id: Option<string>, name: Option<string>, preferences: Option<UserPreferences>,
    dashboardConfig: Option<DashboardConfig>, isOnboarded: Option<bool>)

  /** `Partial<DashboardConfig>`. */
  datatype ConfigUpdate = ConfigUpdate(
    activeWidgets: Option<seq<WidgetType>>, widgetOrder: Option<seq<WidgetType>>, layout: Option<Layout>,
    defaultTimeRange: Option<TimeRange>, autoRefresh: Option<bool>, refreshIntervalSeconds: Option<int>)

  const NoProfileUpdate: ProfileUpdate := ProfileUpdate(None, None, None, None, None)
  const NoConfigUpdate: ConfigUpdate := ConfigUpdate(None, None, None, None, None, None)

  /** The value of a spread field: the update's when given, otherwise the previous one. */
  function Given<T>(update: Option<T>, previous: T): T
  {
    if update.Some? then update.value else previous
  }

  /** `{...prev, ...updates}`. */
  function MergeProfile(prev: UserProfile, u: ProfileUpdate): (r: UserProfile)
    ensures u.id.Some? ==> r.id == u.id.value
    ensures u.id.None? ==> r.id == prev.id
    ensures u.name.Some? ==> r.name == u.name.value
    ensures u.name.None? ==> r.name == prev.name
    ensures u.preferences.Some? ==> r.preferences == u.preferences.value
    ensures u.preferences.None? ==> r.preferences == prev.preferences
    ensures u.dashboardConfig.Some? ==> r.dashboardConfig == u.dashboardConfig.value
    ensures u.dashboardConfig.None? ==> r.dashboardConfig == prev.dashboardConfig
    ensures u.isOnboarded.Some? ==> r.isOnboarded == u.isOnboarded.value
    ensures u.isOnboarded.None? ==> r.isOnboarded == prev.isOnboarded
  {
    UserProfile(Given(u.id, prev.id), Given(u.name, prev.name), Given(u.preferences, prev.preferences),
      Given(u.dashboardConfig, prev.dashboardConfig), Given(u.isOnboarded, prev.isOnboarded))
  }

  /** `{...prev.dashboardConfig, ...configUpdates}`. */
  function MergeConfig(prev: DashboardConfig, u: ConfigUpdate): (r: DashboardConfig)
    ensures u.activeWidgets.Some? ==> r.activeWidgets == u.activeWidgets.value
    ensures u.activeWidgets.None? ==> r.activeWidgets == prev.activeWidgets
    ensures u.widgetOrder.Some? ==> r.widgetOrder == u.widgetOrder.value
    ensures u.widgetOrder.None? ==> r.widgetOrder == prev.widgetOrder
    ensures u.layout.Some? ==> r.layout == u.layout.value
    ensures u.layout.None? ==> r.layout == prev.layout
    ensures u.defaultTimeRange.Some? ==> r.defaultTimeRange == u.defaultTimeRange.value
    ensures u.defaultTimeRange.None? ==> r.defaultTimeRange == prev.defaultTimeRange
    ensures u.autoRefresh.Some? ==> r.autoRefresh == u.autoRefresh.value
    ensures u.autoRefresh.None? ==> r.autoRefresh == prev.autoRefresh
    ensures u.refreshIntervalSeconds.Some? ==> r.refreshIntervalSeconds == u.refreshIntervalSeconds.value
    ensures u.refreshIntervalSeconds.None? ==> r.refreshIntervalSeconds == prev.refreshIntervalSeconds
  {
    DashboardConfig(Given(u.activeWidgets, prev.activeWidgets), Given(u.widgetOrder, prev.widgetOrder),
      Given(u.layout, prev.layout), Given(u.defaultTimeRange, prev.defaultTimeRange),
      Given(u.autoRefresh, prev.autoRefresh), Given(u.refreshIntervalSeconds, prev.refreshIntervalSeconds))
  }

  /** Two successive profile updates, the later one winning field by field. */
  function ThenProfile(first: ProfileUpdate, second: ProfileUpdate): ProfileUpdate
  {
    ProfileUpdate(
      if second.id.Some? then second.id else first.id,
      if second.name.Some? then second.name else first.name,
      if second.preferences.Some? then second.preferences else first.preferences,
      if second.dashboardConfig.Some? then second.dashboardConfig else first.dashboardConfig,
      if second.isOnboarded.Some? then second.isOnboarded else first.isOnboarded)
  }

  function ThenConfig(first: ConfigUpdate, second: ConfigUpdate): ConfigUpdate
  {
    ConfigUpdate(
      if second.activeWidgets.Some? then second.activeWidgets else first.activeWidgets,
      if second.widgetOrder.Some? then second.widgetOrder else first.widgetOrder,
      if second.layout.Some? then second.layout else first.layout,
      if second.defaultTimeRange.Some? then second.defaultTimeRange else first.defaultTimeRange,
      if second.autoRefresh.Some? then second.autoRefresh else first.autoRefresh,
      if second.refreshIntervalSeconds.Some? then second.refreshIntervalSeconds else first.refreshIntervalSeconds)
  }

  /** An empty update changes nothing; merging twice is merging the combined update once. */
  lemma MergeLaws(p: UserProfile, c: DashboardConfig, u1: ProfileUpdate, u2: ProfileUpdate, v1: ConfigUpdate, v2: ConfigUpdate)
    ensures MergeProfile(p, NoProfileUpdate) == p
    ensures MergeConfig(c, NoConfigUpdate) == c
    ensures MergeProfile(MergeProfile(p, u1), u2) == MergeProfile(p, ThenProfile(u1, u2))
    ensures MergeConfig(MergeConfig(c, v1), v2) == MergeConfig(c, ThenConfig(v1, v2))
  {
  }

  /** updateDashboardConfig: only `dashboardConfig` changes, and within it only the given fields. */
  function UpdateDashboardConfig(prev: UserProfile, u: ConfigUpdate): (r: UserProfile)
    ensures r.id == prev.id && r.name == prev.name && r.preferences == prev.preferences
    ensures r.isOnboarded == prev.isOnboarded
    ensures r.dashboardConfig == MergeConfig(prev.dashboardConfig, u)
  {
    prev.(dashboardConfig := MergeConfig(prev.dashboardConfig, u))
  }

  /** Updating the config is a profile update whose only given field is the merged config. */
  lemma ConfigUpdateIsProfileUpdate(prev: UserProfile, u: ConfigUpdate)
    ensures UpdateDashboardConfig(prev, u)
      == MergeProfile(prev, NoProfileUpdate.(dashboardConfig := Some(MergeConfig(prev.dashboardConfig, u))))
  {
  }

  /** What localStorage holds under the config key: nothing, a profile, or text that fails to parse. */
  datatype StorageEntry = Empty | Stored(profile: UserProfile) | Corrupt

  /** A profile whose `activeWidgets` has been through the in-place sort. */
  function WithSortedWidgets(p: UserProfile): (r: UserProfile)
    ensures r.dashboardConfig.activeWidgets == SortedWidgets(p.dashboardConfig.activeWidgets)
    ensures HashOf(r.dashboardConfig) == HashOf(p.dashboardConfig)
    ensures r.id == p.id && r.name == p.name && r.preferences == p.preferences && r.isOnboarded == p.isOnboarded
    ensures r.dashboardConfig.widgetOrder == p.dashboardConfig.widgetOrder && r.dashboardConfig.layout == p.dashboardConfig.layout
    ensures r.dashboardConfig.defaultTimeRange == p.dashboardConfig.defaultTimeRange
    ensures r.dashboardConfig.autoRefresh == p.dashboardConfig.autoRefresh
    ensures r.dashboardConfig.refreshIntervalSeconds == p.dashboardConfig.refreshIntervalSeconds
  {
    SortIdempotent(p.dashboardConfig.activeWidgets);
    p.(dashboardConfig := p.dashboardConfig.(activeWidgets := SortedWidgets(p.dashboardConfig.activeWidgets)))
  }

  /** ConfigProvider's state and the effects and callbacks that change it. */
  class ConfigProvider {
    var userProfile: UserProfile
    var isLoading: bool
    var configHash: ConfigHash
    var storage: StorageEntry

    /** Mount: USER_SOFIA, loading, no hash. */
    constructor (storage: StorageEntry)
      ensures userProfile == MockData.UserSofia && isLoading && configHash == NoHash
      ensures this.storage == storage
    {
      userProfile := MockData.UserSofia;
      isLoading := true;
      configHash := NoHash;
      this.storage := storage;
    }

    /**
     * The load effect. A stored profile becomes current (its widgets sorted by the hash
     * computation) and its hash is recorded; with nothing stored the current profile is
     * USER_SOFIA marked not onboarded and no hash is recorded; a parse failure changes nothing.
     * Loading is over in every case.
     */
    method Load()
      modifies this
      ensures !isLoading && storage == old(storage)
      ensures old(storage).Stored? ==>
        userProfile == WithSortedWidgets(old(storage).profile)
        && configHash == HashOf(old(storage).profile.dashboardConfig)
      ensures old(storage).Empty? ==>
        userProfile == MockData.UserSofia.(isOnboarded := false) && configHash == old(configHash)
      ensures old(storage).Corrupt? ==> userProfile == old(userProfile) && configHash == old(configHash)
    {
      match storage {
        case Stored(parsed) =>
          // setUserProfile(parsed) installs the parsed object; the sort inside hashConfig
          // then reorders its widget array in place, which the next assignment records.
          userProfile := parsed;
          configHash := HashOf(parsed.dashboardConfig);
          userProfile := WithSortedWidgets(parsed);
        case Empty =>
          userProfile := MockData.UserSofia.(isOnboarded := false);
        case Corrupt =>
      }
      isLoading := false;
    }

    /**
     * The save effect: once loading is over, store the profile as it is, then compute its
     * hash, which sorts the current profile's widgets in place. While loading, nothing happens.
     */
    method Persist()
      modifies this
      ensures isLoading == old(isLoading)
      ensures old(isLoading) ==> userProfile == old(userProfile) && configHash == old(configHash) && storage == old(storage)
      ensures !old(isLoading) ==>
        && storage == Stored(old(userProfile))
        && configHash == HashOf(old(userProfile).dashboardConfig)
        && userProfile == WithSortedWidgets(old(userProfile))
        && configHash == HashOf(userProfile.dashboardConfig)
    {
      if !isLoading {
        storage := Stored(userProfile);
        configHash := HashOf(userProfile.dashboardConfig);
        userProfile := WithSortedWidgets(userProfile);
      }
    }

    method UpdateProfile(updates: ProfileUpdate)
      modifies this
      ensures userProfile == MergeProfile(old(userProfile), updates)
      ensures isLoading == old(isLoading) && configHash == old(configHash) && storage == old(storage)
    {
      userProfile := MergeProfile(userProfile, updates);
    }

    method UpdateConfig(configUpdates: ConfigUpdate)
      modifies this
      ensures userProfile == UpdateDashboardConfig(old(userProfile), configUpdates)
      ensures isLoading == old(isLoading) && configHash == old(configHash) && storage == old(storage)
    {
      userProfile := UpdateDashboardConfig(userProfile, configUpdates);
    }
  }

  /** A sorted permutation of s is the sort of s. */
  lemma SortedPermutationIsSort(s: seq<WidgetType>, t: seq<WidgetType>)
    requires Sorted(t) && multiset(t) == multiset(s)
    ensures SortedWidgets(s) == t
  {
    SortedWidgetsCorrect(s);
    SortedUnique(SortedWidgets(s), t);
  }

  lemma RelaxedListSorted()
    ensures SortedWidgets(PersonaWidgets(Relaxed)) == [BudgetWidget, ChartWidget, SummaryWidget]
  {
    var r := [BudgetWidget, ChartWidget, SummaryWidget];
    assert multiset(r) == multiset{SummaryWidget, ChartWidget, BudgetWidget};
    SortedPermutationIsSort(PersonaWidgets(Relaxed), r);
  }

  lemma AuditorListSorted()
    ensures SortedWidgets(PersonaWidgets(Auditor))
      == [AlertsWidget, BudgetWidget, ChartWidget, SummaryWidget, TransactionsWidget]
  {
    var p := PersonaWidgets(Auditor);
    assert Sorted(ByName) by {
      forall i | 0 <= i < 5 ensures Rank(ByName[i]) == i {
        RankInjective(ByName[i], i);
      }
    }
    assert multiset(p) == multiset(ByName) by {
      assert p == [TransactionsWidget] + [BudgetWidget, ChartWidget] + [AlertsWidget] + [SummaryWidget];
      assert ByName == [AlertsWidget] + [BudgetWidget, ChartWidget] + [SummaryWidget] + [TransactionsWidget];
    }
    SortedPermutationIsSort(p, ByName);
  }

  lemma SpenderListSorted()
    ensures SortedWidgets(PersonaWidgets(Spender)) == [AlertsWidget, BudgetWidget, SummaryWidget]
  {
    var sp := [AlertsWidget, BudgetWidget, SummaryWidget];
    assert multiset(sp) == multiset{BudgetWidget, SummaryWidget, AlertsWidget};
    SortedPermutationIsSort(PersonaWidgets(Spender), sp);
  }

  /**
   * What the in-place sort makes of the persona lists. Persisting the auditor fixture reorders its
   * dashboard alphabetically: the transactions grid, first in the persona's list, moves to the end.
   */
  lemma PersonaListsSorted()
    ensures SortedWidgets(PersonaWidgets(Relaxed)) == [BudgetWidget, ChartWidget, SummaryWidget]
    ensures SortedWidgets(PersonaWidgets(Auditor))
      == [AlertsWidget, BudgetWidget, ChartWidget, SummaryWidget, TransactionsWidget]
    ensures SortedWidgets(PersonaWidgets(Spender)) == [AlertsWidget, BudgetWidget, SummaryWidget]
    ensures SortedWidgets(PersonaWidgets(Auditor)) != PersonaWidgets(Auditor)
  {
    RelaxedListSorted();
    AuditorListSorted();
    SpenderListSorted();
  }
}
