/**
 * The dashboard page: what it shows for a profile, given whether the configuration is
 * still loading and whether the dashboard is regenerating. The page renders one panel per
 * active widget, in the order of `activeWidgets`, from fixed content and the ledger; the
 * budget panel classifies every budget as over its limit, near it or within it and draws a
 * bar clamped at 100%.
 */
module DashboardPage {
  import opened Wrappers
  import opened Types
  import opened Schemas
  import opened JsNumber
  import MockData
  import Actions

  // ---------------------------------------------------------------------------------------
  // Budget rows

  /** The three states of a budget bar (red text and bar, amber, emerald). */
  datatype BudgetState = OverBudget | NearLimit | WithinBudget

  /** `(budget.spent / budget.limit) * 100`. */
  function Percentage(b: Budget): Number
  {
    Scale(Divide(b.spent, b.limit), 100.0)
  }

  /** `isOverBudget = percentage > 100`, `isWarning = percentage > 75 && !isOverBudget`. */
  function Classify(pct: Number): BudgetState
  {
    if GreaterThan(pct, 100.0) then OverBudget
    else if GreaterThan(pct, 75.0) then NearLimit
    else WithinBudget
  }

  /** The bar's width in percent, `Math.min(percentage, 100)`. */
  function BarWidth(pct: Number): Number
  {
    Min(pct, 100.0)
  }

  datatype BudgetRow = BudgetRow(category: Category, spent: real, limit: real, state: BudgetState, width: Number)

  function RowFor(b: Budget): (r: BudgetRow)
    ensures r.category == b.category && r.spent == b.spent && r.limit == b.limit
    ensures r.state == Classify(Percentage(b)) && r.width == BarWidth(Percentage(b))
  {
    var pct := Percentage(b);
    BudgetRow(b.category, b.spent, b.limit, Classify(pct), BarWidth(pct))
  }

  /** One row per budget, in ledger order. */
  function BudgetRows(bs: seq<Budget>): (r: seq<BudgetRow>)
    ensures |r| == |bs|
    ensures forall i :: 0 <= i < |bs| ==> r[i] == RowFor(bs[i])
  {
    if bs == [] then [] else [RowFor(bs[0])] + BudgetRows(bs[1..])
  }

  /**
   * The classification, read on finite percentages: over iff above 100, near iff in
   * (75, 100], within otherwise. An infinite percentage (spending against a zero limit) is
   * over; NaN (nothing spent of a zero limit) and minus infinity fail both comparisons and
   * count as within.
   */
  lemma ClassifyExact(pct: Number)
    ensures pct.Finite? ==> (Classify(pct) == OverBudget <==> pct.value > 100.0)
    ensures pct.Finite? ==> (Classify(pct) == NearLimit <==> 75.0 < pct.value <= 100.0)
    ensures pct.Finite? ==> (Classify(pct) == WithinBudget <==> pct.value <= 75.0)
    ensures pct == PositiveInfinity ==> Classify(pct) == OverBudget
    ensures pct == NegativeInfinity || pct == NaN ==> Classify(pct) == WithinBudget
  {
  }

  /**
   * The same classification read on the budget itself: with a positive limit, over iff more
   * than the limit was spent, near iff more than three quarters but at most the limit; with a
   * zero limit, over iff anything was spent.
   */
  lemma ClassifyBudget(b: Budget)
    requires b.limit >= 0.0
    ensures b.limit > 0.0 ==> (Classify(Percentage(b)) == OverBudget <==> b.spent > b.limit)
    ensures b.limit > 0.0 ==>
      (Classify(Percentage(b)) == NearLimit <==> 0.75 * b.limit < b.spent <= b.limit)
    ensures b.limit == 0.0 ==> (Classify(Percentage(b)) == OverBudget <==> b.spent > 0.0)
    ensures b.limit == 0.0 ==> Classify(Percentage(b)) != NearLimit
  {
    PercentageCases(b);
    ClassifyExact(Percentage(b));
    if b.limit > 0.0 {
      RatioAbove(b.spent, b.limit, 1.0);
      RatioAbove(b.spent, b.limit, 0.75);
    }
  }

  /** The percentage on a non-zero limit, and the non-finite values a zero limit gives. */
  lemma PercentageCases(b: Budget)
    ensures b.limit != 0.0 ==> Percentage(b) == Finite(b.spent / b.limit * 100.0)
    ensures b.limit == 0.0 && b.spent > 0.0 ==> Percentage(b) == PositiveInfinity
    ensures b.limit == 0.0 && b.spent < 0.0 ==> Percentage(b) == NegativeInfinity
    ensures b.limit == 0.0 && b.spent == 0.0 ==> Percentage(b) == NaN
  {
  }

  /** With a positive limit, spent / limit exceeds k exactly when spent exceeds k * limit. */
  lemma RatioAbove(spent: real, limit: real, k: real)
    requires limit > 0.0
    ensures spent / limit > k <==> spent > k * limit
  {
    var q := spent / limit;
    assert q * limit == spent;
    if q > k {
      assert (q - k) * limit > 0.0;
    } else {
      assert (k - q) * limit >= 0.0;
    }
  }

  /**
   * The bar never draws wider than 100%: a non-negative percentage gives a width in [0, 100];
   * the width is the percentage itself exactly when the budget is not over, and a full bar
   * when it is (infinite percentages included).
   */
  lemma BarWidthBounds(pct: Number)
    ensures pct.Finite? && pct.value >= 0.0 ==>
      BarWidth(pct).Finite? && 0.0 <= BarWidth(pct).value <= 100.0
    ensures pct.Finite? ==> (BarWidth(pct) == pct <==> Classify(pct) != OverBudget)
    ensures Classify(pct) == OverBudget ==> BarWidth(pct) == Finite(100.0)
    ensures pct == NaN ==> BarWidth(pct) == NaN
  {
    MinIsBounded(pct, 100.0);
  }

  /** On the fixture ledger: Transport sits exactly at 75% and is still within, Food is within, Leisure is over with a full bar. */
  lemma FixtureBudgetRows()
    ensures |BudgetRows(MockData.MockBudgets)| == 3
    ensures BudgetRows(MockData.MockBudgets)[0] == BudgetRow(Transport, 150.0, 200.0, WithinBudget, Finite(75.0))
    ensures BudgetRows(MockData.MockBudgets)[1] == BudgetRow(Food, 120.0, 400.0, WithinBudget, Finite(30.0))
    ensures BudgetRows(MockData.MockBudgets)[2].state == OverBudget
    ensures BudgetRows(MockData.MockBudgets)[2].width == Finite(100.0)
  {
    var rows := BudgetRows(MockData.MockBudgets);
    assert rows[0] == RowFor(MockData.MockBudgets[0]);
    assert Percentage(MockData.MockBudgets[0]) == Finite(75.0);
    assert rows[1] == RowFor(MockData.MockBudgets[1]);
    assert Percentage(MockData.MockBudgets[1]) == Finite(30.0);
    assert rows[2] == RowFor(MockData.MockBudgets[2]);
    ClassifyBudget(MockData.MockBudgets[2]);
    BarWidthBounds(Percentage(MockData.MockBudgets[2]));
  }

  // ---------------------------------------------------------------------------------------
  // Panels

  /** The colour family of an alert card on the page. */
  datatype Tone = Red | Amber | Emerald

  datatype Notice = Notice(tone: Tone, emoji: string, title: string, message: string)

  /** A widget wrapper with its title and what it holds. */
  datatype Panel =
    | SummaryPanel(title: string, card: ExpenseSummary)
    | TransactionsPanel(title: string, transactions: seq<Transaction>)
    | ChartPanel(title: string, chart: PieChart)
    | BudgetPanel(title: string, rows: seq<BudgetRow>)
    | AlertsPanel(title: string, notices: seq<Notice>)

  /** The widget a panel was rendered for (the wrapper's React key). */
  function PanelKind(p: Panel): WidgetType
  {
    match p
    case SummaryPanel(_, _) => SummaryWidget
    case TransactionsPanel(_, _) => TransactionsWidget
    case ChartPanel(_, _) => ChartWidget
    case BudgetPanel(_, _) => BudgetWidget
    case AlertsPanel(_, _) => AlertsWidget
  }

  const PageSummary: ExpenseSummary := ExpenseSummary(Sentiment.Warning, "Estado del Mes",
    "Has gastado $1,265 de tu presupuesto de $900 en Ocio", Some(1265.0))

  const PageChart: PieChart := PieChart(Some("Por Categoría"), [
    ChartEntry("Comida", 120.0),
    ChartEntry("Transporte", 150.0),
    ChartEntry("Ocio", 1250.0),
    ChartEntry("Salud", 80.0)
  ])

  const PageNotices: seq<Notice> := [
    Notice(Red, "⚠️", "Presupuesto excedido", "Has superado tu presupuesto de Ocio en $950"),
    Notice(Amber, "💡", "Patrón detectado", "3 gastos en Uber en los últimos 2 días"),
    Notice(Emerald, "✓", "Buen progreso", "Solo has usado el 30% de tu presupuesto de Comida")
  ]

  /** `MOCK_TRANSACTIONS.slice(0, 5)`. */
  function FirstFive(ts: seq<Transaction>): (r: seq<Transaction>)
    ensures |r| == (if |ts| < 5 then |ts| else 5)
    ensures r <= ts
  {
    if |ts| < 5 then ts else ts[..5]
  }

  /** `renderWidget`: the switch has a case for every widget type, so it never yields null. */
  function RenderWidget(w: WidgetType, ts: seq<Transaction>, bs: seq<Budget>): (p: Panel)
    ensures PanelKind(p) == w
  {
    match w
    case SummaryWidget => SummaryPanel("Resumen Financiero", PageSummary)
    case TransactionsWidget => TransactionsPanel("Transacciones Recientes", FirstFive(ts))
    case ChartWidget => ChartPanel("Distribución de Gastos", PageChart)
    case BudgetWidget => BudgetPanel("Progreso de Presupuesto", BudgetRows(bs))
    case AlertsWidget => AlertsPanel("Alertas", PageNotices)
  }

  /** `activeWidgets.map(renderWidget)`: one panel per entry, in the same order. */
  function RenderWidgets(ws: seq<WidgetType>, ts: seq<Transaction>, bs: seq<Budget>): (ps: seq<Panel>)
    ensures |ps| == |ws|
    ensures forall i :: 0 <= i < |ws| ==> PanelKind(ps[i]) == ws[i]
    ensures forall i :: 0 <= i < |ws| ==> ps[i] == RenderWidget(ws[i], ts, bs)
  {
    if ws == [] then [] else [RenderWidget(ws[0], ts, bs)] + RenderWidgets(ws[1..], ts, bs)
  }

  /** A widget list without repeats renders panels with distinct keys and distinct titles. */
  lemma PanelKeysDistinct(ws: seq<WidgetType>, ts: seq<Transaction>, bs: seq<Budget>)
    requires NoDuplicates(ws)
    ensures forall i, j :: 0 <= i < j < |ws| ==>
      PanelKind(RenderWidgets(ws, ts, bs)[i]) != PanelKind(RenderWidgets(ws, ts, bs)[j])
    ensures forall i, j :: 0 <= i < j < |ws| ==>
      RenderWidgets(ws, ts, bs)[i].title != RenderWidgets(ws, ts, bs)[j].title
  {
    var ps := RenderWidgets(ws, ts, bs);
    forall i, j | 0 <= i < j < |ws| ensures ps[i].title != ps[j].title {
      assert ps[i] == RenderWidget(ws[i], ts, bs);
      assert ps[j] == RenderWidget(ws[j], ts, bs);
    }
  }

  /** The page's chart shows the same four categories and amounts as the server fallback, under its own title. */
  lemma PageChartMatchesFallback()
    ensures PageChart.data == Actions.FallbackChart.data
    ensures PageChart.title != Actions.FallbackChart.title
    ensures forall i :: 0 <= i < |PageChart.data| ==> PageChart.data[i].value >= 0.0
  {
  }

  /** The page's fixed summary and chart are payloads the output schemas accept. */
  lemma PagePayloadsPassSchemas()
    ensures SummaryValid(EncodeSummary(PageSummary))
    ensures PieChartValid(EncodePieChart(PageChart))
  {
    SummaryRoundTrip(PageSummary);
    PieChartRoundTrip(PageChart);
  }

  // ---------------------------------------------------------------------------------------
  // The screen

  datatype Content = Skeleton(config: DashboardConfig) | Grid(layout: Layout, panels: seq<Panel>)

  /** What the page renders: the loading screen, nothing (while redirecting), or the dashboard. */
  datatype Screen = LoadingScreen | Blank | Dashboard(content: Content, emptyState: bool)

  function View(profile: UserProfile, configLoading: bool, isRegenerating: bool,
                ts: seq<Transaction>, bs: seq<Budget>): Screen
  {
    var config := profile.dashboardConfig;
    if configLoading then LoadingScreen
    else if !profile.isOnboarded then Blank
    else
      Dashboard(
        if isRegenerating then Skeleton(config)
        else Grid(config.layout, RenderWidgets(config.activeWidgets, ts, bs)),
        |config.activeWidgets| == 0 && !isRegenerating)
  }

  /** The effect's condition for `router.push('/onboarding')`. */
  predicate ShouldRedirect(configLoading: bool, isOnboarded: bool)
  {
    !configLoading && !isOnboarded
  }

  /**
   * The page redirects to onboarding exactly when the configuration has loaded and the
   * profile is not onboarded, and that is exactly when it renders nothing; while the
   * configuration loads it shows the loading screen and never redirects.
   */
  lemma RedirectIffBlank(profile: UserProfile, configLoading: bool, isRegenerating: bool,
                         ts: seq<Transaction>, bs: seq<Budget>)
    ensures ShouldRedirect(configLoading, profile.isOnboarded) <==>
      View(profile, configLoading, isRegenerating, ts, bs) == Blank
    ensures View(profile, configLoading, isRegenerating, ts, bs) == LoadingScreen <==> configLoading
    ensures configLoading ==> !ShouldRedirect(configLoading, profile.isOnboarded)
  {
  }

  /**
   * Once loaded and onboarded: the skeleton shows iff regenerating, otherwise the grid uses
   * the configured layout and holds one panel per active widget in order; the empty state
   * shows iff there are no active widgets and no regeneration is running.
   */
  lemma DashboardContents(profile: UserProfile, isRegenerating: bool, ts: seq<Transaction>, bs: seq<Budget>)
    requires profile.isOnboarded
    ensures View(profile, false, isRegenerating, ts, bs).Dashboard?
    ensures View(profile, false, isRegenerating, ts, bs).content.Skeleton? <==> isRegenerating
    ensures View(profile, false, isRegenerating, ts, bs).emptyState <==>
      (profile.dashboardConfig.activeWidgets == [] && !isRegenerating)
    ensures !isRegenerating ==>
      View(profile, false, isRegenerating, ts, bs).content.layout == profile.dashboardConfig.layout
    ensures !isRegenerating ==>
      var panels := View(profile, false, isRegenerating, ts, bs).content.panels;
      |panels| == |profile.dashboardConfig.activeWidgets| &&
      forall i :: 0 <= i < |panels| ==> PanelKind(panels[i]) == profile.dashboardConfig.activeWidgets[i]
  {
  }

  /** When the empty state shows, the grid beside it really is empty. */
  lemma EmptyStateMeansNoPanels(profile: UserProfile, configLoading: bool, isRegenerating: bool,
                                ts: seq<Transaction>, bs: seq<Budget>)
    requires View(profile, configLoading, isRegenerating, ts, bs).Dashboard?
    requires View(profile, configLoading, isRegenerating, ts, bs).emptyState
    ensures View(profile, configLoading, isRegenerating, ts, bs).content == Grid(profile.dashboardConfig.layout, [])
  {
  }
}
