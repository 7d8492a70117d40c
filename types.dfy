/** The domain model: personas, widget types, the persona policy tables and the ledger records. */
module Types {
  import opened Wrappers

  datatype Persona = Relaxed | Auditor | Spender

  datatype WidgetType = SummaryWidget | TransactionsWidget | ChartWidget | BudgetWidget | AlertsWidget

  datatype Layout = Grid2 | Grid3 | List

  datatype TimeRange = Week | Month | Quarter | Year

  datatype Category = Housing | Food | Transport | Leisure | Income | Savings | Health

  datatype Status = Pending | Completed

  /** Only the persona is left of the user's preferences. */
  datatype UserPreferences = UserPreferences(persona: Persona)

  /**
   * The dashboard configuration. `widgetOrder` is declared as a list of strings but is only
   * ever assigned widget lists, so it is kept as a widget list here.
   */
  datatype DashboardConfig = DashboardConfig(
    activeWidgets: seq<WidgetType>,
    widgetOrder: seq<WidgetType>,
    layout: Layout,
    defaultTimeRange: TimeRange,
    autoRefresh: bool,
    refreshIntervalSeconds: int)

  datatype UserProfile = UserProfile(
    id: string,
    name: string,
    preferences: UserPreferences,
    dashboardConfig: DashboardConfig,
    isOnboarded: bool)

  /** A ledger entry: a positive amount is income, a negative one an expense. */
  datatype Transaction = Transaction(
    id: string,
    date: string,
    merchant: string,
    amount: real,
    category: Category,
    status: Status,
    isRecurring: Option<bool>)

  datatype Budget = Budget(category: Category, limit: real, spent: real, currency: string)

  /** The five widget types, in declaration order. */
  const AllWidgets: seq<WidgetType> :=
    [SummaryWidget, TransactionsWidget, ChartWidget, BudgetWidget, AlertsWidget]

  predicate NoDuplicates<T(==)>(s: seq<T>)
  {
    forall i, j :: 0 <= i < j < |s| ==> s[i] != s[j]
  }

  function PersonaName(p: Persona): string
  {
    match p
    case Relaxed => "relaxed"
    case Auditor => "auditor"
    case Spender => "spender"
  }

  function WidgetName(w: WidgetType): string
  {
    match w
    case SummaryWidget => "summary"
    case TransactionsWidget => "transactions"
    case ChartWidget => "chart"
    case BudgetWidget => "budget"
    case AlertsWidget => "alerts"
  }

  function CategoryName(c: Category): string
  {
    match c
    case Housing => "Housing"
    case Food => "Food"
    case Transport => "Transport"
    case Leisure => "Leisure"
    case Income => "Income"
    case Savings => "Savings"
    case Health => "Health"
  }

  function StatusName(s: Status): string
  {
    match s
    case Pending => "pending"
    case Completed => "completed"
  }

  /** The descriptive label of each persona. */
  function PersonaLabel(p: Persona): (r: string)
    ensures r != ""
  {
    match p
    case Relaxed => "Ansioso / Minimalista"
    case Auditor => "Auditor / Controlador"
    case Spender => "Estratega / Orientado a Metas"
  }

  /** The fixed, ordered widget list of each persona; never empty and never repeating a widget. */
  function PersonaWidgets(p: Persona): (ws: seq<WidgetType>)
    ensures |ws| > 0
    ensures NoDuplicates(ws)
  {
    match p
    case Relaxed => [SummaryWidget, ChartWidget, BudgetWidget]
    case Auditor => [TransactionsWidget, BudgetWidget, ChartWidget, AlertsWidget, SummaryWidget]
    case Spender => [BudgetWidget, SummaryWidget, AlertsWidget]
  }

  /** The fixed layout of each persona. */
  function PersonaLayout(p: Persona): Layout
  {
    match p
    case Relaxed => Grid2
    case Auditor => Grid3
    case Spender => List
  }

  /**
   * The auditor sees every widget: its list has all five types, each once, so it is a
   * permutation of the full widget list.
   */
  lemma AuditorSeesEverything()
    ensures |PersonaWidgets(Auditor)| == |AllWidgets| && NoDuplicates(PersonaWidgets(Auditor))
    ensures forall w: WidgetType :: w in PersonaWidgets(Auditor)
  {
    forall w: WidgetType ensures w in PersonaWidgets(Auditor) {
      var auditor := PersonaWidgets(Auditor);
      match w
      case TransactionsWidget => assert auditor[0] == w;
      case BudgetWidget => assert auditor[1] == w;
      case ChartWidget => assert auditor[2] == w;
      case AlertsWidget => assert auditor[3] == w;
      case SummaryWidget => assert auditor[4] == w;
    }
  }

  /** What each persona's list suppresses. */
  lemma PersonaSuppressions()
    ensures TransactionsWidget !in PersonaWidgets(Relaxed) && AlertsWidget !in PersonaWidgets(Relaxed)
    ensures TransactionsWidget !in PersonaWidgets(Spender) && ChartWidget !in PersonaWidgets(Spender)
    ensures forall w :: w in PersonaWidgets(Relaxed) <==> w in {SummaryWidget, ChartWidget, BudgetWidget}
    ensures forall w :: w in PersonaWidgets(Spender) <==> w in {BudgetWidget, SummaryWidget, AlertsWidget}
  {
  }

  /** Layouts: relaxed is grid-2, auditor grid-3, spender list, so no two personas share one. */
  lemma PersonaLayoutsDistinct(p: Persona, q: Persona)
    ensures PersonaLayout(Relaxed) == Grid2 && PersonaLayout(Auditor) == Grid3 && PersonaLayout(Spender) == List
    ensures PersonaLayout(p) == PersonaLayout(q) <==> p == q
  {
  }

  /** The wire names of the widget types are pairwise distinct and already differ in their first letter. */
  lemma WidgetNamesDistinct(v: WidgetType, w: WidgetType)
    ensures |WidgetName(w)| > 0
    ensures WidgetName(v)[0] == WidgetName(w)[0] ==> v == w
    ensures ',' !in WidgetName(w) && '\n' !in WidgetName(w)
  {
  }
}
