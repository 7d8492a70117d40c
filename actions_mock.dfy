/**
 * The mock dashboard generator: builds a DashboardOutput slot by slot, filling a slot only
 * when its widget is active. The ledger (transactions and budgets) is a parameter; the
 * generator is called with the fixture data.
 */
module ActionsMock {
  import opened Wrappers
  import opened Types
  import opened Schemas
  import Text
  import JsNumber
  import MockData

  /** `name.split(' ')[0]`. */
  function FirstWord(name: string): string
  {
    Text.Split(name, ' ')[0]
  }

  function MockSummary(name: string): ExpenseSummary
  {
    ExpenseSummary(Sentiment.Warning, "Estado Financiero del Mes",
      FirstWord(name) + ", has gastado $1,265 de tu presupuesto de $900 en Ocio este mes.", Some(1265.0))
  }

  /** The grid's view of a transaction: every field but `isRecurring`. */
  function RowOf(t: Transaction): TransactionRow
  {
    TransactionRow(t.id, t.date, t.merchant, t.amount, t.category, t.status)
  }

  function Rows(ts: seq<Transaction>): seq<TransactionRow>
  {
    if ts == [] then [] else [RowOf(ts[0])] + Rows(ts[1..])
  }

  /** `transactions.slice(0, 5).map(...)`: the first five transactions, in order, without `isRecurring`. */
  function FirstFiveRows(ts: seq<Transaction>): (r: seq<TransactionRow>)
    ensures |r| == if |ts| < 5 then |ts| else 5
    ensures forall i :: 0 <= i < |r| ==>
      && r[i].id == ts[i].id && r[i].date == ts[i].date && r[i].merchant == ts[i].merchant
      && r[i].amount == ts[i].amount && r[i].category == ts[i].category && r[i].status == ts[i].status
  {
    RowsAt(ts[..if |ts| < 5 then |ts| else 5]);
    Rows(ts[..if |ts| < 5 then |ts| else 5])
  }

  lemma {:induction false} RowsAt(ts: seq<Transaction>)
    ensures |Rows(ts)| == |ts|
    ensures forall i :: 0 <= i < |ts| ==> Rows(ts)[i] == RowOf(ts[i])
  {
    if ts != [] {
      RowsAt(ts[1..]);
    }
  }

  const MockChart: PieChart := PieChart(Some("Distribución por Categoría"), [
    ChartEntry("Comida", 320.0),
    ChartEntry("Transporte", 450.0),
    ChartEntry("Ocio", 1265.0),
    ChartEntry("Salud", 180.0),
    ChartEntry("Vivienda", 850.0)
  ])

  /** `Math.round((spent / limit) * 100)`. */
  function MockPercentage(b: Budget): JsNumber.Number
  {
    JsNumber.Round(JsNumber.Scale(JsNumber.Divide(b.spent, b.limit), 100.0))
  }

  function MockBudgetEntries(bs: seq<Budget>): (r: seq<BudgetEntry>)
    ensures |r| == |bs|
    ensures forall i :: 0 <= i < |bs| ==>
      r[i].category == bs[i].category && r[i].spent == bs[i].spent && r[i].limit == bs[i].limit
  {
    if bs == [] then []
    else [BudgetEntry(bs[0].category, bs[0].spent, bs[0].limit, MockPercentage(bs[0]))] + MockBudgetEntries(bs[1..])
  }

  const MockAlerts: AlertList := AlertList([
    Alert("1", Severity.Danger, "⚠️", "Presupuesto excedido", "Has superado tu presupuesto de Ocio en $365"),
    Alert("2", Severity.Warning, "💡", "Gasto frecuente detectado", "5 transacciones en restaurantes esta semana"),
    Alert("3", Severity.Info, "✓", "Ahorro en progreso", "Llevas 40% menos gasto en Transporte vs mes pasado")
  ])

  /**
   * generateDashboardMock. Starts from an empty output and fills each slot whose widget is
   * in `activeWidgets`; every slot is a function of the active widgets, the user's name and
   * the ledger only, so the persona is never read.
   */
  method GenerateDashboardMock(profile: UserProfile, transactions: seq<Transaction>, budgets: seq<Budget>)
    returns (result: DashboardOutput)
    ensures Slots(result) == set w | w in profile.dashboardConfig.activeWidgets
    ensures result.summary ==
      if SummaryWidget in profile.dashboardConfig.activeWidgets then Some(MockSummary(profile.name)) else None
    ensures result.transactions ==
      if TransactionsWidget in profile.dashboardConfig.activeWidgets then Some(TransactionList(FirstFiveRows(transactions))) else None
    ensures result.chart ==
      if ChartWidget in profile.dashboardConfig.activeWidgets then Some(MockChart) else None
    ensures result.budget ==
      if BudgetWidget in profile.dashboardConfig.activeWidgets then Some(BudgetProgress(MockBudgetEntries(budgets))) else None
    ensures result.alerts ==
      if AlertsWidget in profile.dashboardConfig.activeWidgets then Some(MockAlerts) else None
  {
    var active := profile.dashboardConfig.activeWidgets;
    result := EmptyOutput;
    if SummaryWidget in active {
      result := result.(summary := Some(MockSummary(profile.name)));
    }
    if TransactionsWidget in active {
      result := result.(transactions := Some(TransactionList(FirstFiveRows(transactions))));
    }
    if ChartWidget in active {
      result := result.(chart := Some(MockChart));
    }
    if BudgetWidget in active {
      result := result.(budget := Some(BudgetProgress(MockBudgetEntries(budgets))));
    }
    if AlertsWidget in active {
      result := result.(alerts := Some(MockAlerts));
    }
    assert Slots(result) == set w | w in active by {
      forall w ensures w in Slots(result) <==> w in active {
        match w
        case SummaryWidget => case TransactionsWidget => case ChartWidget => case BudgetWidget => case AlertsWidget =>
      }
    }
  }

  /** The summary greets the user by the first space-separated word of their name. */
  lemma MockSummaryGreetsByFirstName(name: string)
    ensures MockSummary(name).sentiment == Sentiment.Warning
    ensures MockSummary(name).totalAmount == Some(1265.0)
    ensures MockSummary(name).message[..|FirstWord(name)|] == FirstWord(name)
    ensures FirstWord(name) <= name && ' ' !in FirstWord(name)
    ensures FirstWord(name) == name || name[|FirstWord(name)|] == ' '
  {
    Text.SplitFirstPiece(name, ' ');
  }

  /** Each percentage is round(spent / limit * 100), unclamped: within one half of the exact ratio. */
  lemma {:induction false} MockPercentagesAreRounded(bs: seq<Budget>, i: nat)
    requires i < |bs| && bs[i].limit != 0.0
    ensures MockBudgetEntries(bs)[i].percentage.Finite?
    ensures var p := MockBudgetEntries(bs)[i].percentage.value;
      p == p.Floor as real && bs[i].spent / bs[i].limit * 100.0 - 0.5 < p <= bs[i].spent / bs[i].limit * 100.0 + 0.5
  {
    if i == 0 {
      JsNumber.RoundIsNearest(bs[0].spent / bs[0].limit * 100.0);
    } else {
      MockPercentagesAreRounded(bs[1..], i - 1);
    }
  }

  /** On the fixture budgets: Transport 75, Food 30, and Leisure 417 (1250 of 300; not clamped). */
  lemma FixtureBudgetPercentages()
    ensures MockBudgetEntries(MockData.MockBudgets)[0].percentage == JsNumber.Finite(75.0)
    ensures MockBudgetEntries(MockData.MockBudgets)[1].percentage == JsNumber.Finite(30.0)
    ensures MockBudgetEntries(MockData.MockBudgets)[2].percentage == JsNumber.Finite(417.0)
  {
    var bs := MockData.MockBudgets;
    assert MockBudgetEntries(bs)[2] == MockBudgetEntries(bs[1..])[1] == MockBudgetEntries(bs[2..])[0];
    assert MockBudgetEntries(bs)[1] == MockBudgetEntries(bs[1..])[0];
    assert (1250.0 / 300.0 * 100.0 + 0.5).Floor == 417;
  }

  /** Three alerts, ids "1", "2", "3", with severities danger, warning, info; the chart has five non-negative entries. */
  lemma MockFixedPayloads()
    ensures |MockAlerts.alerts| == 3
    ensures forall i :: 0 <= i < 3 ==> MockAlerts.alerts[i].id == ["1", "2", "3"][i]
    ensures forall i :: 0 <= i < 3 ==>
      MockAlerts.alerts[i].severity == [Severity.Danger, Severity.Warning, Severity.Info][i]
    ensures |MockChart.data| == 5 && forall i :: 0 <= i < 5 ==> MockChart.data[i].value >= 0.0
  {
  }

  /** Every payload the mock can produce passes its schema (summary, transaction list, pie chart). */
  lemma MockPayloadsPassSchemas(name: string, ts: seq<Transaction>)
    ensures SummaryValid(EncodeSummary(MockSummary(name)))
    ensures TransactionListValid(EncodeTransactionList(TransactionList(FirstFiveRows(ts))))
    ensures PieChartValid(EncodePieChart(MockChart))
  {
    SummaryRoundTrip(MockSummary(name));
    TransactionListRoundTrip(TransactionList(FirstFiveRows(ts)));
    PieChartRoundTrip(MockChart);
  }
}
