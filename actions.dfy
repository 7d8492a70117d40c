/**
 * The dashboard server action: call the generator with the two prompts and return its
 * object, or, when it throws, a fallback built slot by slot from the active widgets. Also the
 * repair-and-default step of the legacy summary tool.
 */
module Actions {
  import opened Wrappers
  import opened Types
  import opened Schemas
  import opened Json
  import JsNumber
  import MockData
  import Prompts
  import ActionsMock

  /** What the language-model call does: produce an object that passed the output schema, or throw. */
  datatype GeneratorOutcome = Produced(output: DashboardOutput) | Threw

  const FallbackSummary: ExpenseSummary := ExpenseSummary(Sentiment.Warning, "Error al generar análisis",
    "Ocurrió un error al conectar con el servicio de análisis. Mostrando datos de ejemplo.", Some(1265.0))

  const FallbackChart: PieChart := PieChart(Some("Distribución por Categoría"), [
    ChartEntry("Comida", 120.0),
    ChartEntry("Transporte", 150.0),
    ChartEntry("Ocio", 1250.0),
    ChartEntry("Salud", 80.0)
  ])

  /** `(spent / limit) * 100`, neither rounded nor clamped. */
  function FallbackPercentage(b: Budget): JsNumber.Number
  {
    JsNumber.Scale(JsNumber.Divide(b.spent, b.limit), 100.0)
  }

  function FallbackBudgetEntries(bs: seq<Budget>): (r: seq<BudgetEntry>)
    ensures |r| == |bs|
    ensures forall i :: 0 <= i < |bs| ==>
      r[i].category == bs[i].category && r[i].spent == bs[i].spent && r[i].limit == bs[i].limit
  {
    if bs == [] then []
    else [BudgetEntry(bs[0].category, bs[0].spent, bs[0].limit, FallbackPercentage(bs[0]))] + FallbackBudgetEntries(bs[1..])
  }

  const FallbackAlerts: AlertList := AlertList([
    Alert("1", Severity.Danger, "⚠️", "Presupuesto excedido", "Has superado tu presupuesto de Ocio en $950"),
    Alert("2", Severity.Warning, "💡", "Patrón detectado", "3 gastos en Uber en los últimos 2 días")
  ])

  /** `result` is the fallback for these active widgets: exactly the active slots, each with its fixed payload. */
  predicate IsFallback(result: DashboardOutput, active: seq<WidgetType>, transactions: seq<Transaction>, budgets: seq<Budget>)
  {
    && Slots(result) == (set w | w in active)
    && result.summary == (if SummaryWidget in active then Some(FallbackSummary) else None)
    && result.transactions ==
      (if TransactionsWidget in active then Some(TransactionList(ActionsMock.FirstFiveRows(transactions))) else None)
    && result.chart == (if ChartWidget in active then Some(FallbackChart) else None)
    && result.budget == (if BudgetWidget in active then Some(BudgetProgress(FallbackBudgetEntries(budgets))) else None)
    && result.alerts == (if AlertsWidget in active then Some(FallbackAlerts) else None)
  }

  /** The catch branch of generateDashboard: start empty, add one slot per active widget. */
  method Fallback(profile: UserProfile, transactions: seq<Transaction>, budgets: seq<Budget>)
    returns (fallback: DashboardOutput)
    ensures IsFallback(fallback, profile.dashboardConfig.activeWidgets, transactions, budgets)
  {
    var active := profile.dashboardConfig.activeWidgets;
    fallback := EmptyOutput;
    if SummaryWidget in active {
      fallback := fallback.(summary := Some(FallbackSummary));
    }
    if TransactionsWidget in active {
      fallback := fallback.(transactions := Some(TransactionList(ActionsMock.FirstFiveRows(transactions))));
    }
    if ChartWidget in active {
      fallback := fallback.(chart := Some(FallbackChart));
    }
    if BudgetWidget in active {
      fallback := fallback.(budget := Some(BudgetProgress(FallbackBudgetEntries(budgets))));
    }
    if AlertsWidget in active {
      fallback := fallback.(alerts := Some(FallbackAlerts));
    }
    assert Slots(fallback) == set w | w in active by {
      forall w ensures w in Slots(fallback) <==> w in active {
        match w
        case SummaryWidget => case TransactionsWidget => case ChartWidget => case BudgetWidget => case AlertsWidget =>
      }
    }
  }

  /**
   * generateDashboard. The generator is handed the system prompt for the profile and the user
   * prompt for the ledger; a produced object is returned unchanged, an exception yields the fallback.
   */
  method GenerateDashboard(
    profile: UserProfile, transactions: seq<Transaction>, budgets: seq<Budget>,
    generate: (string, string) -> GeneratorOutcome,
    stringifyTransactions: seq<Transaction> -> string, stringifyBudgets: seq<Budget> -> string)
    returns (result: DashboardOutput)
    ensures var outcome := generate(Prompts.SystemPrompt(profile),
      Prompts.UserPrompt(transactions, budgets, stringifyTransactions, stringifyBudgets));
      && (outcome.Produced? ==> result == outcome.output)
      && (outcome.Threw? ==> IsFallback(result, profile.dashboardConfig.activeWidgets, transactions, budgets))
  {
    var systemPrompt := Prompts.SystemPrompt(profile);
    var userPrompt := Prompts.UserPrompt(transactions, budgets, stringifyTransactions, stringifyBudgets);
    var outcome := generate(systemPrompt, userPrompt);
    if outcome.Produced? {
      result := outcome.output;
    } else {
      result := Fallback(profile, transactions, budgets);
    }
  }

  /** The fallback budget percentage is the exact ratio times 100; a zero limit gives Infinity or NaN. */
  lemma {:induction false} FallbackPercentagesExact(bs: seq<Budget>, i: nat)
    requires i < |bs|
    ensures bs[i].limit != 0.0 ==>
      FallbackBudgetEntries(bs)[i].percentage == JsNumber.Finite(bs[i].spent / bs[i].limit * 100.0)
    ensures bs[i].limit == 0.0 ==> !FallbackBudgetEntries(bs)[i].percentage.Finite?
  {
    if i > 0 {
      FallbackPercentagesExact(bs[1..], i - 1);
    }
  }

  /** Two alerts, ids "1" and "2", danger then warning; the chart has four non-negative entries. */
  lemma FallbackFixedPayloads()
    ensures |FallbackAlerts.alerts| == 2
    ensures FallbackAlerts.alerts[0].id == "1" && FallbackAlerts.alerts[0].severity == Severity.Danger
    ensures FallbackAlerts.alerts[1].id == "2" && FallbackAlerts.alerts[1].severity == Severity.Warning
    ensures |FallbackChart.data| == 4 && forall i :: 0 <= i < 4 ==> FallbackChart.data[i].value >= 0.0
    ensures FallbackSummary.sentiment == Sentiment.Warning && FallbackSummary.totalAmount == Some(1265.0)
  {
  }

  /** On the Leisure fixture (1250 of 300) the fallback shows 1250/3 percent while the mock shows 417. */
  lemma RoundingDisagreement()
    ensures FallbackBudgetEntries(MockData.MockBudgets)[2].percentage == JsNumber.Finite(1250.0 / 3.0)
    ensures ActionsMock.MockBudgetEntries(MockData.MockBudgets)[2].percentage == JsNumber.Finite(417.0)
    ensures FallbackBudgetEntries(MockData.MockBudgets)[2].percentage
      != ActionsMock.MockBudgetEntries(MockData.MockBudgets)[2].percentage
  {
    var bs := MockData.MockBudgets;
    FallbackPercentagesExact(bs, 2);
    ActionsMock.FixtureBudgetPercentages();
  }

  /** Every payload the fallback can produce passes its schema. */
  lemma FallbackPayloadsPassSchemas(ts: seq<Transaction>)
    ensures SummaryValid(EncodeSummary(FallbackSummary))
    ensures TransactionListValid(EncodeTransactionList(TransactionList(ActionsMock.FirstFiveRows(ts))))
    ensures PieChartValid(EncodePieChart(FallbackChart))
  {
    SummaryRoundTrip(FallbackSummary);
    TransactionListRoundTrip(TransactionList(ActionsMock.FirstFiveRows(ts)));
    PieChartRoundTrip(FallbackChart);
  }

  /** The props handed to the summary card after defaulting. */
  datatype SafeProps = SafeProps(sentiment: Json, title: Json, message: Json, totalAmount: Option<Json>)

  /**
   * The defaults object: `finalProps.x || default` for sentiment, title and message, totalAmount
   * as is. Reading a property of null throws.
   */
  function SafeSummaryProps(finalProps: Json): (r: Result<SafeProps, TypeError>)
    ensures r.Failure? <==> finalProps.JNull?
  {
    match Property(finalProps, "sentiment")
    case Failure(e) => Failure(e)
    case Success(sentiment) =>
      var title := Property(finalProps, "title").value;
      var message := Property(finalProps, "message").value;
      var totalAmount := Property(finalProps, "totalAmount").value;
      Success(SafeProps(
        Or(sentiment, JString("warning")),
        Or(title, JString("Resumen del Mes")),
        Or(message, JString("Revisando tus movimientos...")),
        totalAmount))
  }

  /**
   * The summary tool's repair: a non-empty array is replaced by its first element (an empty
   * array or any other value is kept), then the defaults are applied.
   */
  method ShowSummaryCard(props: Json) returns (safeProps: Result<SafeProps, TypeError>)
    ensures props.JArray? && |props.items| > 0 ==> safeProps == SafeSummaryProps(props.items[0])
    ensures !(props.JArray? && |props.items| > 0) ==> safeProps == SafeSummaryProps(props)
  {
    var finalProps := props;
    if props.JArray? && |props.items| > 0 {
      finalProps := props.items[0];
    }
    safeProps := SafeSummaryProps(finalProps);
  }

  /**
   * Defaulting never leaves a blank field: sentiment, title and message are truthy; a truthy
   * field keeps its value and a falsy one takes its default; totalAmount passes through.
   */
  lemma SafePropsDefaults(finalProps: Json)
    requires !finalProps.JNull?
    ensures var r := SafeSummaryProps(finalProps).value;
      && Truthy(Some(r.sentiment)) && Truthy(Some(r.title)) && Truthy(Some(r.message))
      && r.totalAmount == Property(finalProps, "totalAmount").value
      && (Truthy(Property(finalProps, "title").value) ==> Some(r.title) == Property(finalProps, "title").value)
      && (!Truthy(Property(finalProps, "sentiment").value) ==> r.sentiment == JString("warning"))
      && (!Truthy(Property(finalProps, "title").value) ==> r.title == JString("Resumen del Mes"))
      && (!Truthy(Property(finalProps, "message").value) ==> r.message == JString("Revisando tus movimientos..."))
  {
  }

  /**
   * A summary that passes its schema comes through the repair unchanged (sentiment, title and
   * message are non-empty strings), whether it arrives bare or as the first element of an array.
   */
  lemma ValidSummaryRepairedUnchanged(s: ExpenseSummary, extra: seq<Json>)
    requires s.title != "" && s.message != ""
    ensures var expected := Success(SafeProps(JString(SentimentName(s.sentiment)), JString(s.title),
        JString(s.message), if s.totalAmount.Some? then Some(JNumber(s.totalAmount.value)) else None));
      && SafeSummaryProps(EncodeSummary(s)) == expected
      && SafeSummaryProps(JArray([EncodeSummary(s)] + extra).items[0]) == expected
  {
    assert SentimentName(s.sentiment) != "" by {
      match s.sentiment
      case Healthy => case Warning => case Danger =>
    }
  }
}
