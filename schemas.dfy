/**
 * The widget payloads of a generated dashboard and the zod validators for the candidate
 * objects the language model returns. A validator is a predicate over a JSON value; each one
 * has a parser partner (what a successful parse yields) and an encoder (the JSON form of a
 * payload record), with lemmas tying the three together.
 */
module Schemas {
  import opened Wrappers
  import opened Types
  import opened Json
  import JsNumber

  datatype Sentiment = Healthy | Warning | Danger

  datatype ExpenseSummary = ExpenseSummary(sentiment: Sentiment, title: string, message: string, totalAmount: Option<real>)

  /** A transaction as the grid shows it: `isRecurring` is not part of it. */
  datatype TransactionRow = TransactionRow(
    id: string, date: string, merchant: string, amount: real, category: Category, status: Status)

  datatype TransactionList = TransactionList(transactions: seq<TransactionRow>)

  datatype ChartEntry = ChartEntry(name: string, value: real)

  datatype PieChart = PieChart(title: Option<string>, data: seq<ChartEntry>)

  datatype BudgetEntry = BudgetEntry(category: Category, spent: real, limit: real, percentage: JsNumber.Number)

  datatype BudgetProgress = BudgetProgress(budgets: seq<BudgetEntry>)

  datatype Severity = Danger | Warning | Info

  datatype Alert = Alert(id: string, severity: Severity, emoji: string, title: string, message: string)

  datatype AlertList = AlertList(alerts: seq<Alert>)

  /** One optional slot per widget type. */
  datatype DashboardOutput = DashboardOutput(
    summary: Option<ExpenseSummary>,
    transactions: Option<TransactionList>,
    chart: Option<PieChart>,
    budget: Option<BudgetProgress>,
    alerts: Option<AlertList>)

  const EmptyOutput: DashboardOutput := DashboardOutput(None, None, None, None, None)

  /** The widget types whose slot an output fills. */
  function Slots(o: DashboardOutput): (r: set<WidgetType>)
    ensures SummaryWidget in r <==> o.summary.Some?
    ensures TransactionsWidget in r <==> o.transactions.Some?
    ensures ChartWidget in r <==> o.chart.Some?
    ensures BudgetWidget in r <==> o.budget.Some?
    ensures AlertsWidget in r <==> o.alerts.Some?
  {
    (if o.summary.Some? then {SummaryWidget} else {}) +
    (if o.transactions.Some? then {TransactionsWidget} else {}) +
    (if o.chart.Some? then {ChartWidget} else {}) +
    (if o.budget.Some? then {BudgetWidget} else {}) +
    (if o.alerts.Some? then {AlertsWidget} else {})
  }

  function SentimentName(s: Sentiment): string
  {
    match s
    case Healthy => "healthy"
    case Warning => "warning"
    case Danger => "danger"
  }

  const SentimentNames: set<string> := {"healthy", "warning", "danger"}

  const CategoryNames: set<string> := {"Housing", "Food", "Transport", "Leisure", "Income", "Savings", "Health"}

  const StatusNames: set<string> := {"pending", "completed"}

  // ---------------------------------------------------------------- validators

  /** `z.string()` at `key`. */
  predicate HasString(f: map<string, Json>, key: string)
  {
    key in f && f[key].JString?
  }

  /** `z.number()` at `key`. */
  predicate HasNumber(f: map<string, Json>, key: string)
  {
    key in f && f[key].JNumber?
  }

  /** `z.enum(names)` at `key`. */
  predicate HasEnum(f: map<string, Json>, key: string, names: set<string>)
  {
    key in f && f[key].JString? && f[key].s in names
  }

  /** expenseSummarySchema. `z.object` accepts only objects and ignores keys it does not name. */
  predicate SummaryValid(v: Json)
  {
    && v.JObject?
    && HasEnum(v.fields, "sentiment", SentimentNames)
    && HasString(v.fields, "title")
    && HasString(v.fields, "message")
    && ("totalAmount" in v.fields ==> v.fields["totalAmount"].JNumber?)
  }

  /** transactionSchema. */
  predicate TransactionValid(v: Json)
  {
    && v.JObject?
    && HasString(v.fields, "id")
    && HasString(v.fields, "date")
    && HasString(v.fields, "merchant")
    && HasNumber(v.fields, "amount")
    && HasEnum(v.fields, "category", CategoryNames)
    && HasEnum(v.fields, "status", StatusNames)
  }

  /** transactionListSchema: an object whose `transactions` is an array of valid transactions. */
  predicate TransactionListValid(v: Json)
  {
    && v.JObject?
    && "transactions" in v.fields
    && v.fields["transactions"].JArray?
    && forall i :: 0 <= i < |v.fields["transactions"].items| ==> TransactionValid(v.fields["transactions"].items[i])
  }

  predicate ChartEntryValid(v: Json)
  {
    v.JObject? && HasString(v.fields, "name") && HasNumber(v.fields, "value")
  }

  /** pieChartSchema: optional string title, and data entries with a name and any number as value. */
  predicate PieChartValid(v: Json)
  {
    && v.JObject?
    && ("title" in v.fields ==> v.fields["title"].JString?)
    && "data" in v.fields
    && v.fields["data"].JArray?
    && forall i :: 0 <= i < |v.fields["data"].items| ==> ChartEntryValid(v.fields["data"].items[i])
  }

  // ---------------------------------------------------------------- parsers

  function SentimentFromName(n: string): (r: Option<Sentiment>)
    ensures r.Some? <==> n in SentimentNames
    ensures r.Some? ==> SentimentName(r.value) == n
  {
    if n == "healthy" then Some(Healthy)
    else if n == "warning" then Some(Sentiment.Warning)
    else if n == "danger" then Some(Sentiment.Danger)
    else None
  }

  function CategoryFromName(n: string): (r: Option<Category>)
    ensures r.Some? <==> n in CategoryNames
    ensures r.Some? ==> CategoryName(r.value) == n
  {
    if n == "Housing" then Some(Housing)
    else if n == "Food" then Some(Food)
    else if n == "Transport" then Some(Transport)
    else if n == "Leisure" then Some(Leisure)
    else if n == "Income" then Some(Income)
    else if n == "Savings" then Some(Savings)
    else if n == "Health" then Some(Health)
    else None
  }

  function StatusFromName(n: string): (r: Option<Status>)
    ensures r.Some? <==> n in StatusNames
    ensures r.Some? ==> StatusName(r.value) == n
  {
    if n == "pending" then Some(Pending)
    else if n == "completed" then Some(Completed)
    else None
  }

  function StringAt(f: map<string, Json>, key: string): Option<string>
  {
    if key in f && f[key].JString? then Some(f[key].s) else None
  }

  function NumberAt(f: map<string, Json>, key: string): Option<real>
  {
    if key in f && f[key].JNumber? then Some(f[key].n) else None
  }

  /** What a successful `expenseSummarySchema.parse` yields. */
  function ParseSummary(v: Json): Option<ExpenseSummary>
  {
    match v
    case JObject(f) =>
      if "sentiment" !in f || !f["sentiment"].JString? then None
      else
        (match (SentimentFromName(f["sentiment"].s), StringAt(f, "title"), StringAt(f, "message"))
         case (Some(sentiment), Some(title), Some(message)) =>
           if "totalAmount" !in f then Some(ExpenseSummary(sentiment, title, message, None))
           else if f["totalAmount"].JNumber? then Some(ExpenseSummary(sentiment, title, message, Some(f["totalAmount"].n)))
           else None
         case _ => None)
    case _ => None
  }

  function ParseTransaction(v: Json): Option<TransactionRow>
  {
    match v
    case JObject(f) =>
      if "category" !in f || !f["category"].JString? || "status" !in f || !f["status"].JString? then None
      else
        (match (StringAt(f, "id"), StringAt(f, "date"), StringAt(f, "merchant"), NumberAt(f, "amount"),
                CategoryFromName(f["category"].s), StatusFromName(f["status"].s))
         case (Some(id), Some(date), Some(merchant), Some(amount), Some(category), Some(status)) =>
           Some(TransactionRow(id, date, merchant, amount, category, status))
         case _ => None)
    case _ => None
  }

  function ParseTransactions(items: seq<Json>): Option<seq<TransactionRow>>
  {
    if items == [] then Some([])
    else
      match (ParseTransaction(items[0]), ParseTransactions(items[1..]))
      case (Some(t), Some(rest)) => Some([t] + rest)
      case _ => None
  }

  function ParseTransactionList(v: Json): Option<TransactionList>
  {
    match v
    case JObject(f) =>
      if "transactions" in f && f["transactions"].JArray? then
        (match ParseTransactions(f["transactions"].items)
         case Some(rows) => Some(TransactionList(rows))
         case None => None)
      else None
    case _ => None
  }

  function ParseChartEntry(v: Json): Option<ChartEntry>
  {
    match v
    case JObject(f) =>
      (match (StringAt(f, "name"), NumberAt(f, "value"))
       case (Some(name), Some(value)) => Some(ChartEntry(name, value))
       case _ => None)
    case _ => None
  }

  function ParseChartEntries(items: seq<Json>): Option<seq<ChartEntry>>
  {
    if items == [] then Some([])
    else
      match (ParseChartEntry(items[0]), ParseChartEntries(items[1..]))
      case (Some(e), Some(rest)) => Some([e] + rest)
      case _ => None
  }

  function ParsePieChart(v: Json): Option<PieChart>
  {
    match v
    case JObject(f) =>
      if "data" !in f || !f["data"].JArray? then None
      else if "title" in f && !f["title"].JString? then None
      else
        (match ParseChartEntries(f["data"].items)
         case Some(data) => Some(PieChart(if "title" in f then Some(f["title"].s) else None, data))
         case None => None)
    case _ => None
  }

  // ---------------------------------------------------------------- encoders

  function EncodeSummary(s: ExpenseSummary): Json
  {
    var base := map["sentiment" := JString(SentimentName(s.sentiment)), "title" := JString(s.title),
                    "message" := JString(s.message)];
    JObject(if s.totalAmount.Some? then base["totalAmount" := JNumber(s.totalAmount.value)] else base)
  }

  function EncodeTransaction(t: TransactionRow): Json
  {
    JObject(map["id" := JString(t.id), "date" := JString(t.date), "merchant" := JString(t.merchant),
                "amount" := JNumber(t.amount), "category" := JString(CategoryName(t.category)),
                "status" := JString(StatusName(t.status))])
  }

  function EncodeTransactions(rows: seq<TransactionRow>): (r: seq<Json>)
    ensures |r| == |rows|
    ensures forall i :: 0 <= i < |rows| ==> r[i] == EncodeTransaction(rows[i])
  {
    if rows == [] then [] else [EncodeTransaction(rows[0])] + EncodeTransactions(rows[1..])
  }

  function EncodeTransactionList(l: TransactionList): Json
  {
    JObject(map["transactions" := JArray(EncodeTransactions(l.transactions))])
  }

  function EncodeChartEntry(e: ChartEntry): Json
  {
    JObject(map["name" := JString(e.name), "value" := JNumber(e.value)])
  }

  function EncodeChartEntries(entries: seq<ChartEntry>): (r: seq<Json>)
    ensures |r| == |entries|
    ensures forall i :: 0 <= i < |entries| ==> r[i] == EncodeChartEntry(entries[i])
  {
    if entries == [] then [] else [EncodeChartEntry(entries[0])] + EncodeChartEntries(entries[1..])
  }

  function EncodePieChart(c: PieChart): Json
  {
    var data := map["data" := JArray(EncodeChartEntries(c.data))];
    JObject(if c.title.Some? then data["title" := JString(c.title.value)] else data)
  }

  // ---------------------------------------------------------------- properties

  /** expenseSummarySchema accepts exactly what its parser turns into a summary. */
  lemma SummaryParseIffValid(v: Json)
    ensures ParseSummary(v).Some? <==> SummaryValid(v)
  {
  }

  /** Encoding a summary and parsing it back yields the same summary. */
  lemma SummaryRoundTrip(s: ExpenseSummary)
    ensures SummaryValid(EncodeSummary(s))
    ensures ParseSummary(EncodeSummary(s)) == Some(s)
  {
    match s.sentiment
    case Healthy =>
    case Warning =>
    case Danger =>
  }

  lemma TransactionParseIffValid(v: Json)
    ensures ParseTransaction(v).Some? <==> TransactionValid(v)
  {
  }

  lemma TransactionRoundTrip(t: TransactionRow)
    ensures TransactionValid(EncodeTransaction(t))
    ensures ParseTransaction(EncodeTransaction(t)) == Some(t)
  {
    var f := EncodeTransaction(t).fields;
    assert CategoryFromName(CategoryName(t.category)) == Some(t.category) by {
      match t.category
      case Housing => case Food => case Transport => case Leisure => case Income => case Savings => case Health =>
    }
    assert StatusFromName(StatusName(t.status)) == Some(t.status) by {
      match t.status
      case Pending => case Completed =>
    }
  }

  lemma {:induction false} TransactionsParseIffValid(items: seq<Json>)
    ensures ParseTransactions(items).Some? <==> forall i :: 0 <= i < |items| ==> TransactionValid(items[i])
    ensures ParseTransactions(items).Some? ==> |ParseTransactions(items).value| == |items|
  {
    if items != [] {
      TransactionsParseIffValid(items[1..]);
      TransactionParseIffValid(items[0]);
      if forall i :: 0 <= i < |items| ==> TransactionValid(items[i]) {
        assert forall i :: 0 <= i < |items[1..]| ==> TransactionValid(items[1..][i]) by {
          forall i | 0 <= i < |items[1..]| ensures TransactionValid(items[1..][i]) {
            assert items[1..][i] == items[i + 1];
          }
        }
      } else {
        var k :| 0 <= k < |items| && !TransactionValid(items[k]);
        if k > 0 { assert items[1..][k - 1] == items[k]; }
      }
    }
  }

  /** transactionListSchema accepts an object exactly when every transaction in it is valid; [] is valid. */
  lemma TransactionListParseIffValid(v: Json)
    ensures ParseTransactionList(v).Some? <==> TransactionListValid(v)
    ensures TransactionListValid(JObject(map["transactions" := JArray([])]))
  {
    if v.JObject? && "transactions" in v.fields && v.fields["transactions"].JArray? {
      TransactionsParseIffValid(v.fields["transactions"].items);
    }
  }

  lemma {:induction false} TransactionsRoundTrip(rows: seq<TransactionRow>)
    ensures ParseTransactions(EncodeTransactions(rows)) == Some(rows)
  {
    if rows != [] {
      TransactionRoundTrip(rows[0]);
      TransactionsRoundTrip(rows[1..]);
      assert EncodeTransactions(rows)[1..] == EncodeTransactions(rows[1..]);
      assert [rows[0]] + rows[1..] == rows;
    }
  }

  /** Every transaction list the synthesizers can build passes transactionListSchema and parses back to itself. */
  lemma TransactionListRoundTrip(l: TransactionList)
    ensures TransactionListValid(EncodeTransactionList(l))
    ensures ParseTransactionList(EncodeTransactionList(l)) == Some(l)
  {
    var j := JObject(map["transactions" := JArray(EncodeTransactions(l.transactions))]);
    assert EncodeTransactionList(l) == j;
    TransactionsRoundTrip(l.transactions);
    assert ParseTransactionList(j) == Some(TransactionList(l.transactions));
    TransactionListParseIffValid(j);
  }

  lemma {:induction false} ChartEntriesParseIffValid(items: seq<Json>)
    ensures ParseChartEntries(items).Some? <==> forall i :: 0 <= i < |items| ==> ChartEntryValid(items[i])
  {
    if items != [] {
      ChartEntriesParseIffValid(items[1..]);
      if forall i :: 0 <= i < |items| ==> ChartEntryValid(items[i]) {
        assert forall i :: 0 <= i < |items[1..]| ==> ChartEntryValid(items[1..][i]) by {
          forall i | 0 <= i < |items[1..]| ensures ChartEntryValid(items[1..][i]) {
            assert items[1..][i] == items[i + 1];
          }
        }
      } else {
        var k :| 0 <= k < |items| && !ChartEntryValid(items[k]);
        if k > 0 { assert items[1..][k - 1] == items[k]; }
      }
    }
  }

  /** pieChartSchema accepts exactly what its parser accepts; negative values are accepted. */
  lemma PieChartParseIffValid(v: Json)
    ensures ParsePieChart(v).Some? <==> PieChartValid(v)
    ensures PieChartValid(JObject(map["data" := JArray([JObject(map["name" := JString("Ocio"), "value" := JNumber(-5.0)])])]))
  {
    if v.JObject? && "data" in v.fields && v.fields["data"].JArray? {
      ChartEntriesParseIffValid(v.fields["data"].items);
    }
    var entry := JObject(map["name" := JString("Ocio"), "value" := JNumber(-5.0)]);
    assert ChartEntryValid(entry);
    var chart := JObject(map["data" := JArray([entry])]);
    assert chart.fields["data"].items[0] == entry;
  }

  lemma {:induction false} ChartEntriesRoundTrip(entries: seq<ChartEntry>)
    ensures ParseChartEntries(EncodeChartEntries(entries)) == Some(entries)
  {
    if entries != [] {
      ChartEntriesRoundTrip(entries[1..]);
      assert EncodeChartEntries(entries)[1..] == EncodeChartEntries(entries[1..]);
      assert [entries[0]] + entries[1..] == entries;
    }
  }

  /** Every pie chart the synthesizers can build passes pieChartSchema and parses back to itself. */
  lemma PieChartRoundTrip(c: PieChart)
    ensures PieChartValid(EncodePieChart(c))
    ensures ParsePieChart(EncodePieChart(c)) == Some(c)
  {
    var data := map["data" := JArray(EncodeChartEntries(c.data))];
    ChartEntriesRoundTrip(c.data);
    match c.title
    case Some(t) =>
      var j := JObject(data["title" := JString(t)]);
      assert EncodePieChart(c) == j;
      assert ParsePieChart(j) == Some(PieChart(Some(t), c.data));
      PieChartParseIffValid(j);
    case None =>
      var j := JObject(data);
      assert EncodePieChart(c) == j;
      assert ParsePieChart(j) == Some(PieChart(None, c.data));
      PieChartParseIffValid(j);
  }
}
