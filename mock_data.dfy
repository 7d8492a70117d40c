/** The fixture profiles, transactions and budgets the dashboard is built from. */
module MockData {
  import opened Wrappers
  import opened Types

  const UserSofia: UserProfile := UserProfile(
    "u_relaxed_01",
    "Sofía (Estudiante)",
    UserPreferences(Relaxed),
    DashboardConfig(PersonaWidgets(Relaxed), PersonaWidgets(Relaxed), PersonaLayout(Relaxed), Month, false, 300),
    true)

  const UserCarlos: UserProfile := UserProfile(
    "u_auditor_02",
    "Carlos (Contador)",
    UserPreferences(Auditor),
    DashboardConfig(PersonaWidgets(Auditor), PersonaWidgets(Auditor), PersonaLayout(Auditor), Quarter, true, 60),
    true)

  /**
   * The seven fixture transactions. `getDay(offset)` is the ISO date `offset` days before
   * the moment the module was loaded; the clock is outside the model, so it is a parameter.
   */
  function MockTransactions(getDay: nat -> string): (ts: seq<Transaction>)
    ensures |ts| == 7
  {
    [ Transaction("t1", getDay(2), "Empresa Tech S.A.", 2500.0, Income, Completed, Some(true)),
      Transaction("t2", getDay(1), "Uber Trip", -15.5, Transport, Completed, None),
      Transaction("t3", getDay(1), "Uber Trip", -12.2, Transport, Completed, None),
      Transaction("t4", getDay(2), "Uber Trip", -28.0, Transport, Completed, None),
      Transaction("t5", getDay(3), "Apple Store", -1200.0, Leisure, Completed, None),
      Transaction("t6", getDay(0), "Starbucks", -5.5, Food, Pending, None),
      Transaction("t7", getDay(1), "Starbucks", -4.9, Food, Completed, Some(true)) ]
  }

  const MockBudgets: seq<Budget> := [
    Budget(Transport, 200.0, 150.0, "USD"),
    Budget(Food, 400.0, 120.0, "USD"),
    Budget(Leisure, 300.0, 1250.0, "USD")
  ]

  /** The transaction ids t1..t7 are pairwise distinct. */
  lemma TransactionIdsDistinct(getDay: nat -> string)
    ensures forall i, j :: 0 <= i < j < 7 ==> MockTransactions(getDay)[i].id != MockTransactions(getDay)[j].id
  {
  }

  /** Only the income transaction t1 brings money in; every other entry is an expense. */
  lemma OnlyIncomeIsPositive(getDay: nat -> string)
    ensures forall i :: 0 <= i < 7 ==>
      (MockTransactions(getDay)[i].amount > 0.0 <==> i == 0) &&
      (MockTransactions(getDay)[i].amount > 0.0 <==> MockTransactions(getDay)[i].category == Income) &&
      (i > 0 ==> MockTransactions(getDay)[i].amount < 0.0)
  {
  }

  /** Each budget category appears once; Transport is at 75%, Food at 30% and Leisure is over its limit. */
  lemma BudgetFixtureFacts()
    ensures NoDuplicates(seq(|MockBudgets|, i requires 0 <= i < |MockBudgets| => MockBudgets[i].category))
    ensures MockBudgets[0].category == Transport && MockBudgets[0].spent / MockBudgets[0].limit * 100.0 == 75.0
    ensures MockBudgets[1].category == Food && MockBudgets[1].spent / MockBudgets[1].limit * 100.0 == 30.0
    ensures MockBudgets[2].category == Leisure && MockBudgets[2].spent > MockBudgets[2].limit
    ensures forall i :: 0 <= i < |MockBudgets| ==> MockBudgets[i].limit > 0.0 && MockBudgets[i].spent >= 0.0
  {
  }

  /** Both fixture profiles take their widgets (for both lists) and layout from the persona tables. */
  lemma ProfilesFollowPersonaTables()
    ensures UserSofia.dashboardConfig.activeWidgets == PersonaWidgets(UserSofia.preferences.persona)
    ensures UserSofia.dashboardConfig.widgetOrder == PersonaWidgets(UserSofia.preferences.persona)
    ensures UserSofia.dashboardConfig.layout == PersonaLayout(UserSofia.preferences.persona) == Grid2
    ensures UserCarlos.dashboardConfig.activeWidgets == PersonaWidgets(UserCarlos.preferences.persona)
    ensures UserCarlos.dashboardConfig.widgetOrder == PersonaWidgets(UserCarlos.preferences.persona)
    ensures UserCarlos.dashboardConfig.layout == PersonaLayout(UserCarlos.preferences.persona) == Grid3
    ensures UserSofia.preferences.persona == Relaxed && UserCarlos.preferences.persona == Auditor
  {
  }
}
