/** The application state shared by the handlers of the page, and what one render derives from it:
    balances and pockets from the whole ledger, the history from the filtered view. */
module App {
  import opened Wrappers
  import opened Transactions
  import opened Ingestion
  import opened Aggregation
  import opened Display
  import opened Categories

  datatype State = State(transactions: seq<Transaction>, categories: seq<string>, mode: Mode)

  /** Start-up: the stored ledger (empty when nothing is stored), the stored or default categories,
      and the personal view. */
  function Init(storedTransactions: Option<seq<Transaction>>, storedCategories: Option<seq<string>>): (s: State)
    ensures storedTransactions.None? ==> s.transactions == []
    ensures storedTransactions.Some? ==> s.transactions == storedTransactions.value
    ensures storedCategories.None? ==> s.categories == DefaultCategories && UniqueIgnoringCase(s.categories)
    ensures storedCategories.Some? ==> s.categories == storedCategories.value
    ensures s.mode == Personal
  {
    DefaultsUnique();
    State(storedTransactions.GetOr([]), LoadCategories(storedCategories), Personal)
  }

  /** The form's submit handler. */
  function Submit(s: State, f: Form, c: Clock): (r: State)
    ensures r.categories == s.categories && r.mode == s.mode
    ensures r.transactions == Ingest(s.transactions, f, c)
    ensures |r.transactions| > |s.transactions| && r.transactions[..|s.transactions|] == s.transactions
  {
    s.(transactions := Ingest(s.transactions, f, c))
  }

  /** The "add category" button's handler. */
  function AddCategory(s: State, input: string): (r: State)
    ensures r.transactions == s.transactions && r.mode == s.mode
    ensures r.categories == Registered(s.categories, input)
    ensures UniqueIgnoringCase(s.categories) ==> UniqueIgnoringCase(r.categories)
  {
    assert UniqueIgnoringCase(s.categories) ==> UniqueIgnoringCase(Registered(s.categories, input)) by {
      if UniqueIgnoringCase(s.categories) {
        RegistrationKeepsUnique(s.categories, input);
      }
    }
    s.(categories := Registered(s.categories, input))
  }

  /** What one render shows. */
  datatype View = View(balances: Balances, pockets: Pockets, history: seq<Transaction>)

  /** `renderAll` for the chosen month and year. */
  function RenderAll(s: State, month: Selector, year: Selector): (v: View)
    ensures v.balances.Keys == AccountSet
    ensures forall a :: a in AccountList ==> v.balances[a] == AccountTotal(s.transactions, a)
    ensures v.pockets == Summary(s.transactions)
    ensures v.pockets.modal == v.balances[BankJago]
    ensures InHistoryOrder(v.history)
    ensures forall t :: t in v.history <==> t in s.transactions && Shown(t, month, year, s.mode)
    ensures multiset(v.history) == multiset(FilteredTransactions(s.transactions, month, year, s.mode))
  {
    BalancesAreAccountTotals(s.transactions);
    var filtered := FilteredTransactions(s.transactions, month, year, s.mode);
    var history := SortHistory(filtered);
    assert forall t :: t in history <==> t in multiset(filtered);
    View(BalancesOf(s.transactions), Summary(s.transactions), history)
  }
}
