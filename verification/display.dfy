/** The history view: the month/year/mode filter of `getFilteredTransactions`, the ordering of the
    history list, and the totals of the printable report. */
module Display {
  import opened Seqs
  import opened Transactions

  /** A month or year filter: either `'all'` or one value. */
  datatype Selector = All | Only(value: int)

  /** The view mode: `'pribadi'` shows personal records, `'bisnis'` business records. */
  datatype Mode = Personal | Business

  predicate Selects(s: Selector, v: int) {
    s.All? || s.value == v
  }

  /** The month and the year filter both accept the record's date. */
  predicate DateMatches(t: Transaction, month: Selector, year: Selector) {
    Selects(month, t.tanggal.month) && Selects(year, t.tanggal.year)
  }

  /** A record is a business record exactly when its category is `Bisnis`. */
  predicate IsBusiness(t: Transaction) {
    t.kategori == Bisnis
  }

  predicate ModeMatches(t: Transaction, mode: Mode) {
    if mode == Business then IsBusiness(t) else !IsBusiness(t)
  }

  predicate Shown(t: Transaction, month: Selector, year: Selector, mode: Mode) {
    DateMatches(t, month, year) && ModeMatches(t, mode)
  }

  /** `getFilteredTransactions`: the records the history shows for the chosen month, year and mode. */
  function FilteredTransactions(l: seq<Transaction>, month: Selector, year: Selector, mode: Mode): (r: seq<Transaction>)
    ensures forall t :: t in r <==> t in l && DateMatches(t, month, year) && ModeMatches(t, mode)
  {
    Filter(l, (t: Transaction) => Shown(t, month, year, mode))
  }

  /** The records of the chosen month and year, whatever their mode. */
  function DateFiltered(l: seq<Transaction>, month: Selector, year: Selector): seq<Transaction> {
    Filter(l, (t: Transaction) => DateMatches(t, month, year))
  }

  /** The view keeps the ledger's order and only drops records. */
  lemma FilteredIsSubsequence(l: seq<Transaction>, month: Selector, year: Selector, mode: Mode)
    ensures IsSubsequence(FilteredTransactions(l, month, year, mode), l)
  {
    FilterIsSubsequence(l, (t: Transaction) => Shown(t, month, year, mode));
  }

  /** Choosing `'all'` for both month and year imposes no date constraint. */
  lemma AllDatesKeepEverything(l: seq<Transaction>)
    ensures DateFiltered(l, All, All) == l
  {
    FilterKeepsAll(l, (t: Transaction) => DateMatches(t, All, All));
  }

  /** The business view and the personal view split the records of a month and year between them:
      no record is in both, and together they hold each of those records exactly as often as the ledger does. */
  lemma ModesPartitionDateFilter(l: seq<Transaction>, month: Selector, year: Selector)
    ensures forall t :: !(t in FilteredTransactions(l, month, year, Business) && t in FilteredTransactions(l, month, year, Personal))
    ensures multiset(FilteredTransactions(l, month, year, Business)) + multiset(FilteredTransactions(l, month, year, Personal))
         == multiset(DateFiltered(l, month, year))
  {
    var d := (t: Transaction) => DateMatches(t, month, year);
    var b := (t: Transaction) => ModeMatches(t, Business);
    var p := (t: Transaction) => ModeMatches(t, Personal);
    FilterConjunction(l, d, b, (t: Transaction) => Shown(t, month, year, Business));
    FilterConjunction(l, d, p, (t: Transaction) => Shown(t, month, year, Personal));
    FilterPartition(Filter(l, d), b, p);
  }

  /** `new Date(x) - new Date(y)` up to its sign: positive when `x` is the later date. */
  function DateCompare(x: Date, y: Date): int {
    if x.year != y.year then x.year - y.year
    else if x.month != y.month then x.month - y.month
    else x.day - y.day
  }

  /** `x` is a strictly later calendar date than `y`. */
  predicate LaterDate(x: Date, y: Date) {
    || x.year > y.year
    || (x.year == y.year && x.month > y.month)
    || (x.year == y.year && x.month == y.month && x.day > y.day)
  }

  /** The history comparator: negative when `a` is listed before `b`, that is, newest date first and,
      within one date, the larger id first. */
  function HistoryCompare(a: Transaction, b: Transaction): int {
    var d := DateCompare(b.tanggal, a.tanggal);
    if d != 0 then d else b.id - a.id
  }

  /** What the comparator means, in terms of dates and ids. */
  lemma HistoryCompareMeaning(a: Transaction, b: Transaction)
    ensures HistoryCompare(a, b) < 0 <==> LaterDate(a.tanggal, b.tanggal) || (a.tanggal == b.tanggal && a.id > b.id)
    ensures HistoryCompare(a, b) == 0 <==> a.tanggal == b.tanggal && a.id == b.id
  {
  }

  /** The comparator is consistent, as a sort needs: swapping the arguments negates it, and "not after"
      is transitive. */
  lemma HistoryCompareConsistent(a: Transaction, b: Transaction, c: Transaction)
    ensures HistoryCompare(a, b) == -HistoryCompare(b, a)
    ensures HistoryCompare(a, b) <= 0 && HistoryCompare(b, c) <= 0 ==> HistoryCompare(a, c) <= 0
  {
  }

  /** No record is listed after one that should follow it. */
  predicate InHistoryOrder(s: seq<Transaction>) {
    forall i, j :: 0 <= i < j < |s| ==> HistoryCompare(s[i], s[j]) <= 0
  }

  /** Inserts `x` into an ordered list after every record that does not follow it. */
  function Insert(x: Transaction, s: seq<Transaction>): (r: seq<Transaction>)
    requires InHistoryOrder(s)
    ensures InHistoryOrder(r)
    ensures multiset(r) == multiset(s) + multiset{x}
  {
    if s == [] then [x]
    else if HistoryCompare(x, s[0]) < 0 then
      assert forall j :: 0 < j < |s| ==> HistoryCompare(s[0], s[j]) <= 0;
      assert forall j :: 0 <= j < |s| ==> HistoryCompare(x, s[j]) <= 0 by {
        forall j | 0 <= j < |s| ensures HistoryCompare(x, s[j]) <= 0 {
          HistoryCompareConsistent(x, s[0], s[j]);
        }
      }
      [x] + s
    else
      var rest := Insert(x, s[1..]);
      assert s == [s[0]] + s[1..];
      assert HistoryCompare(s[0], x) <= 0 by {
        HistoryCompareConsistent(x, s[0], x);
      }
      assert forall y :: y in rest ==> HistoryCompare(s[0], y) <= 0 by {
        forall y | y in rest ensures HistoryCompare(s[0], y) <= 0 {
          assert y in multiset(rest);
          assert y == x || y in s[1..];
        }
      }
      [s[0]] + rest
  }

  /** The history list: the filtered records in display order (`filtered.sort(...)`). */
  function SortHistory(s: seq<Transaction>): (r: seq<Transaction>)
    ensures InHistoryOrder(r)
    ensures multiset(r) == multiset(s)
  {
    if s == [] then []
    else
      assert s == s[..|s| - 1] + [s[|s| - 1]];
      Insert(s[|s| - 1], SortHistory(s[..|s| - 1]))
  }

  /** The sum of the amounts of `l`. */
  function AmountSum(l: seq<Transaction>): real {
    if l == [] then 0.0 else AmountSum(l[..|l| - 1]) + l[|l| - 1].jumlah
  }

  /** The summary of the printable report: total income, total expense, and their difference. */
  datatype Report = Report(pemasukan: real, pengeluaran: real) {
    function Net(): real {
      pemasukan - pengeluaran
    }
  }

  predicate IsIncome(t: Transaction) {
    t.jenis == Pemasukan
  }

  predicate IsExpense(t: Transaction) {
    t.jenis == Pengeluaran
  }

  /** The report totals over the filtered view. */
  function ReportTotals(filtered: seq<Transaction>): Report {
    Report(AmountSum(Filter(filtered, IsIncome)), AmountSum(Filter(filtered, IsExpense)))
  }

  /** Appending one record adds its amount to the income total or to the expense total, or to neither. */
  lemma ReportStep(front: seq<Transaction>, last: Transaction)
    ensures ReportTotals(front + [last]).pemasukan
         == ReportTotals(front).pemasukan + (if IsIncome(last) then last.jumlah else 0.0)
    ensures ReportTotals(front + [last]).pengeluaran
         == ReportTotals(front).pengeluaran + (if IsExpense(last) then last.jumlah else 0.0)
  {
    FilterConcat(front, [last], IsIncome);
    FilterConcat(front, [last], IsExpense);
    var i1, e1 := Filter([last], IsIncome), Filter([last], IsExpense);
    AmountSumConcat(Filter(front, IsIncome), i1);
    AmountSumConcat(Filter(front, IsExpense), e1);
    assert [last][..0] == [];
    assert AmountSum([last]) == last.jumlah;
  }

  /** When every record is an income or an expense, the report's net cash flow is the signed sum the
      balances are made of. */
  lemma {:induction false} ReportNetIsSignedSum(l: seq<Transaction>)
    requires forall t :: t in l ==> t.jenis == Pemasukan || t.jenis == Pengeluaran
    ensures ReportTotals(l).Net() == SignedSum(l)
  {
    if l != [] {
      var front, last := l[..|l| - 1], l[|l| - 1];
      assert l == front + [last];
      assert last in l;
      assert forall t :: t in front ==> t in l;
      ReportNetIsSignedSum(front);
      ReportStep(front, last);
    }
  }

  lemma {:induction false} AmountSumConcat(a: seq<Transaction>, b: seq<Transaction>)
    ensures AmountSum(a + b) == AmountSum(a) + AmountSum(b)
  {
    if b != [] {
      assert (a + b)[..|a + b| - 1] == a + b[..|b| - 1];
      AmountSumConcat(a, b[..|b| - 1]);
    } else {
      assert a + b == a;
    }
  }

  /** With non-negative amounts, neither report total is negative. */
  lemma {:induction false} AmountSumNonNegative(l: seq<Transaction>)
    requires forall t :: t in l ==> t.jumlah >= 0.0
    ensures AmountSum(l) >= 0.0
  {
    if l != [] {
      assert forall t :: t in l[..|l| - 1] ==> t in l;
      AmountSumNonNegative(l[..|l| - 1]);
    }
  }

  lemma ReportTotalsNonNegative(filtered: seq<Transaction>)
    requires forall t :: t in filtered ==> t.jumlah >= 0.0
    ensures ReportTotals(filtered).pemasukan >= 0.0 && ReportTotals(filtered).pengeluaran >= 0.0
  {
    AmountSumNonNegative(Filter(filtered, IsIncome));
    AmountSumNonNegative(Filter(filtered, IsExpense));
  }
}
