/** Per-account balances (the fold in `renderBalances`) and the three pockets of `renderSummary`,
    with the net effect an ingestion has on both. */
module Aggregation {
  import opened Seqs
  import opened Text
  import opened Transactions
  import opened Ingestion

  type Balances = map<string, real>

  ghost const AccountSet: set<string> := set a | a in AccountList

  /** Every listed account starts at zero. */
  function Initial(): (b: Balances)
    ensures b.Keys == AccountSet
    ensures forall a :: a in b ==> b[a] == 0.0
  {
    map a | a in AccountList :: 0.0
  }

  /** One step of the fold: a record with a listed account moves that balance by its signed amount;
      a record with any other account is skipped. */
  function Post(b: Balances, t: Transaction): Balances {
    if t.akun in b then b[t.akun := b[t.akun] + Signed(t)] else b
  }

  /** The balances after folding every record of `l`, first to last, into the initial zeros. */
  function BalancesOf(l: seq<Transaction>): (b: Balances)
    ensures b.Keys == AccountSet
  {
    if l == [] then Initial() else Post(BalancesOf(l[..|l| - 1]), l[|l| - 1])
  }

  /** The records of `l` booked on account `a`. */
  function OnAccount(l: seq<Transaction>, a: string): seq<Transaction> {
    Filter(l, (t: Transaction) => t.akun == a)
  }

  /** The total an account should show: the signed sum of the records booked on it. */
  function AccountTotal(l: seq<Transaction>, a: string): real {
    SignedSum(OnAccount(l, a))
  }

  /** The fold computes, for every listed account, the signed sum of that account's records. */
  lemma {:induction false} BalancesAreAccountTotals(l: seq<Transaction>)
    ensures forall a :: a in AccountList ==> BalancesOf(l)[a] == AccountTotal(l, a)
  {
    if l != [] {
      var front, last := l[..|l| - 1], l[|l| - 1];
      BalancesAreAccountTotals(front);
      assert l == front + [last];
      forall a | a in AccountList
        ensures BalancesOf(l)[a] == AccountTotal(l, a)
      {
        AccountTotalStep(front, last, a);
      }
    }
  }

  /** Appending one record moves an account's total by its signed amount when it is booked there, and not at all otherwise. */
  lemma AccountTotalStep(front: seq<Transaction>, last: Transaction, a: string)
    ensures AccountTotal(front + [last], a) == AccountTotal(front, a) + (if last.akun == a then Signed(last) else 0.0)
  {
    var p := (t: Transaction) => t.akun == a;
    FilterConcat(front, [last], p);
    SignedSumConcat(OnAccount(front, a), Filter([last], p));
    if last.akun == a {
      assert Filter([last], p) == [last];
      SignedSumSingle(last);
    } else {
      assert Filter([last], p) == [];
    }
  }

  /** The total of an account over two ledgers run together is the sum of the two totals. */
  lemma AccountTotalConcat(l1: seq<Transaction>, l2: seq<Transaction>, a: string)
    ensures AccountTotal(l1 + l2, a) == AccountTotal(l1, a) + AccountTotal(l2, a)
  {
    FilterConcat(l1, l2, (t: Transaction) => t.akun == a);
    SignedSumConcat(OnAccount(l1, a), OnAccount(l2, a));
  }

  /** Balance additivity: folding a concatenation gives the pointwise sum of the two folds. */
  lemma BalancesConcat(l1: seq<Transaction>, l2: seq<Transaction>)
    ensures forall a :: a in AccountList ==> BalancesOf(l1 + l2)[a] == BalancesOf(l1)[a] + BalancesOf(l2)[a]
  {
    BalancesAreAccountTotals(l1);
    BalancesAreAccountTotals(l2);
    BalancesAreAccountTotals(l1 + l2);
    forall a | a in AccountList
      ensures BalancesOf(l1 + l2)[a] == BalancesOf(l1)[a] + BalancesOf(l2)[a]
    {
      AccountTotalConcat(l1, l2, a);
    }
  }

  /** Appending one record moves its own account's balance by its signed amount and no other balance. */
  lemma AppendOneRecord(l: seq<Transaction>, t: Transaction)
    ensures forall a :: a in AccountList ==>
      BalancesOf(l + [t])[a] == BalancesOf(l)[a] + (if a == t.akun then Signed(t) else 0.0)
  {
    assert (l + [t])[..|l + [t]| - 1] == l;
  }

  /** A record whose account is not one of the seven changes no balance at all. */
  lemma UnknownAccountIgnored(l: seq<Transaction>, t: Transaction)
    requires t.akun !in AccountList
    ensures BalancesOf(l + [t]) == BalancesOf(l)
  {
    assert (l + [t])[..|l + [t]| - 1] == l;
  }

  /** How a business income of amount `A` moves each balance: Bank Jago by half of it, SeaBank by 30%,
      DANA by 20%, every other account (the one picked on the form included) not at all. */
  function BusinessShare(a: string, amount: real): real {
    if a == BankJago then 0.5 * amount
    else if a == SeaBank then 0.3 * amount
    else if a == DANA then 0.2 * amount
    else 0.0
  }

  lemma BusinessIngestNetEffect(ledger: seq<Transaction>, f: Form, c: Clock)
    requires f.jenis == Pemasukan && f.kategori == Bisnis
    ensures forall a :: a in AccountList ==>
      BalancesOf(Ingest(ledger, f, c))[a] == BalancesOf(ledger)[a] + BusinessShare(a, f.jumlah)
  {
    var base := BaseTransaction(f, c.atSubmit);
    assert Ingest(ledger, f, c) == ledger + Appended(base, c);
    BusinessAppendedNetEffect(ledger, base, c);
  }

  /** The same net effect, for the records appended after any business income record. */
  lemma BusinessAppendedNetEffect(ledger: seq<Transaction>, base: Transaction, c: Clock)
    requires IsBusinessIncome(base)
    ensures forall a :: a in AccountList ==>
      BalancesOf(ledger + Appended(base, c))[a] == BalancesOf(ledger)[a] + BusinessShare(a, base.jumlah)
  {
    var split := BusinessSplit(base, c);
    var moved := base.(akun := BankJago);
    var l1 := ledger + [moved];
    var l2 := l1 + [split[0]];
    var l3 := l2 + [split[1]];
    var l4 := l3 + [split[2]];
    var l5 := l4 + [split[3]];
    assert split == [split[0], split[1], split[2], split[3]];
    assert ledger + Appended(base, c) == l5;
    var A := base.jumlah;
    assert Signed(moved) == A && Signed(split[0]) == -0.3 * A && Signed(split[1]) == -0.2 * A;
    assert Signed(split[2]) == 0.3 * A && Signed(split[3]) == 0.2 * A;
    AppendOneRecord(ledger, moved);
    AppendOneRecord(l1, split[0]);
    AppendOneRecord(l2, split[1]);
    AppendOneRecord(l3, split[2]);
    AppendOneRecord(l4, split[3]);
    forall a | a in AccountList
      ensures BalancesOf(l5)[a] == BalancesOf(ledger)[a] + BusinessShare(a, A)
    {
      if a == BankJago {
        assert BalancesOf(l5)[a] == BalancesOf(ledger)[a] + A - 0.3 * A - 0.2 * A;
      } else if a == SeaBank {
        assert BalancesOf(l5)[a] == BalancesOf(ledger)[a] + 0.3 * A;
      } else if a == DANA {
        assert BalancesOf(l5)[a] == BalancesOf(ledger)[a] + 0.2 * A;
      } else {
        assert BalancesOf(l5)[a] == BalancesOf(ledger)[a];
      }
    }
  }

  /** Any other submission moves only the balance of the account picked on the form. */
  lemma PersonalIngestNetEffect(ledger: seq<Transaction>, f: Form, c: Clock)
    requires !(f.jenis == Pemasukan && f.kategori == Bisnis)
    ensures forall a :: a in AccountList ==>
      BalancesOf(Ingest(ledger, f, c))[a] == BalancesOf(ledger)[a]
        + (if a == f.akun then (if f.jenis == Pemasukan then f.jumlah else -f.jumlah) else 0.0)
  {
    AppendOneRecord(ledger, BaseTransaction(f, c.atSubmit));
  }

  /** The three pockets shown in the summary. */
  datatype Pockets = Pockets(tabungan: real, modal: real, foya: real)

  /** The savings keyword and the spending keyword that tag cash records. */
  const TabunganKeyword: string := "tabungan"
  const FoyaKeyword: string := "foya"

  /** A Cash record whose note, lower-cased, contains `keyword`. */
  predicate TaggedCash(t: Transaction, keyword: string) {
    t.akun == Cash && Includes(Lower(t.keterangan), keyword)
  }

  /** `getCashBalance`: the signed sum of the Cash records tagged with `keyword`. */
  function CashBalance(l: seq<Transaction>, keyword: string): real {
    SignedSum(Filter(l, (t: Transaction) => TaggedCash(t, keyword)))
  }

  /** `renderSummary`, over the balances of the whole ledger. */
  function Summary(l: seq<Transaction>): (p: Pockets)
    ensures p.tabungan == AccountTotal(l, SeaBank) + AccountTotal(l, Bibit) + CashBalance(l, TabunganKeyword)
    ensures p.modal == AccountTotal(l, BankJago)
    ensures p.foya == AccountTotal(l, DANA) + CashBalance(l, FoyaKeyword)
  {
    BalancesAreAccountTotals(l);
    var b := BalancesOf(l);
    Pockets(b[SeaBank] + b[Bibit] + CashBalance(l, TabunganKeyword), b[BankJago], b[DANA] + CashBalance(l, FoyaKeyword))
  }

  /** The cash tagged with a keyword over two ledgers run together is the sum of the two. */
  lemma CashBalanceConcat(l1: seq<Transaction>, l2: seq<Transaction>, keyword: string)
    ensures CashBalance(l1 + l2, keyword) == CashBalance(l1, keyword) + CashBalance(l2, keyword)
  {
    var p := (t: Transaction) => TaggedCash(t, keyword);
    FilterConcat(l1, l2, p);
    SignedSumConcat(Filter(l1, p), Filter(l2, p));
  }

  /** None of the five records of a business income is on the Cash account, so no tagged cash changes. */
  lemma BusinessIngestKeepsCash(ledger: seq<Transaction>, f: Form, c: Clock, keyword: string)
    requires f.jenis == Pemasukan && f.kategori == Bisnis
    ensures CashBalance(Ingest(ledger, f, c), keyword) == CashBalance(ledger, keyword)
  {
    var r := Ingest(ledger, f, c);
    var added := r[|ledger|..];
    assert r == ledger + added;
    assert forall t :: t in added ==> t.akun != Cash;
    FilterKeepsNone(added, (t: Transaction) => TaggedCash(t, keyword));
    CashBalanceConcat(ledger, added, keyword);
  }

  /** A business income of amount `A` adds 30% of it to savings, half to business capital and 20% to
      spending money, even when the form named the Cash account and a tagged note. */
  lemma BusinessIngestPockets(ledger: seq<Transaction>, f: Form, c: Clock)
    requires f.jenis == Pemasukan && f.kategori == Bisnis
    ensures var before, after := Summary(ledger), Summary(Ingest(ledger, f, c));
      && after.tabungan == before.tabungan + 0.3 * f.jumlah
      && after.modal == before.modal + 0.5 * f.jumlah
      && after.foya == before.foya + 0.2 * f.jumlah
  {
    var r := Ingest(ledger, f, c);
    BusinessIngestNetEffect(ledger, f, c);
    BalancesAreAccountTotals(ledger);
    BalancesAreAccountTotals(r);
    BusinessIngestKeepsCash(ledger, f, c, TabunganKeyword);
    BusinessIngestKeepsCash(ledger, f, c, FoyaKeyword);
    assert SeaBank in AccountList && Bibit in AccountList && BankJago in AccountList && DANA in AccountList;
  }
}
