/** Ingestion of a submitted transaction (`addTransaction`) and the automatic split of business
    income (`handleBusinessSplit`). */
module Ingestion {
  import opened Text
  import opened Transactions

  /** What the entry form supplies once the amount field has been parsed as a number. */
  datatype Form = Form(
    akun: string,
    jenis: string,
    jumlah: real,
    keterangan: string,
    kategori: string,
    tanggal: Date)

  /** The millisecond clock as read by one submission: once for the base record and once for each of
      the four split records (each split record reads the clock again and adds its position). */
  datatype Clock = Clock(atSubmit: int, atSplit1: int, atSplit2: int, atSplit3: int, atSplit4: int)

  /** The clock never runs backwards during one submission. */
  predicate NonDecreasing(c: Clock) {
    c.atSubmit <= c.atSplit1 <= c.atSplit2 <= c.atSplit3 <= c.atSplit4
  }

  /** The share of a business income moved to savings (`tabungan`) and to spending money (`foya`). */
  const TabunganShare: real := 0.3
  const FoyaShare: real := 0.2

  const TabunganPrefix: string := "Split Tabungan dari: "
  const FoyaPrefix: string := "Split Foya dari: "

  /** The record built from the form: the note trimmed, the id taken from the clock. */
  function BaseTransaction(f: Form, now: int): (t: Transaction)
    ensures t.id == now && !t.isSplit
    ensures t.keterangan == Trim(f.keterangan) && NoOuterWhitespace(t.keterangan)
    ensures t.akun == f.akun && t.jenis == f.jenis && t.jumlah == f.jumlah
    ensures t.kategori == f.kategori && t.tanggal == f.tanggal
  {
    Transaction(now, f.akun, f.jenis, f.jumlah, Trim(f.keterangan), f.kategori, f.tanggal, false)
  }

  /** An income recorded under the business category: the one case that triggers a split. */
  predicate IsBusinessIncome(t: Transaction) {
    t.jenis == Pemasukan && t.kategori == Bisnis
  }

  /** One auxiliary record of a split: business category, the base record's date, flagged as split. */
  function SplitRecord(id: int, akun: string, jenis: string, jumlah: real, prefix: string, base: Transaction): Transaction {
    Transaction(id, akun, jenis, jumlah, prefix + base.keterangan, Bisnis, base.tanggal, true)
  }

  /** The four records `handleBusinessSplit` appends after a business income. */
  function BusinessSplit(base: Transaction, c: Clock): (r: seq<Transaction>)
    ensures |r| == 4
    ensures forall t :: t in r ==> t.kategori == Bisnis && t.tanggal == base.tanggal && t.isSplit
    ensures r[0].akun == BankJago && r[0].jenis == Pengeluaran && r[0].jumlah == 0.3 * base.jumlah
    ensures r[1].akun == BankJago && r[1].jenis == Pengeluaran && r[1].jumlah == 0.2 * base.jumlah
    ensures r[2].akun == SeaBank && r[2].jenis == Pemasukan && r[2].jumlah == 0.3 * base.jumlah
    ensures r[3].akun == DANA && r[3].jenis == Pemasukan && r[3].jumlah == 0.2 * base.jumlah
    ensures r[0].keterangan == r[2].keterangan == TabunganPrefix + base.keterangan
    ensures r[1].keterangan == r[3].keterangan == FoyaPrefix + base.keterangan
    ensures r[0].id == c.atSplit1 + 1 && r[1].id == c.atSplit2 + 2
    ensures r[2].id == c.atSplit3 + 3 && r[3].id == c.atSplit4 + 4
    // the split only moves money between accounts: what leaves Bank Jago arrives elsewhere
    ensures SignedSum(r) == 0.0
    // the four legs move the whole original amount in total
    ensures r[0].jumlah + r[1].jumlah + r[2].jumlah + r[3].jumlah == base.jumlah
  {
    var amount := base.jumlah;
    var tabungan := amount * TabunganShare;
    var foya := amount * FoyaShare;
    var r := [
      SplitRecord(c.atSplit1 + 1, BankJago, Pengeluaran, tabungan, TabunganPrefix, base),
      SplitRecord(c.atSplit2 + 2, BankJago, Pengeluaran, foya, FoyaPrefix, base),
      SplitRecord(c.atSplit3 + 3, SeaBank, Pemasukan, tabungan, TabunganPrefix, base),
      SplitRecord(c.atSplit4 + 4, DANA, Pemasukan, foya, FoyaPrefix, base)
    ];
    SignedSumConcat([r[0], r[1]], [r[2], r[3]]);
    SignedSumConcat([r[0]], [r[1]]);
    SignedSumConcat([r[2]], [r[3]]);
    SignedSumSingle(r[0]);
    SignedSumSingle(r[1]);
    SignedSumSingle(r[2]);
    SignedSumSingle(r[3]);
    assert r == [r[0], r[1]] + [r[2], r[3]];
    r
  }

  /** The records one submission appends, once its record has been built from the form. */
  function Appended(base: Transaction, c: Clock): (a: seq<Transaction>)
    ensures |a| == if IsBusinessIncome(base) then 5 else 1
  {
    if IsBusinessIncome(base) then [base.(akun := BankJago)] + BusinessSplit(base, c) else [base]
  }

  /** `addTransaction`: appends the submitted record, or, for a business income, the record moved to
      Bank Jago followed by its four split records. */
  function Ingest(ledger: seq<Transaction>, f: Form, c: Clock): (r: seq<Transaction>)
    // the ledger only grows, and existing records are never changed
    ensures |r| > |ledger| && r[..|ledger|] == ledger
    ensures var base := BaseTransaction(f, c.atSubmit);
      && (!IsBusinessIncome(base) ==> r == ledger + [base])
      && (IsBusinessIncome(base) ==>
            && |r| == |ledger| + 5
            && r[|ledger|] == base.(akun := BankJago)
            && r[|ledger| + 1..] == BusinessSplit(base, c))
  {
    var r := ledger + Appended(BaseTransaction(f, c.atSubmit), c);
    assert r[|ledger|..] == Appended(BaseTransaction(f, c.atSubmit), c);
    r
  }

  /** The clock reading taken for the `k`-th record of a submission (0 is the base record). */
  function Reading(c: Clock, k: int): int {
    if k <= 0 then c.atSubmit
    else if k == 1 then c.atSplit1
    else if k == 2 then c.atSplit2
    else if k == 3 then c.atSplit3
    else c.atSplit4
  }

  /** The `k`-th appended record has id `Reading(c, k) + k`. */
  lemma AppendedIds(base: Transaction, c: Clock)
    requires base.id == c.atSubmit
    ensures var a := Appended(base, c);
      forall k :: 0 <= k < |a| ==> a[k].id == Reading(c, k) + k
  {
    var a := Appended(base, c);
    if IsBusinessIncome(base) {
      var split := BusinessSplit(base, c);
      assert a[1..] == split;
      forall k | 1 <= k < 5
        ensures a[k].id == Reading(c, k) + k
      {
        assert a[k] == split[k - 1];
      }
    }
  }

  /** The `k`-th record of a submission has id `Reading(c, k) + k`. */
  lemma BurstIds(ledger: seq<Transaction>, f: Form, c: Clock)
    ensures var r := Ingest(ledger, f, c);
      forall k :: 0 <= k < |r| - |ledger| ==> r[|ledger| + k].id == Reading(c, k) + k
  {
    var base := BaseTransaction(f, c.atSubmit);
    var a := Appended(base, c);
    AppendedIds(base, c);
    var r := Ingest(ledger, f, c);
    assert r == ledger + a;
    forall k | 0 <= k < |r| - |ledger|
      ensures r[|ledger| + k].id == Reading(c, k) + k
    {
      assert r[|ledger| + k] == a[k];
    }
  }

  /** The ids of one submission's records are strictly increasing, so no two of them collide. */
  lemma BurstIdsIncrease(ledger: seq<Transaction>, f: Form, c: Clock)
    requires NonDecreasing(c)
    ensures var r := Ingest(ledger, f, c);
      forall i, j :: |ledger| <= i < j < |r| ==> r[i].id < r[j].id
  {
    var r := Ingest(ledger, f, c);
    BurstIds(ledger, f, c);
    forall i, j | |ledger| <= i < j < |r|
      ensures r[i].id < r[j].id
    {
      assert r[|ledger| + (i - |ledger|)].id == Reading(c, i - |ledger|) + (i - |ledger|);
      assert r[|ledger| + (j - |ledger|)].id == Reading(c, j - |ledger|) + (j - |ledger|);
    }
  }

  /** The last id a submission hands out: the split's fourth id after a business income, otherwise the
      base record's id, the only clock reading such a submission takes. */
  function LastId(f: Form, c: Clock): int {
    if f.jenis == Pemasukan && f.kategori == Bisnis then c.atSplit4 + 4 else c.atSubmit
  }

  /** Every id one submission hands out lies between its first clock reading and its last id. */
  lemma BurstIdsWithin(ledger: seq<Transaction>, f: Form, c: Clock)
    requires NonDecreasing(c)
    ensures var r := Ingest(ledger, f, c);
      forall i :: |ledger| <= i < |r| ==> c.atSubmit <= r[i].id <= LastId(f, c)
  {
    var r := Ingest(ledger, f, c);
    BurstIds(ledger, f, c);
    forall i | |ledger| <= i < |r|
      ensures c.atSubmit <= r[i].id <= LastId(f, c)
    {
      assert r[|ledger| + (i - |ledger|)].id == Reading(c, i - |ledger|) + (i - |ledger|);
    }
  }

  /** Ingestion keeps ids unique provided the clock has moved past every id already in the ledger. */
  lemma IngestKeepsIdsUnique(ledger: seq<Transaction>, f: Form, c: Clock)
    requires NonDecreasing(c)
    requires UniqueIds(ledger)
    requires forall t :: t in ledger ==> t.id < c.atSubmit
    ensures UniqueIds(Ingest(ledger, f, c))
  {
    var r := Ingest(ledger, f, c);
    BurstIdsIncrease(ledger, f, c);
    BurstIdsWithin(ledger, f, c);
    forall i, j | 0 <= i < j < |r|
      ensures r[i].id != r[j].id
    {
      if j < |ledger| {
        assert r[i] == ledger[i] && r[j] == ledger[j];
      } else if i < |ledger| {
        assert r[i] == ledger[i] && ledger[i] in ledger;
      }
    }
  }

  /** Consecutive submissions, one form and one clock each, applied in order. */
  function IngestAll(ledger: seq<Transaction>, forms: seq<Form>, clocks: seq<Clock>): (r: seq<Transaction>)
    requires |forms| == |clocks|
    ensures |r| >= |ledger| && r[..|ledger|] == ledger
    decreases |forms|
  {
    if forms == [] then ledger
    else IngestAll(Ingest(ledger, forms[0], clocks[0]), forms[1..], clocks[1..])
  }

  /** Each clock runs forward, and each submission starts after the last id the previous one handed out. */
  predicate WellSpaced(forms: seq<Form>, clocks: seq<Clock>)
    requires |forms| == |clocks|
  {
    && (forall k :: 0 <= k < |clocks| ==> NonDecreasing(clocks[k]))
    && (forall k :: 0 < k < |clocks| ==> LastId(forms[k - 1], clocks[k - 1]) < clocks[k].atSubmit)
  }

  /** Over any number of well-spaced submissions, every generated id is distinct. */
  lemma {:induction false} IngestAllKeepsIdsUnique(ledger: seq<Transaction>, forms: seq<Form>, clocks: seq<Clock>)
    requires |forms| == |clocks|
    requires WellSpaced(forms, clocks)
    requires UniqueIds(ledger)
    requires |clocks| > 0 ==> forall t :: t in ledger ==> t.id < clocks[0].atSubmit
    ensures UniqueIds(IngestAll(ledger, forms, clocks))
    decreases |forms|
  {
    if forms != [] {
      var next := Ingest(ledger, forms[0], clocks[0]);
      IngestKeepsIdsUnique(ledger, forms[0], clocks[0]);
      BurstIdsWithin(ledger, forms[0], clocks[0]);
      assert WellSpaced(forms[1..], clocks[1..]) by {
        forall k | 0 <= k < |clocks[1..]|
          ensures NonDecreasing(clocks[1..][k])
        {
          assert clocks[1..][k] == clocks[k + 1];
        }
        forall k | 0 < k < |clocks[1..]|
          ensures LastId(forms[1..][k - 1], clocks[1..][k - 1]) < clocks[1..][k].atSubmit
        {
          assert clocks[1..][k - 1] == clocks[k] && clocks[1..][k] == clocks[k + 1];
          assert forms[1..][k - 1] == forms[k];
        }
      }
      if |clocks| > 1 {
        assert LastId(forms[0], clocks[0]) < clocks[1].atSubmit;
        forall t | t in next
          ensures t.id < clocks[1].atSubmit
        {
          var i :| 0 <= i < |next| && next[i] == t;
          if i < |ledger| {
            assert t == ledger[i] && ledger[i] in ledger;
          }
        }
      }
      IngestAllKeepsIdsUnique(next, forms[1..], clocks[1..]);
    }
  }

  /** Without that spacing the clock-derived ids do collide: a business income entered at 1000 ms takes
      ids 1000 to 1004, and a second entry 2 ms later takes id 1002 again. */
  lemma CloseSubmissionsCollide()
    ensures var income := Form(GoPay, Pemasukan, 1000000.0, "proyek", Bisnis, Date(2024, 5, 1));
      var expense := Form(Cash, Pengeluaran, 50000.0, "makan siang", "Makanan", Date(2024, 5, 2));
      var first := Ingest([], income, Clock(1000, 1000, 1000, 1000, 1000));
      !UniqueIds(Ingest(first, expense, Clock(1002, 1002, 1002, 1002, 1002)))
  {
    var income := Form(GoPay, Pemasukan, 1000000.0, "proyek", Bisnis, Date(2024, 5, 1));
    var expense := Form(Cash, Pengeluaran, 50000.0, "makan siang", "Makanan", Date(2024, 5, 2));
    var first := Ingest([], income, Clock(1000, 1000, 1000, 1000, 1000));
    var second := Ingest(first, expense, Clock(1002, 1002, 1002, 1002, 1002));
    assert |first| == 5;
    assert second[2].id == 1002 && second[5].id == 1002;
  }

  /** A submission that is not a business income takes a single clock reading, so the next one only
      needs the clock to advance: two submissions 1 ms apart are well spaced and keep distinct ids. */
  lemma SingleReadingSubmissionsStayDistinct(first: Form, second: Form, now: int)
    requires !(first.jenis == Pemasukan && first.kategori == Bisnis)
    ensures var clocks := [Clock(now, now, now, now, now), Clock(now + 1, now + 1, now + 1, now + 1, now + 1)];
      && WellSpaced([first, second], clocks)
      && UniqueIds(IngestAll([], [first, second], clocks))
  {
    var clocks := [Clock(now, now, now, now, now), Clock(now + 1, now + 1, now + 1, now + 1, now + 1)];
    assert LastId(first, clocks[0]) == now;
    IngestAllKeepsIdsUnique([], [first, second], clocks);
  }
}
