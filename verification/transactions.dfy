/** The transaction record of the ledger, the fixed account list, and the signed amount a record
    contributes to a balance. */
module Transactions {

  /** The calendar date held in a record's `tanggal` (an ISO `YYYY-MM-DD` string in the store). */
  datatype Date = Date(year: int, month: int, day: int)

  /** One ledger entry. `akun`, `jenis` and `kategori` stay strings, as in the store: nothing forces them
      into the account list, the two kinds or the category registry. `isSplit` is false for records
      entered through the form, which carry no such field. */
  datatype Transaction = Transaction(
    id: int,
    akun: string,
    jenis: string,
    jumlah: real,
    keterangan: string,
    kategori: string,
    tanggal: Date,
    isSplit: bool)

  /** The two values of `jenis`: income and expense. */
  const Pemasukan: string := "pemasukan"
  const Pengeluaran: string := "pengeluaran"

  /** The category that marks business records. */
  const Bisnis: string := "Bisnis"

  const GoPay: string := "GoPay"
  const BRI: string := "BRI"
  const SeaBank: string := "SeaBank"
  const Bibit: string := "Bibit"
  const BankJago: string := "Bank Jago"
  const DANA: string := "DANA"
  const Cash: string := "Cash"

  /** The seven accounts a balance is kept for, in display order. */
  const AccountList: seq<string> := [GoPay, BRI, SeaBank, Bibit, BankJago, DANA, Cash]

  /** What a record adds to its account: its amount for income, the negated amount for anything else. */
  function Signed(t: Transaction): real {
    if t.jenis == Pemasukan then t.jumlah else -t.jumlah
  }

  /** The sum of the signed amounts of `l`, accumulated from the first record to the last. */
  function SignedSum(l: seq<Transaction>): real {
    if l == [] then 0.0 else SignedSum(l[..|l| - 1]) + Signed(l[|l| - 1])
  }

  lemma {:induction false} SignedSumConcat(a: seq<Transaction>, b: seq<Transaction>)
    ensures SignedSum(a + b) == SignedSum(a) + SignedSum(b)
  {
    if b != [] {
      assert (a + b)[..|a + b| - 1] == a + b[..|b| - 1];
      SignedSumConcat(a, b[..|b| - 1]);
    } else {
      assert a + b == a;
    }
  }

  /** A one-record ledger sums to that record's signed amount. */
  lemma SignedSumSingle(t: Transaction)
    ensures SignedSum([t]) == Signed(t)
  {
    assert [t][..0] == [];
  }

  /** Every id occurs at most once. */
  predicate UniqueIds(l: seq<Transaction>) {
    forall i, j :: 0 <= i < j < |l| ==> l[i].id != l[j].id
  }
}
