# Finance ledger core, modelled in Dafny

This project models the transaction-ledger engine of a single-page personal/business finance
tracker. In the application, all of this logic lives inside one `DOMContentLoaded` callback in
`main.js`. Here it is lifted out as pure functions over a sequence of transaction records:

- **Ingestion and business split** (`addTransaction`, `handleBusinessSplit`): an income with
  category `Bisnis` is stored on Bank Jago. Four split records follow it: two Bank Jago expenses
  of 30% and 20%, a SeaBank income of 30% and a DANA income of 20%. Any other submission is
  stored as it is.
- **Balance fold** (`renderBalances`): the seven accounts start at zero. Each record adds its
  amount (income) or subtracts it (any other kind). Records whose account is not one of the
  seven are skipped.
- **Pockets** (`renderSummary`): savings (`tabungan`), business capital (`modal`) and spending
  money (`foya`). They are computed from the balances plus Cash records whose note contains a
  keyword.
- **History view** (`getFilteredTransactions`, the sort in `renderTransactionHistory`): a
  month/year/mode filter, then an ordering with newest date first and, within a date, larger id
  first.
- **Report totals** (`exportPDF`): total income and total expense of the filtered view.
- **Category registry** (`loadCategories`, `addNewCategory`): the list only grows and is checked
  for duplicates without regard to case.
- **CSV note quoting** (`exportCSV`): quotes are doubled and the note is wrapped in quotes.

Modules, leaf first:

- `Wrappers`: Option and Result.
- `Seqs`: filter and order-preserving subsequence.
- `Text`: `trim`, ASCII lower-casing, `includes`.
- `Transactions`: the record, the account list and signed sums.
- `Ingestion`, `Aggregation`, `Display`, `Categories`, `Csv`: the parts listed above.
- `App`: the shared state and `renderAll`.

The outside world enters only through parameters:

- **Storage:** `localStorage` becomes an `Option` parameter of `App.Init`.
- **Clock:** `Date.now()` becomes an `Ingestion.Clock` value, one reading per call in the
  source: the base record and each of the four split records read it separately.
- **Forms:** the form and the filter controls become `Ingestion.Form`, `Display.Selector` and
  `Display.Mode` values.
- **Numbers:** amounts are `real`.
- **Dates:** dates are `(year, month, day)`.

Behaviour of the code worth knowing:

- The split records' notes are `Split Tabungan dari: <note>` and `Split Foya dari: <note>`
  (main.js:137-140).
- A record is a business record exactly when its `kategori` is `Bisnis` (main.js:116, 176). Its
  note is never inspected for this.
- Ids are `Date.now()` readings: the base record takes the reading itself (main.js:107), and each
  split record takes a fresh reading plus 1 to 4 (main.js:137-140). There is no counter.
  Ids therefore stay unique provided the clock never runs backwards during a submission and each
  submission's first reading comes after the previous submission's last id.
  `Ingestion.IngestAllKeepsIdsUnique` proves that this is enough. It is not necessary: ids that
  happen to fall into gaps between earlier ids also stay distinct. `Ingestion.CloseSubmissionsCollide`
  shows a collision when the spacing fails.
- Amounts are never checked to be non-negative (main.js:104).
- The balances subtract the amount of any record whose `jenis` is not `pemasukan` (main.js:188).
  The report totals count only `pemasukan` and `pengeluaran` records (main.js:309-310), so a
  record of any other kind is in neither total. `Display.ReportNetIsSignedSum` therefore requires
  every record to be one of the two kinds.

## Model

| member | source | states |
|---|---|---|
| `Ingestion.Ingest` | main.js:100-129 | The ledger only grows and its existing records are unchanged. A non-business submission appends exactly the base record: trimmed note, clock id. A business income (`pemasukan` with category exactly `Bisnis`) appends five records. The first is the base record with only its account replaced by Bank Jago; the split records follow. |
| `Ingestion.BusinessSplit` | main.js:131-144 | Four records, in order: Bank Jago expense 0.3·A, Bank Jago expense 0.2·A, SeaBank income 0.3·A, DANA income 0.2·A. All have category `Bisnis`, the base date, `isSplit` set, and notes prefixed `Split Tabungan dari: ` / `Split Foya dari: `. Ids are the clock readings plus 1 to 4. Their signed amounts sum to zero and their amounts sum to A. |
| `Ingestion.BaseTransaction` | main.js:106-114 | The base record carries the form's fields, the clock reading as id, and the note trimmed so that no whitespace is left at either end. |
| `Ingestion.BurstIds` | main.js:107-140 | The k-th record of one submission has id equal to the k-th clock reading plus k. |
| `Ingestion.BurstIdsIncrease` | main.js:107-140 | With a clock that never runs backwards, the ids of one submission's records are strictly increasing. |
| `Ingestion.BurstIdsWithin` | main.js:107-140 | With a clock that never runs backwards during a submission, every id it hands out lies between its first clock reading and its last id. The last id is the fourth split reading plus four after a business income, and the single reading otherwise. |
| `Ingestion.IngestKeepsIdsUnique` | main.js:106-143 | With a clock that never runs backwards during a submission, if the ledger's ids are distinct and all lie below the submit-time clock reading, the ids stay distinct after ingestion. |
| `Ingestion.IngestAll` | main.js:100-123 | Running submissions one after another only ever extends the ledger: the starting ledger stays its prefix. |
| `Ingestion.IngestAllKeepsIdsUnique` | main.js:100-143 | Over any number of submissions, with a clock that never runs backwards during a submission, all ids stay distinct if each submission's first clock reading comes after the last id the previous one handed out. This condition is sufficient, not necessary. |
| `Ingestion.SingleReadingSubmissionsStayDistinct` | main.js:107-121 | A submission that is not a business income takes one clock reading, so a next submission 1 ms later is well spaced and the two ids differ. |
| `Ingestion.CloseSubmissionsCollide` | main.js:107-140 | A business income at 1000 ms followed by an expense at 1002 ms produces two records with id 1002. |
| `Aggregation.Initial` | main.js:184 | Every one of the seven accounts, and nothing else, has a balance, and it starts at 0. |
| `Aggregation.BalancesOf` | main.js:184-190 | Folding the ledger keeps a balance for exactly the seven listed accounts. |
| `Aggregation.BalancesAreAccountTotals` | main.js:184-190 | For every listed account, the fold's balance equals the signed sum of that account's records. |
| `Aggregation.AccountTotalConcat` | main.js:186-189 | An account's total over two ledgers run together is the sum of the two totals. |
| `Aggregation.BalancesConcat` | main.js:184-190 | The balances of a concatenation are the pointwise sum of the balances of the parts. |
| `Aggregation.AppendOneRecord` | main.js:186-190 | Appending one record moves only its own account's balance, by +amount for income and −amount otherwise. |
| `Aggregation.UnknownAccountIgnored` | main.js:187 | A record whose account is not in the list leaves every balance unchanged. |
| `Aggregation.BusinessIngestNetEffect` | main.js:116-143 | A business income of amount A raises Bank Jago by 0.5·A, SeaBank by 0.3·A and DANA by 0.2·A. Every other balance, including the account picked on the form, is unchanged. |
| `Aggregation.PersonalIngestNetEffect` | main.js:116-121 | Any other submission changes only the balance of the form's account, by its signed amount. |
| `Aggregation.Summary` | main.js:207-215 | tabungan = SeaBank total + Bibit total + Cash tagged `tabungan`; modal = Bank Jago total; foya = DANA total + Cash tagged `foya`. |
| `Aggregation.CashBalanceConcat` | main.js:209-211 | `CashBalance` (`getCashBalance`) is the signed sum of the Cash records whose lower-cased note contains the keyword; that tagged balance of a concatenation is the sum over the parts. |
| `Aggregation.BusinessIngestPockets` | main.js:116-143 | A business income of A adds 0.3·A to tabungan, 0.5·A to modal and 0.2·A to foya, even when the form named Cash with a tagged note. |
| `Display.FilteredTransactions` | main.js:167-181 | A record is shown exactly when it is in the ledger, its date passes the month and year filters, and its category matches the mode (`Bisnis` in business mode, anything else in personal mode). |
| `Display.FilteredIsSubsequence` | main.js:171-180 | The view is an order-preserving subsequence of the ledger. |
| `Display.AllDatesKeepEverything` | main.js:173-174 | Choosing `all` for both month and year keeps every record. |
| `Display.ModesPartitionDateFilter` | main.js:176-177 | For a fixed month and year, the business and personal views share no record, and together they hold exactly the date-filtered records. |
| `Display.HistoryCompareMeaning` | main.js:229 | `HistoryCompare`, the comparator of the history sort, puts `a` first exactly when `a` has a later date, or the same date and a larger id. It returns zero exactly when date and id coincide. |
| `Display.HistoryCompareConsistent` | main.js:229 | The comparator is antisymmetric (swapping the arguments negates it), and "not after" is transitive. |
| `Display.Insert` | main.js:229 | Inserting a record into a list in history order keeps it in history order and adds exactly that record. |
| `Display.SortHistory` | main.js:229 | The history list is in history order and is a permutation of the filtered records. |
| `Display.ReportStep` | main.js:309-310 | `ReportTotals`, the two filter-and-sum totals of the report: one more record adds its amount to the income total if it is `pemasukan`, to the expense total if it is `pengeluaran`, and to neither otherwise. |
| `Display.ReportNetIsSignedSum` | main.js:309-323 | When every record is income or expense, the report's net cash flow equals the signed sum that the balances add up. |
| `Display.ReportTotalsNonNegative` | main.js:309-310 | With non-negative amounts, both report totals are non-negative. |
| `Categories.LoadCategories` | main.js:52-59 | The stored list when one exists, otherwise the eight defaults. |
| `Categories.HasIgnoringCase` | main.js:82 | True exactly when some entry equals the name after both are lower-cased. |
| `Categories.AddNewCategory` | main.js:75-87 | An empty trimmed name is refused as empty. A trimmed name equal, ignoring case, to an existing entry is refused as a duplicate. Otherwise the trimmed name is appended at the end. |
| `Categories.RegistrationOnlyAppends` | main.js:75-87 | A registration leaves the list unchanged or appends the trimmed name. Earlier entries keep their order. |
| `Categories.RegistrationKeepsUnique` | main.js:75-87 | Registration keeps the list free of case-insensitive duplicates. Afterwards, a non-empty name is present in some casing. |
| `Categories.DefaultsUnique` | main.js:28 | The eight default categories are distinct ignoring case. |
| `Categories.RegistryStaysUnique` | main.js:75-87 | Any run of registrations on a case-insensitively unique list keeps it unique. |
| `Categories.DefaultRegistryStaysUnique` | main.js:52-59 | Starting from the defaults (nothing stored), the list stays case-insensitively unique under any run of registrations. |
| `Categories.DuplicateOfDefaultRefused` | main.js:82-85 | Registering ` mAKANAN` next to the defaults is refused as a duplicate of `Makanan`. |
| `Text.Trim` | main.js:76 | The result has no whitespace at either end and is a slice of the input, with only whitespace around it. |
| `Text.TrimIdempotent` | main.js:111 | Trimming a trimmed note changes nothing. |
| `Text.Lower` | main.js:210 | Lower-casing keeps the length and maps each ASCII capital to its small letter. |
| `Text.Includes` | main.js:210 | `includes` holds exactly when the keyword occurs at some position of the text. |
| `Csv.EscapeQuotes` | main.js:281 | Doubling the quotes lengthens the note by its number of quotes. |
| `Csv.QuoteField` | main.js:281 | The exported field starts and ends with a quote and is two characters longer than the escaped note. |
| `Csv.QuoteRoundTrip` | main.js:281 | Parsing the quoted field back as RFC 4180 describes returns the original note. |
| `Csv.QuoteFieldInjective` | main.js:281 | Distinct notes are exported as distinct fields. |
| `App.Init` | main.js:24-32 | The stored ledger and stored categories are used when present. With nothing stored, the ledger is empty and the categories are the eight defaults, which are case-insensitively unique. The view starts in personal mode. |
| `App.Submit` | main.js:100-123 | A submission replaces the ledger with its ingestion of the form, which only appends, and leaves categories and mode alone. |
| `App.AddCategory` | main.js:75-88 | The categories become the outcome of the registration (unchanged when refused), which keeps them unique. Ledger and mode are left alone. |
| `App.RenderAll` | main.js:160-165 | The balances are the per-account totals of the whole ledger, and the pockets are the summary of the whole ledger, whatever the filters. The history is exactly the filtered records, as a permutation, in history order. |

## Left out

- Rendering: DOM construction and rendering (`populateCategoryDropdown`, the HTML of
  `renderBalances`, `renderTransactionHistory` and `exportPDF`), `alert`, `window.print`,
  `setTimeout`, and the class toggling in `setMode`. These are presentation only.
- Persistence: `localStorage`, `JSON.parse` and `JSON.stringify` (`saveCategories`,
  `saveTransactions`). Stored state is an `Option` parameter, and what is saved is the state
  itself.
- `formatCurrency` (`Intl.NumberFormat`), `encodeURI` and the download link of `exportCSV`: library
  code outside this model.
- The CSV row and header text: only the note-field quoting is modelled. Turning ids and amounts into
  text is JavaScript number formatting, which is outside this model.
- Date handling: parsing of `tanggal` with `new Date`, and the time-zone behaviour of `getMonth`
  and `getFullYear`. Dates are already `(year, month, day)`. The comparator uses the sign of a
  lexicographic difference, which agrees with the sign of `new Date(b) - new Date(a)` for valid dates.
- Floating point: `parseFloat` producing `NaN`, and IEEE-754 rounding of `* 0.3` and `* 0.2`.
  Amounts are exact reals, so equalities such as 0.3·A + 0.2·A = 0.5·A hold only in the model.
- Unicode case folding: `toLowerCase` is modelled on ASCII letters only.
- `populateFilters` (the year list), `populateDate`, and the form reset after submission: UI
  set-up.
- Display.SortHistory: states order and permutation but not stability. The tie-keeping of the
  browser's stable sort only matters for two records with the same date and the same id.
- `balances[t.akun] !== undefined` on a plain object also accepts inherited property names
  such as `toString`. The model treats only the seven listed accounts as known. The displayed
  balances and pockets read only those seven anyway.
- Failures of `localStorage.setItem`: main.js does not handle them, and storage is not modelled.
