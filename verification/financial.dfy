/** The finance screen (src/components/admin/FinancialManagement.tsx): search
    over restaurant and order id, the status badge, the count in the list
    heading and the fixed seven-bar revenue chart. */
module FinancialManagement {
  import opened Lists
  import opened Text
  import opened Ui

  datatype Transaction = Transaction(id: int, orderId: string, restaurant: string, status: string)

  /** One bar of the revenue chart: its day label and its height in pixels. */
  datatype Bar = Bar(day: string, heightPx: int)

  /** The chart's fixed data points and the day labels the bars take by index. */
  const ChartData: seq<int> := [45, 52, 48, 61, 55, 67, 58]
  const ChartDays: seq<string> := ["Seg", "Ter", "Qua", "Qui", "Sex", "Sáb", "Dom"]

  predicate MatchesSearch(t: Transaction, term: string) {
    ContainsIgnoringCase(t.restaurant, term) || ContainsIgnoringCase(t.orderId, term)
  }

  function Criteria(term: string): Transaction -> bool {
    t => MatchesSearch(t, term)
  }

  /** `filteredTransactions`. */
  function FilteredTransactions(transactions: seq<Transaction>, term: string): (r: seq<Transaction>)
    ensures IsSubseq(r, transactions)
    ensures forall t :: t in r <==> t in transactions && MatchesSearch(t, term)
  {
    FilterFacts(transactions, Criteria(term));
    Filter(transactions, Criteria(term))
  }

  lemma FilteredTransactionsIdempotent(transactions: seq<Transaction>, term: string)
    ensures FilteredTransactions(FilteredTransactions(transactions, term), term) == FilteredTransactions(transactions, term)
  {
    FilterIdempotent(transactions, Criteria(term));
  }

  lemma EmptyTermListsEveryTransaction(transactions: seq<Transaction>)
    ensures FilteredTransactions(transactions, "") == transactions
  {
    forall i | 0 <= i < |transactions| ensures Criteria("")(transactions[i]) {
      EmptyTermMatches(transactions[i].restaurant);
    }
    FilterKeepsAll(transactions, Criteria(""));
  }

  /** The number in `Transações Recentes (N)`. */
  function HeadingCount(transactions: seq<Transaction>, term: string): (n: nat)
    ensures n <= |transactions|
    ensures term == "" ==> n == |transactions|
  {
    if term == "" then EmptyTermListsEveryTransaction(transactions); |FilteredTransactions(transactions, term)|
    else |FilteredTransactions(transactions, term)|
  }

  /** The status badge: default and green for `Processado`, secondary and yellow otherwise. */
  function StatusBadge(status: string): (b: Badge)
    ensures b.variant == DefaultVariant <==> status == "Processado"
    ensures b.colour == (if status == "Processado" then Green else Yellow)
  {
    TwoStateBadge(status == "Processado", Yellow)
  }

  /** The chart: seven bars, Monday first and Sunday last, each twice as tall
      in pixels as its data point. */
  function RevenueChart(): (bars: seq<Bar>)
    ensures |bars| == 7
    ensures bars[0].day == "Seg" && bars[6].day == "Dom"
    ensures forall i :: 0 <= i < 7 ==> bars[i].day == ChartDays[i] && bars[i].heightPx == 2 * ChartData[i]
    ensures forall i :: 0 <= i < 7 ==> 90 <= bars[i].heightPx <= 134
  {
    seq(7, i requires 0 <= i < 7 => Bar(ChartDays[i], ChartData[i] * 2))
  }
}
