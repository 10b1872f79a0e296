/** The overview screen (src/components/admin/Dashboard.tsx): the four metric
    cards with their change badges, and the weekly revenue panel rebuilt from
    the fetched per-day records. Amounts are integer cents; the locale
    formatting of money is not modelled. */
module Dashboard {
  import opened Wrappers
  import opened Lists
  import opened Numbers

  /** The fixed weekday labels of the revenue panel, Sunday first. */
  const WeekLabels: seq<string> := ["Dom", "Seg", "Ter", "Qua", "Qui", "Sex", "Sáb"]

  /** One record of `/dashboard/weekly`. */
  datatype DayRevenue = DayRevenue(day: string, totalRevenue: int)

  datatype RevenueRow = RevenueRow(day: string, amount: int)

  /** The revenue panel: the loading placeholder, or seven rows and a total. */
  datatype RevenuePanel = LoadingPanel | Rows(rows: seq<RevenueRow>, total: int)

  /** The `/dashboard` record; every field may be missing (`null`/`undefined`). */
  datatype Metrics = Metrics(
    ordersToday: Option<int>, ordersTodayPercent: Option<int>,
    users: Option<int>, usersPercent: Option<int>,
    restaurants: Option<int>,
    revenueToday: Option<int>, revenuePercent: Option<int>)

  /** What a card shows as its value: the `'...'` placeholder, a count, or the
      money text `R$ …` built from the revenue (which reads `R$ NaN` when the
      revenue is missing, but is never the placeholder). */
  datatype CardValue = Placeholder | Count(n: int) | Money(cents: Option<int>)

  /** The change pill: its text and whether it is styled green (else red). */
  datatype ChangeBadge = ChangeBadge(text: string, green: bool)

  datatype Card = Card(title: string, value: CardValue, change: ChangeBadge)

  datatype View = Loading | Loaded(cards: seq<Card>, revenue: RevenuePanel)

  function HasDay(dia: string): DayRevenue -> bool {
    (w: DayRevenue) => w.day == dia
  }

  function Revenue(w: DayRevenue): int {
    w.totalRevenue
  }

  function Amount(r: RevenueRow): int {
    r.amount
  }

  /** `(weekly.find(w => w.day === dia) || {totalRevenue: 0}).totalRevenue`. */
  function RevenueOn(weekly: seq<DayRevenue>): string -> int {
    (dia: string) => match Find(weekly, HasDay(dia))
           case Some(d) => d.totalRevenue
           case None => 0
  }

  function RowFor(weekly: seq<DayRevenue>): string -> RevenueRow {
    (dia: string) => RevenueRow(dia, RevenueOn(weekly)(dia))
  }

  /** The revenue panel: nothing but the placeholder for an empty series;
      otherwise one row per weekday label, in label order, and a total that
      adds up every fetched record. */
  function RevenuePanelOf(weekly: seq<DayRevenue>): (p: RevenuePanel)
    ensures p.LoadingPanel? <==> weekly == []
    ensures p.Rows? ==> |p.rows| == 7
    ensures p.Rows? ==> forall i :: 0 <= i < 7 ==> p.rows[i].day == WeekLabels[i]
    ensures p.Rows? ==> p.total == Sum(weekly, Revenue)
  {
    if weekly == [] then LoadingPanel
    else Rows(Map(WeekLabels, RowFor(weekly)), Sum(weekly, Revenue))
  }

  /** Each row shows the revenue of the first record for its day, and 0 when
      no record names that day. */
  lemma RowIsFirstMatch(weekly: seq<DayRevenue>, i: nat)
    requires weekly != [] && i < 7
    ensures (forall j :: 0 <= j < |weekly| ==> weekly[j].day != WeekLabels[i]) ==>
              RevenuePanelOf(weekly).rows[i].amount == 0
    ensures forall j :: 0 <= j < |weekly| && weekly[j].day == WeekLabels[i]
                        && (forall k :: 0 <= k < j ==> weekly[k].day != WeekLabels[i]) ==>
              RevenuePanelOf(weekly).rows[i].amount == weekly[j].totalRevenue
  {
    var dia := WeekLabels[i];
    var p := HasDay(dia);
    assert RevenuePanelOf(weekly).rows[i] == RowFor(weekly)(dia);
    match FindIndex(weekly, p)
    case None =>
      assert Find(weekly, p) == None;
      assert RevenueOn(weekly)(dia) == 0;
    case Some(m) =>
      assert Find(weekly, p) == Some(weekly[m]);
      assert RevenueOn(weekly)(dia) == weekly[m].totalRevenue;
  }

  predicate DistinctDays(weekly: seq<DayRevenue>) {
    forall i, j :: 0 <= i < j < |weekly| ==> weekly[i].day != weekly[j].day
  }

  predicate Distinct(labels: seq<string>) {
    forall i, j :: 0 <= i < j < |labels| ==> labels[i] != labels[j]
  }

  /** Adding `v` to the value of one label `d` adds `v` to the sum over a list
      of distinct labels when `d` is among them, and nothing otherwise. */
  lemma {:induction false} SumPointUpdate(labels: seq<string>, f: string -> int, g: string -> int, d: string, v: int)
    requires Distinct(labels)
    requires forall i :: 0 <= i < |labels| ==> f(labels[i]) == g(labels[i]) + (if labels[i] == d then v else 0)
    ensures Sum(labels, f) == Sum(labels, g) + (if d in labels then v else 0)
    decreases |labels|
  {
    if labels != [] {
      SumPointUpdate(labels[1..], f, g, d, v);
      if labels[0] == d {
      } else {
        assert d in labels <==> d in labels[1..] by {
          assert labels == [labels[0]] + labels[1..];
        }
      }
    }
  }

  lemma {:induction false} SumOfZeros(labels: seq<string>, f: string -> int)
    requires forall i :: 0 <= i < |labels| ==> f(labels[i]) == 0
    ensures Sum(labels, f) == 0
    decreases |labels|
  {
    if labels != [] {
      SumOfZeros(labels[1..], f);
    }
  }

  /** The rows' amounts, read off one label at a time. */
  lemma {:induction false} FirstRevenueSplits(w: DayRevenue, rest: seq<DayRevenue>, dia: string)
    requires forall j :: 0 <= j < |rest| ==> rest[j].day != w.day
    ensures RevenueOn([w] + rest)(dia) == RevenueOn(rest)(dia) + (if dia == w.day then w.totalRevenue else 0)
  {
    var weekly := [w] + rest;
    assert weekly[1..] == rest;
    if dia == w.day {
      assert Find(rest, HasDay(dia)).None?;
    }
  }

  /** When the records name distinct days, all among `labels`, the sum of the
      per-label amounts is the sum of all records. */
  lemma {:induction false} TotalOverDistinctDays(weekly: seq<DayRevenue>, labels: seq<string>)
    requires Distinct(labels) && DistinctDays(weekly)
    requires forall j :: 0 <= j < |weekly| ==> weekly[j].day in labels
    ensures Sum(labels, RevenueOn(weekly)) == Sum(weekly, Revenue)
    decreases |weekly|
  {
    if weekly == [] {
      SumOfZeros(labels, RevenueOn(weekly));
    } else {
      var w, rest := weekly[0], weekly[1..];
      assert weekly == [w] + rest;
      TotalOverDistinctDays(rest, labels);
      forall i | 0 <= i < |labels|
        ensures RevenueOn(weekly)(labels[i]) == RevenueOn(rest)(labels[i]) + (if labels[i] == w.day then w.totalRevenue else 0)
      {
        FirstRevenueSplits(w, rest, labels[i]);
      }
      SumPointUpdate(labels, RevenueOn(weekly), RevenueOn(rest), w.day, w.totalRevenue);
    }
  }

  lemma {:induction false} SumOfMappedRows(labels: seq<string>, weekly: seq<DayRevenue>)
    ensures Sum(Map(labels, RowFor(weekly)), Amount) == Sum(labels, RevenueOn(weekly))
    decreases |labels|
  {
    if labels != [] {
      SumOfMappedRows(labels[1..], weekly);
      assert Map(labels, RowFor(weekly))[1..] == Map(labels[1..], RowFor(weekly));
    }
  }

  /** When the backend sends at most one record per weekday and names only
      the seven labels, the total is the sum of the seven rows shown. */
  lemma TotalIsSumOfRowsForAWeek(weekly: seq<DayRevenue>)
    requires weekly != [] && DistinctDays(weekly)
    requires forall j :: 0 <= j < |weekly| ==> weekly[j].day in WeekLabels
    ensures RevenuePanelOf(weekly).total == Sum(RevenuePanelOf(weekly).rows, Amount)
  {
    TotalOverDistinctDays(weekly, WeekLabels);
    SumOfMappedRows(WeekLabels, weekly);
  }

  /** Otherwise the total need not match the rows: a second record for the
      same day is counted in the total but not shown. */
  lemma DuplicateDayCountsOnlyInTotal()
    ensures var p := RevenuePanelOf([DayRevenue("Dom", 100), DayRevenue("Dom", 50)]);
            p.rows[0].amount == 100 && p.total == 150
  {
    var weekly := [DayRevenue("Dom", 100), DayRevenue("Dom", 50)];
    RowIsFirstMatch(weekly, 0);
    assert weekly[1..] == [DayRevenue("Dom", 50)];
  }

  /** `value !== undefined && value !== null ? value : '...'`. */
  function CountValue(v: Option<int>): (c: CardValue)
    ensures c == Placeholder <==> v.None?
    ensures v.Some? ==> c == Count(v.value)
  {
    match v
    case None => Placeholder
    case Some(n) => Count(n)
  }

  /** The change pill of a card, for an integer percentage. */
  function ChangeBadgeOf(change: Option<int>): (b: ChangeBadge)
    ensures change.None? ==> b.text == "..."
    ensures b.green <==> change.Some? && change.value >= 0
    ensures b.text != [] && (b.text[0] == '+' <==> change.Some? && change.value > 0)
    ensures change.Some? ==> b.text[|b.text| - 1] == '%'
  {
    match change
    case None => ChangeBadge("...", false)
    case Some(c) => ChangeBadge((if c > 0 then "+" else "") + DecimalString(c) + "%", c >= 0)
  }

  /** A present percentage reads back from the pill's text: the digits after
      the optional `+` and before `%` are the percentage itself. */
  lemma ChangeTextRoundTrip(c: int)
    ensures var t := ChangeBadgeOf(Some(c)).text;
            var digits := if c > 0 then t[1..|t| - 1] else t[..|t| - 1];
            ParseInt(digits) == Some(c)
  {
    var t := ChangeBadgeOf(Some(c)).text;
    if c > 0 {
      assert t[1..|t| - 1] == DecimalString(c);
    } else {
      assert t[..|t| - 1] == DecimalString(c);
    }
    DecimalRoundTrip(c);
  }

  /** The four cards, in screen order. The restaurants card carries the
      constant change `"+0"`, which JavaScript compares and formats as the
      number 0. */
  function Cards(m: Metrics): (cs: seq<Card>)
    ensures |cs| == 4
    ensures cs[0].value == Placeholder <==> m.ordersToday.None?
    ensures cs[1].value == Placeholder <==> m.users.None?
    ensures cs[2].value == Placeholder <==> m.restaurants.None?
    ensures cs[3].value != Placeholder
    ensures cs[2].change == ChangeBadge("0%", true)
    ensures cs[0].change == ChangeBadgeOf(m.ordersTodayPercent)
    ensures cs[1].change == ChangeBadgeOf(m.usersPercent)
    ensures cs[3].change == ChangeBadgeOf(m.revenuePercent)
    ensures cs[3].value == Money(m.revenueToday)
    ensures cs[0].title == "Pedidos Hoje" && cs[1].title == "Total de Usuários"
    ensures cs[2].title == "Restaurantes Ativos" && cs[3].title == "Faturamento Hoje"
  {
    [Card("Pedidos Hoje", CountValue(m.ordersToday), ChangeBadgeOf(m.ordersTodayPercent)),
     Card("Total de Usuários", CountValue(m.users), ChangeBadgeOf(m.usersPercent)),
     Card("Restaurantes Ativos", CountValue(m.restaurants), ChangeBadgeOf(Some(0))),
     Card("Faturamento Hoje", Money(m.revenueToday), ChangeBadgeOf(m.revenuePercent))]
  }

  /** The whole screen: only the loading message until the metrics arrive. */
  function DashboardView(metrics: Option<Metrics>, weekly: seq<DayRevenue>): (v: View)
    ensures v == Loading <==> metrics.None?
    ensures v.Loaded? ==> v.cards == Cards(metrics.value) && v.revenue == RevenuePanelOf(weekly)
  {
    match metrics
    case None => Loading
    case Some(m) => Loaded(Cards(m), RevenuePanelOf(weekly))
  }
}
