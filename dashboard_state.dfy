/** The page-lifetime state of the monitoring dashboard (web_dashboard/Dashboard/app.js):
    the latest snapshot, the render-skip memo of the full transaction table, the three
    chart slots and the content of the views it writes. */
module Dashboard {
  import opened Wrappers
  import opened Seqs
  import opened DashboardViews

  /** The mount points a render finds on the page, and the values of its two inputs.
      A `false` flag stands for `document.getElementById(..)` returning `null`. */
  datatype Page = Page(
    dashboardBody: bool,
    transactionsBody: bool,
    searchBox: Option<string>,
    alertsContainer: bool,
    trendCanvas: bool,
    locationCanvas: bool,
    vendorCanvas: bool,
    refreshCheckbox: Option<bool>)

  predicate HasAllCanvases(page: Page)
  {
    page.trendCanvas && page.locationCanvas && page.vendorCanvas
  }

  /** The category/location fold of `renderCharts`: walks the labels once, adding a key
      the first time it is seen and incrementing its count otherwise. */
  method GroupCounts(labels: seq<string>) returns (keys: seq<string>, counts: map<string, nat>)
    ensures keys == BucketLabels(labels)
    ensures counts == CountMap(labels)
  {
    keys, counts := [], map[];
    var i := 0;
    while i < |labels|
      invariant 0 <= i <= |labels|
      invariant keys == FirstSeen(labels[..i])
      invariant counts == CountMap(labels[..i])
    {
      var key := labels[i];
      GroupStep(labels[..i], keys, counts, key);
      assert labels[..i + 1] == labels[..i] + [key];
      keys, counts := if key in counts then keys else keys + [key],
                      counts[key := (if key in counts then counts[key] else 0) + 1];
      i := i + 1;
    }
    assert labels[..i] == labels;
  }

  /** Reading the count dictionary in first-seen key order gives the bucket counts. */
  lemma BucketsOfCountMap(labels: seq<string>)
    ensures forall i :: 0 <= i < |FirstSeen(labels)| ==> FirstSeen(labels)[i] in CountMap(labels)
    ensures ValuesInOrder(FirstSeen(labels), CountMap(labels)) == BucketCounts(labels)
  {
    var keys := FirstSeen(labels);
    FirstSeenMembers(labels);
    forall j | 0 <= j < |keys| ensures keys[j] in labels {
    }
    ValuesOfCountMap(keys, labels);
  }

  /** The bar chart of `renderCharts`: the location fold, labels in first-seen order. */
  method BuildLocationChart(data: seq<Transaction>) returns (c: Chart)
    ensures c == LocationChart(data)
  {
    var keys, counts := GroupCounts(Map(data, LocationLabel));
    BucketsOfCountMap(Map(data, LocationLabel));
    c := Bar(keys, ValuesInOrder(keys, counts));
  }

  /** The doughnut chart of `renderCharts`: the category fold, labels in first-seen order. */
  method BuildVendorChart(data: seq<Transaction>) returns (c: Chart)
    ensures c == VendorChart(data)
  {
    var keys, counts := GroupCounts(Map(data, CategoryLabel));
    BucketsOfCountMap(Map(data, CategoryLabel));
    c := Doughnut(keys, ValuesInOrder(keys, counts));
  }

  /** One step of the fold: a label already counted keeps the key order and bumps its
      count; a new label is appended to the keys with a count of one. */
  lemma GroupStep(s: seq<string>, keys: seq<string>, counts: map<string, nat>, key: string)
    requires keys == FirstSeen(s) && counts == CountMap(s)
    ensures FirstSeen(s + [key]) == if key in counts then keys else keys + [key]
    ensures CountMap(s + [key]) == counts[key := (if key in counts then counts[key] else 0) + 1]
  {
    CountMapSnoc(s, key);
    FirstSeenMembers(s);
    assert (s + [key])[..|s|] == s;
    if key in keys {
      var j :| 0 <= j < |keys| && keys[j] == key;
    }
    if key in s {
      var j :| 0 <= j < |s| && s[j] == key;
    }
  }

  lemma CountMapSnoc(s: seq<string>, x: string)
    ensures CountMap(s + [x]) ==
              CountMap(s)[x := (if x in CountMap(s) then CountMap(s)[x] else 0) + 1]
  {
    var a, b := CountMap(s + [x]), CountMap(s)[x := (if x in CountMap(s) then CountMap(s)[x] else 0) + 1];
    forall k ensures k in a <==> k in b {
      assert k in s + [x] <==> k in s || k == x;
    }
    forall k | k in a ensures a[k] == b[k] {
      CountSnoc(s, x, k);
      if k !in s {
        CountPositive(s, k);
      }
    }
  }

  class DashboardState {
    /** `globalTransactions`: the latest snapshot, replaced wholesale by each fetch. */
    var transactions: seq<Transaction>
    /** The text of the four stats cards, once a summary has arrived. */
    var counters: Option<Counters>
    /** The rows of `#dashboard-transactions-body`. */
    var dashboardRows: seq<TxRow>
    /** The rows of `#all-transactions-body`. */
    var transactionRows: seq<TxRow>
    /** The content of `#alerts-container`, once rendered. */
    var alerts: Option<AlertsContent>
    /** The render-skip memo `(lastTxCount, lastSearchTerm)`. */
    var lastTxCount: nat
    var lastSearchTerm: string
    /** The chart handles `riskTrendChart`, `locationChartInstance`, `vendorChartInstance`. */
    var trendChart: Option<Chart>
    var locationChart: Option<Chart>
    var vendorChart: Option<Chart>
    /** The number of chart instances created for each slot and not yet destroyed. */
    var trendLive: nat
    var locationLive: nat
    var vendorLive: nat

    /** Every slot owns exactly the instance its handle names, and nothing else. */
    ghost predicate Valid()
      reads this`trendChart, this`locationChart, this`vendorChart
      reads this`trendLive, this`locationLive, this`vendorLive
    {
      && trendLive == (if trendChart.Some? then 1 else 0)
      && locationLive == (if locationChart.Some? then 1 else 0)
      && vendorLive == (if vendorChart.Some? then 1 else 0)
    }

    /** The state at page load: no snapshot, the memo at `(0, '')` and three empty slots. */
    constructor ()
      ensures Valid()
      ensures transactions == [] && counters == None && alerts == None
      ensures dashboardRows == [] && transactionRows == []
      ensures lastTxCount == 0 && lastSearchTerm == ""
      ensures trendChart == None && locationChart == None && vendorChart == None
      ensures trendLive == 0 && locationLive == 0 && vendorLive == 0
    {
      transactions, counters, alerts := [], None, None;
      dashboardRows, transactionRows := [], [];
      lastTxCount, lastSearchTerm := 0, "";
      trendChart, locationChart, vendorChart := None, None, None;
      trendLive, locationLive, vendorLive := 0, 0, 0;
    }

    /** `fetchStats` after its response arrived: `None` is a failed request or an
        undecodable body, which is logged and changes nothing. */
    method FetchStats(response: Option<map<string, int>>)
      modifies this`counters
      ensures counters == if response.Some? then Some(StatCounters(response.value)) else old(counters)
    {
      if response.Some? {
        counters := Some(StatCounters(response.value));
      }
    }

    /** `renderDashboardTable`: the first ten records, rebuilt on every call. */
    method RenderDashboardTable(ts: seq<Transaction>, page: Page)
      modifies this`dashboardRows
      ensures DashboardRendered(ts, page)
    {
      if !page.dashboardBody {
        return;
      }
      dashboardRows := TxRows(TopTen(ts));
    }

    /** `renderTransactionsView`: skipped when the record count and the folded search
        term equal the memo; otherwise the memo becomes the new pair and the table is
        rebuilt from `DisplaySet`. A missing table body returns before the memo is read. */
    method RenderTransactionsView(ts: seq<Transaction>, page: Page) returns (rebuilt: bool)
      modifies this`lastTxCount, this`lastSearchTerm, this`transactionRows
      ensures var term := SearchTerm(page.searchBox);
              rebuilt <==> page.transactionsBody &&
                           !(|ts| == old(lastTxCount) && term == old(lastSearchTerm))
      ensures TableRendered(ts, page)
    {
      rebuilt := false;
      if !page.transactionsBody {
        return;
      }
      var term := SearchTerm(page.searchBox);
      if |ts| == lastTxCount && term == lastSearchTerm {
        return;
      }
      lastTxCount := |ts|;
      lastSearchTerm := term;
      transactionRows := TxRows(DisplaySet(ts, term));
      rebuilt := true;
    }

    /** The `input` listener of the search box re-renders from the stored snapshot. */
    method OnSearchInput(page: Page) returns (rebuilt: bool)
      modifies this`lastTxCount, this`lastSearchTerm, this`transactionRows
      ensures var term := SearchTerm(page.searchBox);
              rebuilt <==> page.transactionsBody &&
                           !(|transactions| == old(lastTxCount) && term == old(lastSearchTerm))
      ensures rebuilt ==> transactionRows == TxRows(DisplaySet(transactions, SearchTerm(page.searchBox)))
      ensures !rebuilt ==> transactionRows == old(transactionRows)
      ensures page.transactionsBody ==> lastTxCount == |transactions| && lastSearchTerm == SearchTerm(page.searchBox)
      ensures !page.transactionsBody ==> lastTxCount == old(lastTxCount) && lastSearchTerm == old(lastSearchTerm)
    {
      rebuilt := RenderTransactionsView(transactions, page);
    }

    /** Rendering twice with the same snapshot and the same search box is idempotent:
        the second call is a skip and leaves the table as the first call built it. */
    method RenderTransactionsViewTwice(ts: seq<Transaction>, page: Page) returns (first: bool, second: bool)
      modifies this`lastTxCount, this`lastSearchTerm, this`transactionRows
      ensures !second
      ensures page.transactionsBody && first ==> transactionRows == TxRows(DisplaySet(ts, SearchTerm(page.searchBox)))
      ensures !first ==> transactionRows == old(transactionRows)
      ensures page.transactionsBody ==> lastTxCount == |ts| && lastSearchTerm == SearchTerm(page.searchBox)
      ensures !page.transactionsBody ==> lastTxCount == old(lastTxCount) && lastSearchTerm == old(lastSearchTerm)
    {
      first := RenderTransactionsView(ts, page);
      second := RenderTransactionsView(ts, page);
    }

    /** `renderAlertsView`: the cards of every record scoring above 70, or the
        empty-state message alone. */
    method RenderAlertsView(ts: seq<Transaction>, page: Page)
      modifies this`alerts
      ensures AlertsRendered(ts, page)
    {
      if !page.alertsContainer {
        return;
      }
      alerts := Some(AlertsView(ts));
    }

    /** `if (chart) chart.destroy()` for the three slots: every live instance is torn
        down. The handles keep pointing at the destroyed charts, as in the source. */
    method DestroyCharts()
      requires Valid()
      modifies this`trendLive, this`locationLive, this`vendorLive
      ensures trendLive == 0 && locationLive == 0 && vendorLive == 0
    {
      if trendChart.Some? { trendLive := trendLive - 1; }
      if locationChart.Some? { locationLive := locationLive - 1; }
      if vendorChart.Some? { vendorLive := vendorLive - 1; }
    }

    /** What `renderCharts` leaves in the slots of a state after drawing `data`. */
    ghost predicate ChartsShow(data: seq<Transaction>)
      reads this`trendChart, this`locationChart, this`vendorChart
      reads this`trendLive, this`locationLive, this`vendorLive
    {
      && trendChart == Some(TrendChart(data))
      && locationChart == Some(LocationChart(data))
      && vendorChart == Some(VendorChart(data))
      && trendLive == 1 && locationLive == 1 && vendorLive == 1
    }

    /** `new Chart(..)` for the three slots, once the previous instances are gone. */
    method InstallCharts(trend: Chart, location: Chart, vendor: Chart)
      requires trendLive == 0 && locationLive == 0 && vendorLive == 0
      modifies this`trendChart, this`locationChart, this`vendorChart
      modifies this`trendLive, this`locationLive, this`vendorLive
      ensures trendChart == Some(trend) && locationChart == Some(location) && vendorChart == Some(vendor)
      ensures trendLive == 1 && locationLive == 1 && vendorLive == 1
    {
      trendChart, locationChart, vendorChart := Some(trend), Some(location), Some(vendor);
      trendLive, locationLive, vendorLive := 1, 1, 1;
    }

    /** `renderCharts`: if any canvas is missing nothing changes; otherwise each slot's
        previous instance is destroyed before a new one is created and stored. */
    method RenderCharts(data: seq<Transaction>, page: Page)
      requires Valid()
      modifies this`trendChart, this`locationChart, this`vendorChart
      modifies this`trendLive, this`locationLive, this`vendorLive
      ensures Valid()
      ensures ChartsRendered(data, page)
    {
      if !HasAllCanvases(page) {
        return;
      }
      DestroyCharts();
      var trend := TrendChart(data);
      var location := BuildLocationChart(data);
      var vendor := BuildVendorChart(data);
      InstallCharts(trend, location, vendor);
    }

    /** The dashboard table `renderDashboardTable` leaves for `data`. */
    twostate predicate DashboardRendered(data: seq<Transaction>, page: Page)
      reads this`dashboardRows
    {
      dashboardRows == if page.dashboardBody then TxRows(TopTen(data)) else old(dashboardRows)
    }

    /** The alerts container `renderAlertsView` leaves for `data`. */
    twostate predicate AlertsRendered(data: seq<Transaction>, page: Page)
      reads this`alerts
    {
      alerts == if page.alertsContainer then Some(AlertsView(data)) else old(alerts)
    }

    /** The charts `renderCharts` leaves for `data`: redrawn when every canvas is
        present, otherwise the slots and their instances as they were. */
    twostate predicate ChartsRendered(data: seq<Transaction>, page: Page)
      reads this`trendChart, this`locationChart, this`vendorChart
      reads this`trendLive, this`locationLive, this`vendorLive
    {
      if HasAllCanvases(page) then ChartsShow(data)
      else
        && trendChart == old(trendChart) && locationChart == old(locationChart)
        && vendorChart == old(vendorChart) && trendLive == old(trendLive)
        && locationLive == old(locationLive) && vendorLive == old(vendorLive)
    }

    /** The transaction table and memo `renderTransactionsView` leaves for `data`. */
    twostate predicate TableRendered(data: seq<Transaction>, page: Page)
      reads this`lastTxCount, this`lastSearchTerm, this`transactionRows
    {
      var term := SearchTerm(page.searchBox);
      if page.transactionsBody then
        && lastTxCount == |data| && lastSearchTerm == term
        && transactionRows ==
             (if |data| == old(lastTxCount) && term == old(lastSearchTerm)
              then old(transactionRows)
              else TxRows(DisplaySet(data, term)))
      else
        lastTxCount == old(lastTxCount) && lastSearchTerm == old(lastSearchTerm)
        && transactionRows == old(transactionRows)
    }

    /** The two list views of `fetchTransactions`, in the source's order. */
    method RenderLists(data: seq<Transaction>, page: Page)
      modifies this`lastTxCount, this`lastSearchTerm, this`transactionRows, this`alerts
      ensures TableRendered(data, page)
      ensures AlertsRendered(data, page)
    {
      var _ := RenderTransactionsView(data, page);
      RenderAlertsView(data, page);
    }

    /** The charts and then the two list views of `fetchTransactions`. */
    method RenderChartsAndLists(data: seq<Transaction>, page: Page)
      requires Valid()
      modifies this`trendChart, this`locationChart, this`vendorChart
      modifies this`trendLive, this`locationLive, this`vendorLive
      modifies this`lastTxCount, this`lastSearchTerm, this`transactionRows, this`alerts
      ensures Valid()
      ensures ChartsRendered(data, page)
      ensures TableRendered(data, page)
      ensures AlertsRendered(data, page)
    {
      RenderCharts(data, page);
      RenderLists(data, page);
    }

    /** The four renders of `fetchTransactions`, in the source's order. */
    method RenderViews(data: seq<Transaction>, page: Page)
      requires Valid()
      modifies this`dashboardRows
      modifies this`trendChart, this`locationChart, this`vendorChart
      modifies this`trendLive, this`locationLive, this`vendorLive
      modifies this`lastTxCount, this`lastSearchTerm, this`transactionRows, this`alerts
      ensures Valid()
      ensures DashboardRendered(data, page)
      ensures ChartsRendered(data, page)
      ensures TableRendered(data, page)
      ensures AlertsRendered(data, page)
    {
      RenderDashboardTable(data, page);
      RenderChartsAndLists(data, page);
    }

    /** The body of `fetchTransactions` once the records arrived: the snapshot is
        replaced and the four views are rendered from it. The renders take the records
        as an argument and do not read the stored snapshot, so the order of the
        assignment and the renders is immaterial. */
    method ApplySnapshot(data: seq<Transaction>, page: Page)
      requires Valid()
      modifies this`transactions, this`dashboardRows
      modifies this`trendChart, this`locationChart, this`vendorChart
      modifies this`trendLive, this`locationLive, this`vendorLive
      modifies this`lastTxCount, this`lastSearchTerm, this`transactionRows, this`alerts
      ensures Valid()
      ensures transactions == data && counters == old(counters)
      ensures DashboardRendered(data, page)
      ensures ChartsRendered(data, page)
      ensures TableRendered(data, page)
      ensures AlertsRendered(data, page)
    {
      RenderViews(data, page);
      transactions := data;
    }

    /** What `fetchTransactions` leaves for a response: the snapshot replaced and the four
        views rendered from it, or, for a failed request, every field but the counters as
        it was. */
    twostate predicate FetchApplied(response: Option<seq<Transaction>>, page: Page)
      reads this`transactions, this`dashboardRows, this`transactionRows, this`alerts
      reads this`lastTxCount, this`lastSearchTerm
      reads this`trendChart, this`locationChart, this`vendorChart
      reads this`trendLive, this`locationLive, this`vendorLive
    {
      if response.Some? then
        && transactions == response.value
        && DashboardRendered(response.value, page)
        && ChartsRendered(response.value, page)
        && TableRendered(response.value, page)
        && AlertsRendered(response.value, page)
      else
        && transactions == old(transactions) && dashboardRows == old(dashboardRows)
        && transactionRows == old(transactionRows) && alerts == old(alerts)
        && lastTxCount == old(lastTxCount) && lastSearchTerm == old(lastSearchTerm)
        && trendChart == old(trendChart) && locationChart == old(locationChart)
        && vendorChart == old(vendorChart) && trendLive == old(trendLive)
        && locationLive == old(locationLive) && vendorLive == old(vendorLive)
    }

    /** `fetchTransactions` after its response arrived: `None` is a failed request,
        which is logged and changes nothing; otherwise the snapshot is applied. */
    method FetchTransactions(response: Option<seq<Transaction>>, page: Page)
      requires Valid()
      modifies this
      ensures Valid()
      ensures response.None? ==> unchanged(this)
      ensures counters == old(counters)
      ensures FetchApplied(response, page)
    {
      if response.Some? {
        ApplySnapshot(response.value, page);
      }
    }

    /** `fetchStats(); fetchTransactions();`, as at page load and on an enabled tick:
        the counters follow the summary and the views follow the snapshot. */
    method RefreshCycle(stats: Option<map<string, int>>, txs: Option<seq<Transaction>>, page: Page)
      requires Valid()
      modifies this
      ensures Valid()
      ensures counters == if stats.Some? then Some(StatCounters(stats.value)) else old(counters)
      ensures FetchApplied(txs, page)
    {
      FetchStats(stats);
      FetchTransactions(txs, page);
    }

    /** Page load: one stats fetch and one transactions fetch, regardless of the
        auto-refresh setting. */
    method Start(stats: Option<map<string, int>>, txs: Option<seq<Transaction>>, page: Page)
      requires Valid()
      modifies this
      ensures Valid()
      ensures counters == if stats.Some? then Some(StatCounters(stats.value)) else old(counters)
      ensures FetchApplied(txs, page)
    {
      RefreshCycle(stats, txs, page);
    }

    /** One tick of the five-second interval: when auto-refresh is enabled (a missing
        checkbox counts as enabled) both fetches run; otherwise nothing changes. */
    method Tick(stats: Option<map<string, int>>, txs: Option<seq<Transaction>>, page: Page)
      requires Valid()
      modifies this
      ensures Valid()
      ensures !RefreshEnabled(page.refreshCheckbox) ==> unchanged(this)
      ensures RefreshEnabled(page.refreshCheckbox) ==>
                counters == if stats.Some? then Some(StatCounters(stats.value)) else old(counters)
      ensures RefreshEnabled(page.refreshCheckbox) ==> FetchApplied(txs, page)
      ensures RefreshEnabled(page.refreshCheckbox) && txs.Some? && HasAllCanvases(page) ==>
                ChartsShow(txs.value)
    {
      if RefreshEnabled(page.refreshCheckbox) {
        RefreshCycle(stats, txs, page);
      }
    }
  }

  /** At page load the memo is `(0, '')`, so an empty snapshot with an empty search box
      does not render the transaction table. */
  method EmptyFirstRenderIsSkipped(page: Page) returns (rebuilt: bool)
    requires page.searchBox.None? || page.searchBox == Some("")
    ensures !rebuilt
  {
    var state := new DashboardState();
    rebuilt := state.RenderTransactionsView([], page);
  }

  /** After the first successful chart cycle every slot holds exactly one live instance,
      and further cycles, with or without canvases, keep it at exactly one. */
  method ChartCycles(cycles: seq<(seq<Transaction>, Page)>) returns (state: DashboardState)
    ensures state.Valid()
    ensures state.trendLive <= 1 && state.locationLive <= 1 && state.vendorLive <= 1
    ensures (exists k :: 0 <= k < |cycles| && HasAllCanvases(cycles[k].1)) ==>
              state.trendLive == 1 && state.locationLive == 1 && state.vendorLive == 1
  {
    state := new DashboardState();
    var i := 0;
    while i < |cycles|
      invariant 0 <= i <= |cycles|
      invariant state.Valid()
      invariant (exists k :: 0 <= k < i && HasAllCanvases(cycles[k].1)) ==>
                  state.trendLive == 1 && state.locationLive == 1 && state.vendorLive == 1
    {
      state.RenderCharts(cycles[i].0, cycles[i].1);
      i := i + 1;
    }
  }
}
