/** The pure projections of the monitoring dashboard (web_dashboard/Dashboard/app.js):
    every view is a function of one snapshot of transaction records. */
module DashboardViews {
  import opened Wrappers
  import opened Seqs
  import opened Text

  /** One record of `GET /api/transactions`. `location` and `category` may be missing. */
  datatype Transaction = Transaction(
    id: int,
    timestamp: string,
    amount: real,
    score: real,
    level: string,
    reason: string,
    location: Option<string>,
    category: Option<string>,
    reviewed: bool)

  /** JavaScript `s || fallback` on an optional string: a missing and an empty string
      both give the fallback. */
  function OrElse(o: Option<string>, fallback: string): (r: string)
    ensures fallback != "" ==> r != ""
    ensures o.Some? && o.value != "" ==> r == o.value
    ensures o.None? || o == Some("") ==> r == fallback
  {
    match o
    case Some(s) => if s != "" then s else fallback
    case None => fallback
  }

  // ---------------- rows ----------------

  /** The cells of one table row built by `createTxRow`. Money formatting is not modelled:
      the amount cell keeps the number. `location` is interpolated as it is, with no
      fallback. */
  datatype TxRow = TxRow(
    idCell: string,
    timestamp: string,
    amount: real,
    roundedScore: int,
    badgeClass: string,
    level: string,
    reason: string,
    location: Option<string>,
    category: string,
    reviewed: bool)

  /** `Math.round`: the nearest integer, halves rounded up. */
  function RoundHalfUp(x: real): (r: int)
    ensures r as real - 0.5 <= x < r as real + 0.5
  {
    (x + 0.5).Floor
  }

  const CategoryCellFallback := "N/A"

  function CreateTxRow(t: Transaction): (r: TxRow)
    ensures r.category != ""
    ensures t.category.Some? && t.category.value != "" ==> r.category == t.category.value
    ensures t.category.None? || t.category == Some("") ==> r.category == CategoryCellFallback
    ensures r.badgeClass == "badge-" + Lower(t.level)
    ensures r.idCell == "#" + IdText(t.id)
  {
    TxRow("#" + IdText(t.id), t.timestamp, t.amount, RoundHalfUp(t.score),
          "badge-" + Lower(t.level), t.level, t.reason, t.location,
          OrElse(t.category, CategoryCellFallback), t.reviewed)
  }

  function TxRows(ts: seq<Transaction>): seq<TxRow>
  {
    Map(ts, CreateTxRow)
  }

  // ---------------- dashboard table ----------------

  const DashboardRowLimit := 10

  /** `transactions.slice(0, 10)`. */
  function TopTen(ts: seq<Transaction>): (r: seq<Transaction>)
    ensures |r| <= DashboardRowLimit
    ensures |ts| <= DashboardRowLimit ==> r == ts
  {
    ts[..Min(DashboardRowLimit, |ts|)]
  }

  /** The dashboard shows the first min(10, n) records in snapshot order. */
  lemma TopTenIsPrefix(ts: seq<Transaction>)
    ensures |TopTen(ts)| == Min(10, |ts|)
    ensures forall i :: 0 <= i < |TopTen(ts)| ==> TopTen(ts)[i] == ts[i]
    ensures |ts| <= 10 ==> TopTen(ts) == ts
  {
  }

  /** Records after the tenth do not affect the dashboard table. */
  lemma TopTenIgnoresTail(a: seq<Transaction>, b: seq<Transaction>)
    requires |a| >= 10
    ensures TopTen(a + b) == TopTen(a)
  {
    assert (a + b)[..10] == a[..10];
  }

  // ---------------- searchable list ----------------

  const BrowseRowLimit := 500

  /** `document.getElementById('tx-search')?.value.toLowerCase() || ''`. */
  function SearchTerm(box: Option<string>): (term: string)
    ensures Lower(term) == term
    ensures box.None? ==> term == ""
    ensures box.Some? ==>
              && |term| == |box.value|
              && forall i :: 0 <= i < |term| ==> term[i] == LowerChar(box.value[i])
  {
    match box
    case Some(v) => LowerIdempotent(v); Lower(v)
    case None => ""
  }

  /** The search predicate: the stringified id contains the term, or the location is
      present and non-empty and contains it once lower-cased. */
  predicate Matches(t: Transaction, term: string)
  {
    Contains(IdText(t.id), term) ||
    (t.location.Some? && t.location.value != "" && Contains(Lower(t.location.value), term))
  }

  /** The records placed in the full transaction table: every match when a term is
      given, otherwise the first 500 records. */
  function DisplaySet(ts: seq<Transaction>, term: string): (r: seq<Transaction>)
    ensures |r| <= |ts|
    ensures term == "" ==> |r| <= BrowseRowLimit && r == ts[..|r|]
  {
    if term != "" then Filter(ts, t => Matches(t, term)) else ts[..Min(BrowseRowLimit, |ts|)]
  }

  /** With a term, a record is listed iff it matches. */
  lemma SearchIsExact(ts: seq<Transaction>, term: string, t: Transaction)
    requires term != ""
    ensures t in DisplaySet(ts, term) <==> t in ts && Matches(t, term)
  {
    var r := DisplaySet(ts, term);
    FilterMembers(ts, t => Matches(t, term));
    if t in r {
      var i :| 0 <= i < |r| && r[i] == t;
    }
    if t in ts && Matches(t, term) {
      var i :| 0 <= i < |ts| && ts[i] == t;
    }
  }

  /** With a term, matches keep their snapshot order: the list of a concatenation is
      the concatenation of the lists. */
  lemma SearchKeepsOrder(a: seq<Transaction>, b: seq<Transaction>, term: string)
    requires term != ""
    ensures DisplaySet(a + b, term) == DisplaySet(a, term) + DisplaySet(b, term)
  {
    FilterConcat(a, b, t => Matches(t, term));
  }

  /** The search result is not capped: if every record matches, all of them are listed,
      however many there are. */
  lemma SearchIsUncapped(ts: seq<Transaction>, term: string)
    requires term != ""
    requires forall i :: 0 <= i < |ts| ==> Matches(ts[i], term)
    ensures DisplaySet(ts, term) == ts
  {
    FilterKeepsAll(ts, t => Matches(t, term));
  }

  /** Without a term, the table holds exactly the first min(500, n) records and
      nothing else (no summary row is added). */
  lemma BrowseIsCapped(ts: seq<Transaction>)
    ensures |DisplaySet(ts, "")| == Min(500, |ts|)
    ensures forall i :: 0 <= i < |DisplaySet(ts, "")| ==> DisplaySet(ts, "")[i] == ts[i]
  {
  }

  // ---------------- alerts ----------------

  const AlertThreshold := 70.0

  /** The fields an alert card shows. */
  datatype AlertCard = AlertCard(id: int, reason: string, timestamp: string, location: Option<string>)

  /** What the alerts container holds: the empty-state message alone, or one card per alert. */
  datatype AlertsContent = EmptyState | Cards(cards: seq<AlertCard>)

  predicate IsAlert(t: Transaction) { t.score > AlertThreshold }

  function Criticals(ts: seq<Transaction>): (r: seq<Transaction>)
    ensures |r| <= |ts|
    ensures forall i :: 0 <= i < |r| ==> IsAlert(r[i])
  {
    Filter(ts, IsAlert)
  }

  function AlertCardOf(t: Transaction): AlertCard
  {
    AlertCard(t.id, t.reason, t.timestamp, t.location)
  }

  function AlertsView(ts: seq<Transaction>): (c: AlertsContent)
    ensures c.EmptyState? <==> forall i :: 0 <= i < |ts| ==> ts[i].score <= AlertThreshold
    ensures c.Cards? ==> |c.cards| >= 1
    ensures c.Cards? ==>
              && |c.cards| == |Criticals(ts)|
              && forall i :: 0 <= i < |c.cards| ==> c.cards[i] == AlertCardOf(Criticals(ts)[i])
  {
    var crit := Criticals(ts);
    FilterMembers(ts, IsAlert);
    if crit == [] then
      assert forall i :: 0 <= i < |ts| && IsAlert(ts[i]) ==> ts[i] in crit;
      EmptyState
    else
      assert crit[0] in ts && IsAlert(crit[0]);
      Cards(Map(crit, AlertCardOf))
  }

  /** The alerts are exactly the records scoring above 70, in snapshot order. */
  lemma AlertsAreExact(ts: seq<Transaction>, t: Transaction)
    ensures t in Criticals(ts) <==> t in ts && t.score > AlertThreshold
  {
    var r := Criticals(ts);
    FilterMembers(ts, IsAlert);
    if t in r {
      var i :| 0 <= i < |r| && r[i] == t;
    }
    if t in ts && IsAlert(t) {
      var i :| 0 <= i < |ts| && ts[i] == t;
    }
  }

  lemma AlertsKeepOrder(a: seq<Transaction>, b: seq<Transaction>)
    ensures Criticals(a + b) == Criticals(a) + Criticals(b)
  {
    FilterConcat(a, b, IsAlert);
  }

  // ---------------- charts ----------------

  /** The data handed to one chart instance. */
  datatype Chart =
    | Line(labels: seq<string>, points: seq<real>)
    | Bar(labels: seq<string>, counts: seq<nat>)
    | Doughnut(labels: seq<string>, counts: seq<nat>)

  const TrendPointLimit := 50

  /** `[...data].reverse().slice(-50)`. */
  function TrendWindow(data: seq<Transaction>): seq<Transaction>
  {
    Reverse(data)[Max(0, |data| - TrendPointLimit)..]
  }

  /** The trend window is the first min(50, n) records, oldest first. */
  lemma TrendWindowIsReversedHead(data: seq<Transaction>)
    ensures TrendWindow(data) == Reverse(data[..Min(50, |data|)])
  {
    ReverseSuffix(data, Min(50, |data|));
  }

  function Timestamp(t: Transaction): string { t.timestamp }

  function Score(t: Transaction): real { t.score }

  /** The line chart: labels are the raw timestamps (no date parsing), values the scores. */
  function TrendChart(data: seq<Transaction>): (c: Chart)
    ensures c.Line? && |c.labels| == |c.points| <= TrendPointLimit
  {
    var w := TrendWindow(data);
    Line(Map(w, Timestamp), Map(w, Score))
  }

  /** Point k of the trend is record m-1-k of the snapshot, where m = min(50, n). */
  lemma TrendChartPoints(data: seq<Transaction>, k: nat)
    requires k < Min(50, |data|)
    ensures |TrendChart(data).labels| == |TrendChart(data).points| == Min(50, |data|)
    ensures TrendChart(data).labels[k] == data[Min(50, |data|) - 1 - k].timestamp
    ensures TrendChart(data).points[k] == data[Min(50, |data|) - 1 - k].score
  {
    var m := Min(50, |data|);
    TrendWindowIsReversedHead(data);
    ReverseAt(data[..m], k);
  }

  function LocationLabel(t: Transaction): string { OrElse(t.location, "Unknown") }

  function CategoryLabel(t: Transaction): string { OrElse(t.category, "Other") }

  /** `{label: count}` for a sequence of labels, as built by the `forEach` fold. */
  function CountMap(labels: seq<string>): map<string, nat>
  {
    map k | k in labels :: Count(labels, k)
  }

  /** `Object.values` of a count dictionary, in the order of `keys`. */
  function ValuesInOrder(keys: seq<string>, counts: map<string, nat>): (r: seq<nat>)
    requires forall i :: 0 <= i < |keys| ==> keys[i] in counts
    ensures |r| == |keys|
  {
    if keys == [] then [] else [counts[keys[0]]] + ValuesInOrder(keys[1..], counts)
  }

  lemma {:induction false} ValuesOfCountMap(keys: seq<string>, labels: seq<string>)
    requires forall i :: 0 <= i < |keys| ==> keys[i] in labels
    ensures ValuesInOrder(keys, CountMap(labels)) == CountsOf(keys, labels)
  {
    if keys != [] {
      ValuesOfCountMap(keys[1..], labels);
    }
  }

  /** A bucket chart's labels and counts for a sequence of labels. */
  function BucketLabels(labels: seq<string>): seq<string> { FirstSeen(labels) }

  function BucketCounts(labels: seq<string>): seq<nat> { CountsOf(FirstSeen(labels), labels) }

  function LocationChart(data: seq<Transaction>): Chart
  {
    var labels := Map(data, LocationLabel);
    Bar(BucketLabels(labels), BucketCounts(labels))
  }

  function VendorChart(data: seq<Transaction>): Chart
  {
    var labels := Map(data, CategoryLabel);
    Doughnut(BucketLabels(labels), BucketCounts(labels))
  }

  /** A bucket table has distinct labels, every count is at least one and the counts
      add up to the number of labelled records. */
  lemma BucketsPartition(labels: seq<string>)
    ensures Distinct(BucketLabels(labels))
    ensures |BucketCounts(labels)| == |BucketLabels(labels)|
    ensures forall i :: 0 <= i < |BucketCounts(labels)| ==> BucketCounts(labels)[i] >= 1
    ensures Sum(BucketCounts(labels)) == |labels|
  {
    var keys := FirstSeen(labels);
    FirstSeenMembers(labels);
    forall i | 0 <= i < |keys| ensures BucketCounts(labels)[i] >= 1 {
      CountsOfPositive(keys, labels, i);
    }
    FirstSeenTotal(labels);
  }

  /** The location buckets count every record once; a missing or empty location is
      counted under "Unknown". */
  lemma LocationBucketsCoverSnapshot(data: seq<Transaction>)
    ensures Sum(LocationChart(data).counts) == |data|
    ensures forall i :: 0 <= i < |LocationChart(data).counts| ==> LocationChart(data).counts[i] >= 1
    ensures Distinct(LocationChart(data).labels)
    ensures forall i :: 0 <= i < |data| && (data[i].location.None? || data[i].location == Some("")) ==>
              "Unknown" in LocationChart(data).labels
  {
    var labels := Map(data, LocationLabel);
    BucketsPartition(labels);
    FirstSeenMembers(labels);
    forall i | 0 <= i < |data| && (data[i].location.None? || data[i].location == Some(""))
      ensures "Unknown" in LocationChart(data).labels
    {
      assert labels[i] == "Unknown";
    }
  }

  /** The category buckets count every record once; a missing or empty category is
      counted under "Other". */
  lemma CategoryBucketsCoverSnapshot(data: seq<Transaction>)
    ensures Sum(VendorChart(data).counts) == |data|
    ensures forall i :: 0 <= i < |VendorChart(data).counts| ==> VendorChart(data).counts[i] >= 1
    ensures Distinct(VendorChart(data).labels)
    ensures forall i :: 0 <= i < |data| && (data[i].category.None? || data[i].category == Some("")) ==>
              "Other" in VendorChart(data).labels
  {
    var labels := Map(data, CategoryLabel);
    BucketsPartition(labels);
    FirstSeenMembers(labels);
    forall i | 0 <= i < |data| && (data[i].category.None? || data[i].category == Some(""))
      ensures "Other" in VendorChart(data).labels
    {
      assert labels[i] == "Other";
    }
  }

  // ---------------- stats counters ----------------

  /** The four counters shown in the stats cards. */
  datatype Counters = Counters(critical: int, high: int, medium: int, low: int)

  /** `data.KEY || 0`: a missing key (or a zero) shows 0. */
  function CounterValue(data: map<string, int>, key: string): int
  {
    if key in data && data[key] != 0 then data[key] else 0
  }

  function StatCounters(data: map<string, int>): (c: Counters)
    ensures "CRITICAL" !in data ==> c.critical == 0
    ensures "HIGH" !in data ==> c.high == 0
    ensures "MEDIUM" !in data ==> c.medium == 0
    ensures "LOW" !in data ==> c.low == 0
    ensures "CRITICAL" in data ==> c.critical == data["CRITICAL"]
    ensures "HIGH" in data ==> c.high == data["HIGH"]
    ensures "MEDIUM" in data ==> c.medium == data["MEDIUM"]
    ensures "LOW" in data ==> c.low == data["LOW"]
  {
    Counters(CounterValue(data, "CRITICAL"), CounterValue(data, "HIGH"),
             CounterValue(data, "MEDIUM"), CounterValue(data, "LOW"))
  }

  /** A summary that names only two levels shows zero for the other two. */
  lemma PartialSummaryDefaultsToZero()
    ensures StatCounters(map["CRITICAL" := 2, "HIGH" := 5]) == Counters(2, 5, 0, 0)
  {
  }

  // ---------------- refresh gate ----------------

  /** `document.getElementById('setting-refresh')?.checked ?? true`. */
  function RefreshEnabled(checkbox: Option<bool>): (enabled: bool)
    ensures !enabled <==> checkbox == Some(false)
  {
    match checkbox
    case Some(b) => b
    case None => true
  }
}
