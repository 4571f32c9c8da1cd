/** The data-layer rules of the Java backend (java_app/src/DatabaseManager.java): the
    choice of the database URL, the severity-count summary and the derivation of one
    mock transaction from its random draws. JDBC is replaced by the values it returns. */
module DatabaseManager {
  import opened Wrappers

  // ---------------- database URL ----------------

  const UrlPrefix := "jdbc:sqlite:"
  const DefaultDbPath := "../database/fraud_platform.db"
  const DefaultDbUrl := UrlPrefix + DefaultDbPath

  /** `getDbUrl` for the value of `DB_PATH` (`None` when the variable is unset). */
  function GetDbUrl(envPath: Option<string>): (url: string)
    ensures |url| > |UrlPrefix| && url[..|UrlPrefix|] == UrlPrefix
  {
    if envPath.Some? && envPath.value != "" then UrlPrefix + envPath.value else DefaultDbUrl
  }

  /** The URL is always the SQLite prefix followed by a path, and the path is the
      environment value exactly when that value is set and non-empty. */
  lemma DbUrlParts(envPath: Option<string>)
    ensures |GetDbUrl(envPath)| > |UrlPrefix|
    ensures GetDbUrl(envPath)[..|UrlPrefix|] == UrlPrefix
    ensures GetDbUrl(envPath)[|UrlPrefix|..] ==
              if envPath.Some? && envPath.value != "" then envPath.value else DefaultDbPath
  {
  }

  /** Distinct non-empty paths give distinct URLs. */
  lemma DbUrlInjective(a: string, b: string)
    requires a != "" && b != "" && GetDbUrl(Some(a)) == GetDbUrl(Some(b))
    ensures a == b
  {
    DbUrlParts(Some(a));
    DbUrlParts(Some(b));
  }

  /** A set path gives the default URL only when it is the default path itself. */
  lemma DefaultUrlOnlyFromDefaultPath(a: string)
    requires a != "" && GetDbUrl(Some(a)) == DefaultDbUrl
    ensures a == DefaultDbPath
  {
    DbUrlParts(Some(a));
    DbUrlParts(None);
  }

  // ---------------- severity counts ----------------

  /** One row of `SELECT risk_level, COUNT(*) ... GROUP BY risk_level`. */
  datatype StatRow = StatRow(level: string, count: int)

  /** The four keys put before the query runs, each with a zero count. */
  function DefaultStats(): map<string, int>
  {
    map["CRITICAL" := 0, "HIGH" := 0, "MEDIUM" := 0, "LOW" := 0]
  }

  predicate HasStandardKeys(stats: map<string, int>)
  {
    "CRITICAL" in stats && "HIGH" in stats && "MEDIUM" in stats && "LOW" in stats
  }

  /** `stats.put(level, count)` for each row in turn. */
  function FoldStats(stats: map<string, int>, rows: seq<StatRow>): (r: map<string, int>)
    ensures stats.Keys <= r.Keys
  {
    if rows == [] then stats
    else
      var last := rows[|rows| - 1];
      FoldStats(stats, rows[..|rows| - 1])[last.level := last.count]
  }

  /** The summary for a query result (`None` when no connection could be opened). */
  function RiskStats(rows: Option<seq<StatRow>>): map<string, int>
  {
    match rows
    case None => DefaultStats()
    case Some(rs) => FoldStats(DefaultStats(), rs)
  }

  /** `getRiskStats`: the four defaults, then one overwrite per grouped row. */
  method GetRiskStats(rows: Option<seq<StatRow>>) returns (stats: map<string, int>)
    ensures stats == RiskStats(rows)
  {
    stats := map[];
    stats := stats["CRITICAL" := 0];
    stats := stats["HIGH" := 0];
    stats := stats["MEDIUM" := 0];
    stats := stats["LOW" := 0];
    if rows.None? {
      return;
    }
    var rs := rows.value;
    var i := 0;
    while i < |rs|
      invariant 0 <= i <= |rs|
      invariant stats == FoldStats(DefaultStats(), rs[..i])
    {
      assert rs[..i + 1][..i] == rs[..i];
      stats := stats[rs[i].level := rs[i].count];
      i := i + 1;
    }
    assert rs[..i] == rs;
  }

  /** Without a connection the summary is exactly the four zero counts. */
  lemma NoConnectionGivesDefaults()
    ensures RiskStats(None).Keys == {"CRITICAL", "HIGH", "MEDIUM", "LOW"}
    ensures forall k :: k in RiskStats(None) ==> RiskStats(None)[k] == 0
  {
  }

  /** The keys after the fold are the keys before plus the levels of the rows. */
  lemma {:induction false} FoldStatsKeys(stats: map<string, int>, rows: seq<StatRow>, k: string)
    ensures k in FoldStats(stats, rows) <==> k in stats || exists i :: 0 <= i < |rows| && rows[i].level == k
  {
    if rows != [] {
      var p := rows[..|rows| - 1];
      FoldStatsKeys(stats, p, k);
      if exists i :: 0 <= i < |rows| && rows[i].level == k {
        var i :| 0 <= i < |rows| && rows[i].level == k;
        if i < |p| {
          assert p[i].level == k;
        }
      }
      if exists i :: 0 <= i < |p| && p[i].level == k {
        var i :| 0 <= i < |p| && p[i].level == k;
        assert rows[i].level == k;
      }
    }
  }

  /** The summary always has the four standard keys, and any other key is a level
      that some row reported. */
  lemma StatsKeys(rows: Option<seq<StatRow>>, k: string)
    ensures HasStandardKeys(RiskStats(rows))
    ensures k in RiskStats(rows) <==>
              k in {"CRITICAL", "HIGH", "MEDIUM", "LOW"} ||
              (rows.Some? && exists i :: 0 <= i < |rows.value| && rows.value[i].level == k)
  {
    if rows.Some? {
      FoldStatsKeys(DefaultStats(), rows.value, "CRITICAL");
      FoldStatsKeys(DefaultStats(), rows.value, "HIGH");
      FoldStatsKeys(DefaultStats(), rows.value, "MEDIUM");
      FoldStatsKeys(DefaultStats(), rows.value, "LOW");
      FoldStatsKeys(DefaultStats(), rows.value, k);
    }
  }

  /** The count of a level is the count of the last row reporting it. */
  lemma {:induction false} LastRowWins(stats: map<string, int>, rows: seq<StatRow>, i: nat)
    requires i < |rows|
    requires forall j :: i < j < |rows| ==> rows[j].level != rows[i].level
    ensures rows[i].level in FoldStats(stats, rows)
    ensures FoldStats(stats, rows)[rows[i].level] == rows[i].count
  {
    if i < |rows| - 1 {
      assert rows[..|rows| - 1][i] == rows[i];
      LastRowWins(stats, rows[..|rows| - 1], i);
    }
  }

  /** A level no row reports keeps the count it had before the fold. */
  lemma {:induction false} UnreportedKeepsDefault(stats: map<string, int>, rows: seq<StatRow>, k: string)
    requires k in stats
    requires forall j :: 0 <= j < |rows| ==> rows[j].level != k
    ensures k in FoldStats(stats, rows) && FoldStats(stats, rows)[k] == stats[k]
  {
    if rows != [] {
      UnreportedKeepsDefault(stats, rows[..|rows| - 1], k);
    }
  }

  // ---------------- mock data ----------------

  /** The locations a mock transaction draws from. */
  const Locations: seq<string> := ["New York", "London", "Singapore", "Tokyo", "Berlin", "Unknown_Location"]

  /** The `Math.random()` values one iteration of `addMockData` consumes, in call order,
      with the rendered timestamp (the clock is not modelled) and the row id that
      `last_insert_rowid()` returned (0 when it returned nothing). The seventh draw is
      only taken when the row id is positive. */
  datatype Draw = Draw(
    customer: real,
    vendor: real,
    amount: real,
    risky: real,
    location: real,
    score: real,
    timestamp: string,
    rowId: int)

  predicate Unit(x: real) { 0.0 <= x < 1.0 }

  /** Every draw of `Math.random()` lies in [0, 1). */
  predicate ValidDraw(d: Draw)
  {
    Unit(d.customer) && Unit(d.vendor) && Unit(d.amount) && Unit(d.risky)
    && Unit(d.location) && Unit(d.score)
  }

  /** The `transactions` row an iteration inserts. */
  datatype MockTx = MockTx(customerId: int, vendorId: int, amount: real, timestamp: string, location: string)

  /** The `risk_results` row an iteration inserts. */
  datatype MockRisk = MockRisk(
    transactionId: int,
    riskScore: real,
    riskLevel: string,
    reason: string,
    fraudProbability: real,
    timestamp: string)

  /** Java's `(int)` cast of a non-negative double. */
  function Truncate(x: real): (n: int)
    requires x >= 0.0
    ensures n >= 0 && n as real <= x < n as real + 1.0
  {
    x.Floor
  }

  function IsRisky(d: Draw): bool { d.risky > 0.8 }

  function MockAmount(d: Draw): real
  {
    var amount := 10.0 + d.amount * 5000.0;
    if IsRisky(d) then amount * 3.0 else amount
  }

  function MockScore(d: Draw): real
  {
    if IsRisky(d) then 60.0 + d.score * 40.0 else d.score * 30.0
  }

  /** The nested ternary of the level: MEDIUM is not one of its outcomes. */
  function MockLevel(score: real): string
  {
    if score > 80.0 then "CRITICAL" else if score > 50.0 then "HIGH" else "LOW"
  }

  function MockReason(d: Draw): string
  {
    if IsRisky(d) then "High Value / Suspicious Loc" else "Normal Activity"
  }

  function MockTxOf(d: Draw): MockTx
    requires ValidDraw(d)
  {
    MockTx(1 + Truncate(d.customer * 3.0), 1 + Truncate(d.vendor * 6.0), MockAmount(d),
           d.timestamp, Locations[Truncate(d.location * 6.0)])
  }

  function MockRiskOf(d: Draw): Option<MockRisk>
  {
    if d.rowId > 0 then
      var score := MockScore(d);
      Some(MockRisk(d.rowId, score, MockLevel(score), MockReason(d), 0.0, d.timestamp))
    else None
  }

  function MockTxs(draws: seq<Draw>): seq<MockTx>
    requires forall i :: 0 <= i < |draws| ==> ValidDraw(draws[i])
  {
    if draws == [] then [] else MockTxs(draws[..|draws| - 1]) + [MockTxOf(draws[|draws| - 1])]
  }

  function MockRisks(draws: seq<Draw>): seq<MockRisk>
  {
    if draws == [] then []
    else
      var rest := MockRisks(draws[..|draws| - 1]);
      match MockRiskOf(draws[|draws| - 1])
      case Some(r) => rest + [r]
      case None => rest
  }

  /** `addMockData(draws.length)`: nothing without a connection; otherwise one
      transaction per iteration and, when the insert reported a row id, one risk result. */
  method AddMockData(connected: bool, draws: seq<Draw>) returns (txs: seq<MockTx>, risks: seq<MockRisk>)
    requires forall i :: 0 <= i < |draws| ==> ValidDraw(draws[i])
    ensures !connected ==> txs == [] && risks == []
    ensures connected ==> txs == MockTxs(draws) && risks == MockRisks(draws)
  {
    txs, risks := [], [];
    if !connected {
      return;
    }
    for i := 0 to |draws|
      invariant txs == MockTxs(draws[..i])
      invariant risks == MockRisks(draws[..i])
    {
      var tx, risk := MockIteration(draws[i]);
      txs := txs + [tx];
      if risk.Some? {
        risks := risks + [risk.value];
      }
      assert draws[..i + 1][..i] == draws[..i];
    }
    assert draws[..|draws|] == draws;
  }

  /** The body of the `addMockData` loop for one set of draws: the transaction row, and
      the risk row when the insert reported a positive row id. */
  method MockIteration(d: Draw) returns (tx: MockTx, risk: Option<MockRisk>)
    requires ValidDraw(d)
    ensures tx == MockTxOf(d) && risk == MockRiskOf(d)
  {
    var custId := 1 + Truncate(d.customer * 3.0);
    var vendId := 1 + Truncate(d.vendor * 6.0);
    var amount := 10.0 + d.amount * 5000.0;
    var isRisky := d.risky > 0.8;
    if isRisky {
      amount := amount * 3.0;
    }
    var loc := Locations[Truncate(d.location * 6.0)];
    tx := MockTx(custId, vendId, amount, d.timestamp, loc);
    var txId := d.rowId;
    risk := None;
    if txId > 0 {
      var score := if isRisky then 60.0 + d.score * 40.0 else d.score * 30.0;
      var level := if score > 80.0 then "CRITICAL" else if score > 50.0 then "HIGH" else "LOW";
      var reason := if isRisky then "High Value / Suspicious Loc" else "Normal Activity";
      risk := Some(MockRisk(txId, score, level, reason, 0.0, d.timestamp));
    }
  }

  /** The level ladder: above 80 CRITICAL, above 50 HIGH, otherwise LOW; never MEDIUM. */
  lemma MockLevelLadder(score: real)
    ensures MockLevel(score) == "CRITICAL" <==> score > 80.0
    ensures MockLevel(score) == "HIGH" <==> 50.0 < score <= 80.0
    ensures MockLevel(score) == "LOW" <==> score <= 50.0
    ensures MockLevel(score) != "MEDIUM"
  {
  }

  /** A quiet draw scores below 30 and is LOW; a risky draw scores at least 60 and is
      never LOW. */
  lemma MockScoreBands(d: Draw)
    requires ValidDraw(d)
    ensures !IsRisky(d) ==> 0.0 <= MockScore(d) < 30.0 && MockLevel(MockScore(d)) == "LOW"
    ensures IsRisky(d) ==> 60.0 <= MockScore(d) < 100.0 && MockLevel(MockScore(d)) != "LOW"
  {
  }

  /** A risky draw triples the base amount and gives the suspicious reason; a quiet one
      keeps the base amount and gives the normal reason. */
  lemma MockAmountAndReason(d: Draw)
    requires ValidDraw(d)
    ensures IsRisky(d) ==> MockAmount(d) == 3.0 * (10.0 + d.amount * 5000.0)
                           && MockReason(d) == "High Value / Suspicious Loc"
    ensures !IsRisky(d) ==> MockAmount(d) == 10.0 + d.amount * 5000.0
                            && MockReason(d) == "Normal Activity"
    ensures 10.0 <= MockAmount(d) < 15030.0
  {
  }

  /** The ids of a mock transaction are those of the seeded customers (1-3) and vendors
      (1-6), and its location is one of the six listed. */
  lemma MockTxRanges(d: Draw)
    requires ValidDraw(d)
    ensures 1 <= MockTxOf(d).customerId <= 3
    ensures 1 <= MockTxOf(d).vendorId <= 6
    ensures MockTxOf(d).location in Locations
  {
  }

  /** One transaction per draw; one risk result per draw with a positive row id, never
      with level MEDIUM, each carrying its transaction's row id. */
  lemma {:induction false} MockBatch(draws: seq<Draw>)
    requires forall i :: 0 <= i < |draws| ==> ValidDraw(draws[i])
    ensures |MockTxs(draws)| == |draws|
    ensures |MockRisks(draws)| <= |draws|
    ensures forall i :: 0 <= i < |MockRisks(draws)| ==>
              MockRisks(draws)[i].riskLevel != "MEDIUM" && MockRisks(draws)[i].transactionId > 0
  {
    if draws != [] {
      MockBatch(draws[..|draws| - 1]);
    }
  }
}
