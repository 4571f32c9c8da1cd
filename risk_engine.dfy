/** The rule-based scorer of the risk engine (python_engine/risk_engine.py) and the step
    that folds the anomalies found by the isolation forest into its result table. The
    per-customer average and the anomaly set are inputs; the frames become sequences. */
module RiskEngine {
  import opened Wrappers
  import opened Seqs
  import opened Text

  /** The severity levels written to `risk_results.risk_level`. */
  datatype Level = CRITICAL | HIGH | MEDIUM | LOW

  /** One row of the transactions frame after the left merge with the customer
      profiles. `amountText` and `avgText` are the renderings of the amount and of the
      average rounded to two places, as the f-string prints them. */
  datatype TxInput = TxInput(
    transactionId: int,
    amount: real,
    avgAmount: real,
    location: string,
    amountText: string,
    avgText: string)

  /** One row of the result table. */
  datatype RiskRow = RiskRow(
    transactionId: int,
    riskScore: int,
    riskLevel: Level,
    reason: string,
    fraudProbability: real)

  // ---------------- the three rules ----------------

  /** Rule 1: more than three times the customer's average, when that average exceeds 10. */
  predicate HighAmount(t: TxInput)
  {
    t.amount > t.avgAmount * 3.0 && t.avgAmount > 10.0
  }

  /** `amount % 100 == 0` on a positive amount: a whole number of hundreds. */
  predicate WholeHundreds(x: real)
  {
    (x / 100.0).Floor as real == x / 100.0
  }

  /** Rule 2: a round amount above 1000. */
  predicate RoundNumber(t: TxInput)
  {
    t.amount > 1000.0 && WholeHundreds(t.amount)
  }

  /** Rule 3: the synthetic unknown location. */
  predicate UnknownLocation(t: TxInput)
  {
    t.location == "Unknown_Location"
  }

  const HighAmountPoints := 50
  const RoundNumberPoints := 20
  const LocationPoints := 30
  const ScoreCap := 100

  function HighAmountReason(t: TxInput): string
  {
    "Amount $" + t.amountText + " > 3x Avg ($" + t.avgText + ")"
  }

  const RoundNumberReason := "Large round number transaction"
  const LocationReason := "Suspicious Location"
  const ReasonSeparator := "; "

  /** The sum of the points of the rules that fire. */
  function RawScore(t: TxInput): int
  {
    (if HighAmount(t) then HighAmountPoints else 0)
    + (if RoundNumber(t) then RoundNumberPoints else 0)
    + (if UnknownLocation(t) then LocationPoints else 0)
  }

  /** The messages of the rules that fire, in rule order. */
  function Reasons(t: TxInput): seq<string>
  {
    (if HighAmount(t) then [HighAmountReason(t)] else [])
    + (if RoundNumber(t) then [RoundNumberReason] else [])
    + (if UnknownLocation(t) then [LocationReason] else [])
  }

  /** `min(risk_score, 100)`. */
  function Score(t: TxInput): int
  {
    Min(RawScore(t), ScoreCap)
  }

  /** The level ladder of the scorer. */
  function LevelOf(score: int): Level
  {
    if score >= 80 then CRITICAL
    else if score >= 50 then HIGH
    else if score >= 20 then MEDIUM
    else LOW
  }

  /** The row emitted for one transaction, if its score is positive. */
  function Evaluate(t: TxInput): Option<RiskRow>
  {
    var score := Score(t);
    if score > 0 then Some(RiskRow(t.transactionId, score, LevelOf(score), Join(Reasons(t), ReasonSeparator), 0.0))
    else None
  }

  /** The result table of the scorer for a sequence of transactions, in input order. */
  function RuleResults(ts: seq<TxInput>): (r: seq<RiskRow>)
    ensures |r| <= |ts|
  {
    if ts == [] then []
    else
      var rest := RuleResults(ts[..|ts| - 1]);
      match Evaluate(ts[|ts| - 1])
      case Some(r) => rest + [r]
      case None => rest
  }

  /** The three rule checks of one row: each fired rule adds its points and appends its
      message. */
  method ApplyRules(row: TxInput) returns (riskScore: int, reasons: seq<string>)
    ensures riskScore == RawScore(row)
    ensures reasons == Reasons(row)
  {
    riskScore, reasons := 0, [];
    if HighAmount(row) {
      riskScore := riskScore + HighAmountPoints;
      reasons := reasons + [HighAmountReason(row)];
    }
    assert reasons == if HighAmount(row) then [HighAmountReason(row)] else [];
    if RoundNumber(row) {
      riskScore := riskScore + RoundNumberPoints;
      reasons := reasons + [RoundNumberReason];
    }
    assert reasons == (if HighAmount(row) then [HighAmountReason(row)] else [])
                      + (if RoundNumber(row) then [RoundNumberReason] else []);
    if UnknownLocation(row) {
      riskScore := riskScore + LocationPoints;
      reasons := reasons + [LocationReason];
    }
  }

  /** `detect_rule_based_anomalies`: one pass over the rows, accumulating the score and
      the reasons of each row and appending a result when its capped score is positive. */
  method DetectRuleBased(rows: seq<TxInput>) returns (results: seq<RiskRow>)
    ensures results == RuleResults(rows)
  {
    results := [];
    var i := 0;
    while i < |rows|
      invariant 0 <= i <= |rows|
      invariant results == RuleResults(rows[..i])
    {
      var row := rows[i];
      var riskScore, reasons := ApplyRules(row);
      riskScore := Min(riskScore, ScoreCap);
      if riskScore > 0 {
        results := results + [RiskRow(row.transactionId, riskScore, LevelOf(riskScore), Join(reasons, ReasonSeparator), 0.0)];
      }
      assert rows[..i + 1] == rows[..i] + [row];
      i := i + 1;
    }
    assert rows[..i] == rows;
  }

  // ---------------- properties of the scorer ----------------

  /** Each rule adds its points exactly when it fires, and the three together never
      exceed the cap, so capping never changes a score. */
  lemma ScoreIsSubsetSum(t: TxInput)
    ensures Score(t) == RawScore(t)
    ensures 0 <= Score(t) <= 100
    ensures Score(t) in {0, 20, 30, 50, 70, 80, 100}
    ensures Score(t) > 0 <==> HighAmount(t) || RoundNumber(t) || UnknownLocation(t)
  {
  }

  /** A row is emitted iff some rule fires; the emitted row carries the transaction's id,
      its score, a level that is never LOW, the fired rules' messages joined with "; "
      and a zero probability. */
  lemma EvaluateIff(t: TxInput)
    ensures Evaluate(t).Some? <==> HighAmount(t) || RoundNumber(t) || UnknownLocation(t)
    ensures Evaluate(t).Some? ==>
              && Evaluate(t).value.transactionId == t.transactionId
              && Evaluate(t).value.riskScore == RawScore(t)
              && Evaluate(t).value.riskLevel != LOW
              && Evaluate(t).value.reason == Join(Reasons(t), "; ")
              && Evaluate(t).value.fraudProbability == 0.0
  {
    ScoreIsSubsetSum(t);
  }

  /** The level of every emitted score, by the ladder. */
  lemma EmittedLevels(t: TxInput)
    requires Evaluate(t).Some?
    ensures var r := Evaluate(t).value;
            && (r.riskLevel == CRITICAL <==> r.riskScore >= 80)
            && (r.riskLevel == HIGH <==> 50 <= r.riskScore < 80)
            && (r.riskLevel == MEDIUM <==> 20 <= r.riskScore < 50)
  {
    ScoreIsSubsetSum(t);
  }

  /** Every rule fired gives its own message, and the messages keep rule order. */
  lemma AllRulesReason(t: TxInput)
    requires HighAmount(t) && RoundNumber(t) && UnknownLocation(t)
    ensures Evaluate(t) == Some(RiskRow(t.transactionId, 100, CRITICAL,
              HighAmountReason(t) + "; " + RoundNumberReason + "; " + LocationReason, 0.0))
  {
    var h := HighAmountReason(t);
    assert Reasons(t) == [h, RoundNumberReason, LocationReason];
    JoinSnoc([h], RoundNumberReason, "; ");
    assert [h] + [RoundNumberReason] == [h, RoundNumberReason];
    JoinSnoc([h, RoundNumberReason], LocationReason, "; ");
    assert [h, RoundNumberReason] + [LocationReason] == [h, RoundNumberReason, LocationReason];
    assert Score(t) == 100;
  }

  /** Scoring distributes over concatenation: results keep input order. */
  lemma {:induction false} RuleResultsConcat(a: seq<TxInput>, b: seq<TxInput>)
    ensures RuleResults(a + b) == RuleResults(a) + RuleResults(b)
  {
    if b == [] {
      assert a + b == a;
    } else {
      var b' := b[..|b| - 1];
      assert (a + b)[..|a + b| - 1] == a + b';
      assert (a + b)[|a + b| - 1] == b[|b| - 1];
      RuleResultsConcat(a, b');
    }
  }

  /** At most one row per input row; every row has a score in [20, 100] and a level
      other than LOW, and its id is the id of some input row. */
  lemma {:induction false} RuleResultsBounds(ts: seq<TxInput>)
    ensures |RuleResults(ts)| <= |ts|
    ensures forall i :: 0 <= i < |RuleResults(ts)| ==>
              && 20 <= RuleResults(ts)[i].riskScore <= 100
              && RuleResults(ts)[i].riskLevel != LOW
              && RuleResults(ts)[i].fraudProbability == 0.0
    ensures forall i :: 0 <= i < |RuleResults(ts)| ==>
              exists j :: 0 <= j < |ts| && ts[j].transactionId == RuleResults(ts)[i].transactionId
  {
    if ts != [] {
      var p, t := ts[..|ts| - 1], ts[|ts| - 1];
      RuleResultsBounds(p);
      ScoreIsSubsetSum(t);
      EvaluateIff(t);
      var r := RuleResults(ts);
      forall i | 0 <= i < |r|
        ensures exists j :: 0 <= j < |ts| && ts[j].transactionId == r[i].transactionId
      {
        if i < |RuleResults(p)| {
          var j :| 0 <= j < |p| && p[j].transactionId == RuleResults(p)[i].transactionId;
          assert ts[j] == p[j];
        } else {
          assert ts[|ts| - 1].transactionId == r[i].transactionId;
        }
      }
    }
  }

  /** A row of the input appears in the results iff one of its rules fires. */
  lemma RuleResultsSingle(t: TxInput)
    ensures RuleResults([t]) == if HighAmount(t) || RoundNumber(t) || UnknownLocation(t)
                                then [Evaluate(t).value] else []
  {
    EvaluateIff(t);
    assert [t][..0] == [];
  }

  // ---------------- merging the forest's anomalies ----------------

  /** One anomalous transaction and its simplified probability `round(abs(score), 2)`. */
  datatype Anomaly = Anomaly(transactionId: int, probability: real)

  const MlBoost := 20
  const MlSuffix := " + ML Anomaly Detected"
  const MlOnlyScore := 40
  const MlOnlyReason := "ML Anomaly Detected (Isolation Forest)"

  /** The first index of a row with the given id, if any: the `[0]` of the index lookup. */
  function IndexOf(rows: seq<RiskRow>, id: int): (k: Option<nat>)
    ensures k.Some? ==> k.value < |rows| && rows[k.value].transactionId == id
    ensures k.Some? ==> forall j :: 0 <= j < k.value ==> rows[j].transactionId != id
    ensures k.None? ==> forall j :: 0 <= j < |rows| ==> rows[j].transactionId != id
  {
    if rows == [] then None
    else if rows[0].transactionId == id then Some(0)
    else match IndexOf(rows[1..], id)
      case Some(k) => Some(k + 1)
      case None => None
  }

  /** The update of an existing row: the boosted, capped score, the extended reason and
      the probability; the level is left as it was. */
  function Boost(r: RiskRow, probability: real): RiskRow
  {
    r.(riskScore := Min(r.riskScore + MlBoost, ScoreCap),
       reason := r.reason + MlSuffix,
       fraudProbability := probability)
  }

  /** The row added for an anomaly the rules did not flag. */
  function MlOnlyRow(a: Anomaly): RiskRow
  {
    RiskRow(a.transactionId, MlOnlyScore, MEDIUM, MlOnlyReason, a.probability)
  }

  /** One iteration of the merge loop. */
  function MergeOne(rows: seq<RiskRow>, a: Anomaly): seq<RiskRow>
  {
    match IndexOf(rows, a.transactionId)
    case Some(k) => rows[k := Boost(rows[k], a.probability)]
    case None => rows + [MlOnlyRow(a)]
  }

  /** The merge loop over the anomalies, in their order. */
  function MergeAll(rows: seq<RiskRow>, anomalies: seq<Anomaly>): (r: seq<RiskRow>)
    ensures |rows| <= |r| <= |rows| + |anomalies|
  {
    if anomalies == [] then rows
    else MergeOne(MergeAll(rows, anomalies[..|anomalies| - 1]), anomalies[|anomalies| - 1])
  }

  /** `final_results['transaction_id'] == t_id` followed by `[0]`: a scan for the first
      row with the id. */
  method FindFirst(rows: seq<RiskRow>, id: int) returns (found: Option<nat>)
    ensures found == IndexOf(rows, id)
  {
    var i := 0;
    while i < |rows|
      invariant 0 <= i <= |rows|
      invariant forall j :: 0 <= j < i ==> rows[j].transactionId != id
    {
      if rows[i].transactionId == id {
        IndexOfIsFirst(rows, id, i);
        return Some(i);
      }
      i := i + 1;
    }
    IndexOfAbsent(rows, id);
    return None;
  }

  lemma {:induction false} IndexOfIsFirst(rows: seq<RiskRow>, id: int, i: nat)
    requires i < |rows| && rows[i].transactionId == id
    requires forall j :: 0 <= j < i ==> rows[j].transactionId != id
    ensures IndexOf(rows, id) == Some(i)
  {
    if i > 0 {
      IndexOfIsFirst(rows[1..], id, i - 1);
    }
  }

  lemma {:induction false} IndexOfAbsent(rows: seq<RiskRow>, id: int)
    requires forall j :: 0 <= j < |rows| ==> rows[j].transactionId != id
    ensures IndexOf(rows, id) == None
  {
    if rows != [] {
      IndexOfAbsent(rows[1..], id);
    }
  }

  /** The merge loop of `train_and_predict_ml`: a copy of the rule results, updated in
      place at the first row of a known id and grown by one row for an unknown one. */
  method MergeAnomalies(riskRows: seq<RiskRow>, anomalies: seq<Anomaly>) returns (finalResults: seq<RiskRow>)
    ensures finalResults == MergeAll(riskRows, anomalies)
  {
    finalResults := riskRows;
    var i := 0;
    while i < |anomalies|
      invariant 0 <= i <= |anomalies|
      invariant finalResults == MergeAll(riskRows, anomalies[..i])
    {
      var a := anomalies[i];
      var found := FindFirst(finalResults, a.transactionId);
      assert anomalies[..i + 1][..i] == anomalies[..i];
      if found.Some? {
        var idx := found.value;
        finalResults := finalResults[idx := Boost(finalResults[idx], a.probability)];
      } else {
        finalResults := finalResults + [MlOnlyRow(a)];
      }
      i := i + 1;
    }
    assert anomalies[..i] == anomalies;
  }

  // ---------------- properties of the merge ----------------

  /** A known id: its first row is boosted (score +20 capped at 100, reason extended,
      probability set, level kept) and every other row is untouched. */
  lemma MergeHit(rows: seq<RiskRow>, a: Anomaly, k: nat)
    requires k < |rows| && rows[k].transactionId == a.transactionId
    requires forall j :: 0 <= j < k ==> rows[j].transactionId != a.transactionId
    ensures |MergeOne(rows, a)| == |rows|
    ensures MergeOne(rows, a)[k].riskScore == Min(rows[k].riskScore + 20, 100)
    ensures MergeOne(rows, a)[k].reason == rows[k].reason + " + ML Anomaly Detected"
    ensures MergeOne(rows, a)[k].fraudProbability == a.probability
    ensures MergeOne(rows, a)[k].riskLevel == rows[k].riskLevel
    ensures MergeOne(rows, a)[k].transactionId == rows[k].transactionId
    ensures forall j :: 0 <= j < |rows| && j != k ==> MergeOne(rows, a)[j] == rows[j]
  {
    IndexOfIsFirst(rows, a.transactionId, k);
  }

  /** An unknown id: exactly one ML-only row is appended at the end. */
  lemma MergeMiss(rows: seq<RiskRow>, a: Anomaly)
    requires forall j :: 0 <= j < |rows| ==> rows[j].transactionId != a.transactionId
    ensures MergeOne(rows, a) ==
              rows + [RiskRow(a.transactionId, 40, MEDIUM, "ML Anomaly Detected (Isolation Forest)", a.probability)]
  {
    IndexOfAbsent(rows, a.transactionId);
  }

  /** Some row carries the id. */
  predicate HasId(rows: seq<RiskRow>, id: int)
  {
    exists i :: 0 <= i < |rows| && rows[i].transactionId == id
  }

  /** The ids after one merge step are the ids before plus the anomaly's. */
  lemma MergeOneIds(rows: seq<RiskRow>, a: Anomaly, id: int)
    ensures HasId(MergeOne(rows, a), id) <==> HasId(rows, id) || id == a.transactionId
    ensures |MergeOne(rows, a)| == if HasId(rows, a.transactionId) then |rows| else |rows| + 1
  {
    var m := MergeOne(rows, a);
    match IndexOf(rows, a.transactionId)
    case Some(k) =>
      assert m[k].transactionId == a.transactionId;
      if HasId(rows, id) {
        var i :| 0 <= i < |rows| && rows[i].transactionId == id;
        assert m[i].transactionId == id;
      }
      if HasId(m, id) {
        var i :| 0 <= i < |m| && m[i].transactionId == id;
        assert rows[i].transactionId == id;
      }
    case None =>
      assert m[|rows|].transactionId == a.transactionId;
      if HasId(rows, id) {
        var i :| 0 <= i < |rows| && rows[i].transactionId == id;
        assert m[i].transactionId == id;
      }
      if HasId(m, id) && id != a.transactionId {
        var i :| 0 <= i < |m| && m[i].transactionId == id;
        assert i < |rows| && rows[i].transactionId == id;
      }
  }

  /** After the whole merge, the ids are exactly those of the rule results and of the
      anomalies. */
  lemma {:induction false} MergeAllIds(rows: seq<RiskRow>, anomalies: seq<Anomaly>, id: int)
    ensures HasId(MergeAll(rows, anomalies), id) <==>
              HasId(rows, id) || exists j :: 0 <= j < |anomalies| && anomalies[j].transactionId == id
  {
    if anomalies != [] {
      var p, a := anomalies[..|anomalies| - 1], anomalies[|anomalies| - 1];
      MergeAllIds(rows, p, id);
      MergeOneIds(MergeAll(rows, p), a, id);
      if exists j :: 0 <= j < |anomalies| && anomalies[j].transactionId == id {
        var j :| 0 <= j < |anomalies| && anomalies[j].transactionId == id;
        if j < |p| {
          assert p[j].transactionId == id;
        }
      }
      if exists j :: 0 <= j < |p| && p[j].transactionId == id {
        var j :| 0 <= j < |p| && p[j].transactionId == id;
        assert anomalies[j].transactionId == id;
      }
    }
  }

  /** Scores stay within [0, 100] through the merge. */
  predicate ScoresBounded(rows: seq<RiskRow>)
  {
    forall i :: 0 <= i < |rows| ==> 0 <= rows[i].riskScore <= 100
  }

  lemma {:induction false} MergeAllKeepsScoresBounded(rows: seq<RiskRow>, anomalies: seq<Anomaly>)
    requires ScoresBounded(rows)
    ensures ScoresBounded(MergeAll(rows, anomalies))
  {
    if anomalies != [] {
      var p := anomalies[..|anomalies| - 1];
      MergeAllKeepsScoresBounded(rows, p);
    }
  }

  /** Merging anomalies never removes or reorders the rule results: every row keeps its
      position and id. */
  lemma {:induction false} MergeAllKeepsPositions(rows: seq<RiskRow>, anomalies: seq<Anomaly>)
    ensures |MergeAll(rows, anomalies)| >= |rows|
    ensures forall i :: 0 <= i < |rows| ==> MergeAll(rows, anomalies)[i].transactionId == rows[i].transactionId
  {
    if anomalies != [] {
      MergeAllKeepsPositions(rows, anomalies[..|anomalies| - 1]);
    }
  }

  // ---------------- the pipeline ----------------

  /** `main` after the frames are loaded: the rule results, merged with the anomalies
      only when there are more than 100 transactions. */
  function RiskResults(rows: seq<TxInput>, anomalies: seq<Anomaly>): seq<RiskRow>
  {
    var ruleRows := RuleResults(rows);
    if |rows| > 100 then MergeAll(ruleRows, anomalies) else ruleRows
  }

  /** With 100 transactions or fewer the anomalies are ignored. */
  lemma SmallRunsSkipTheForest(rows: seq<TxInput>, anomalies: seq<Anomaly>)
    requires |rows| <= 100
    ensures RiskResults(rows, anomalies) == RuleResults(rows)
  {
  }

  /** Every stored score of a pipeline run lies in [0, 100]. */
  lemma RiskResultsBounded(rows: seq<TxInput>, anomalies: seq<Anomaly>)
    ensures ScoresBounded(RiskResults(rows, anomalies))
  {
    RuleResultsBounds(rows);
    MergeAllKeepsScoresBounded(RuleResults(rows), anomalies);
  }

  // ---------------- the empty rule table ----------------

  /** The merge as the code runs it: `pd.DataFrame([])` has no columns, so when no rule
      fired the first `final_results['transaction_id']` raises `KeyError`. */
  function MergeAsWritten(riskRows: seq<RiskRow>, anomalies: seq<Anomaly>): Result<seq<RiskRow>, string>
  {
    if riskRows == [] && anomalies != [] then Failure("KeyError: 'transaction_id'")
    else Success(MergeAll(riskRows, anomalies))
  }

  /** A run in which no rule fired but the forest found one anomaly fails instead of
      storing the ML-only row. */
  lemma EmptyRuleTableFails()
    ensures MergeAsWritten([], [Anomaly(7, 0.5)]).Failure?
    ensures MergeAll([], [Anomaly(7, 0.5)]) ==
              [RiskRow(7, 40, MEDIUM, "ML Anomaly Detected (Isolation Forest)", 0.5)]
  {
    assert [Anomaly(7, 0.5)][..0] == [];
  }

  /** The corrected merge on an empty table adds one ML-only row per distinct anomaly id,
      in order. */
  lemma {:induction false} MergeIntoEmpty(anomalies: seq<Anomaly>)
    requires forall i, j :: 0 <= i < j < |anomalies| ==> anomalies[i].transactionId != anomalies[j].transactionId
    ensures MergeAll([], anomalies) == Map(anomalies, MlOnlyRow)
  {
    if anomalies != [] {
      var p, a := anomalies[..|anomalies| - 1], anomalies[|anomalies| - 1];
      MergeIntoEmpty(p);
      var m := MergeAll([], p);
      forall j | 0 <= j < |m| ensures m[j].transactionId != a.transactionId {
        assert m[j] == MlOnlyRow(p[j]);
      }
      MergeMiss(m, a);
    }
  }
}
