/**
 * The HTTP/WebSocket server's state and handlers: the block registry (two
 * in-place sets, the account set persisted to a file), the transaction
 * listing with its status rule, the compliance log, the analytics
 * summary, the investigation endpoint and one round of the live feed.
 */
module Backend {
  import opened Wrappers
  import opened Text
  import opened Engine
  import opened Seqs

  /** `details.iloc[k]`: positional lookup that also accepts the offsets -n..-1, counted from the end. */
  function ILoc(ds: Dataset, k: int): Option<Row> {
    if 0 <= k < |ds.rows| then Some(ds.rows[k])
    else if -|ds.rows| <= k < 0 then Some(ds.rows[|ds.rows| + k])
    else None
  }

  /** The lookup `block_transaction` performs before it touches either set; `None` where it raises. */
  function BlockRow(ds: Dataset, txId: string): Option<Row> {
    match RawTxIndex(txId)
    case None => None
    case Some(k) => ILoc(ds, k)
  }

  datatype BlockResult = Blocked(account: string, txId: string) | BlockError

  /** The status rule of the transaction listing: a frozen account or id wins over the fraud label. */
  function TransactionStatus(nameOrig: string, txId: string, fraudLabel: int, accounts: set<string>, ids: set<string>): string {
    var isFrozen := nameOrig in accounts || txId in ids;
    var labelled := if fraudLabel == 1 then "Flagged" else "Posted";
    if isFrozen then "BLOCKED" else labelled
  }

  lemma StatusPriority(nameOrig: string, txId: string, fraudLabel: int, accounts: set<string>, ids: set<string>)
    ensures var s := TransactionStatus(nameOrig, txId, fraudLabel, accounts, ids);
      && (s == "BLOCKED" <==> nameOrig in accounts || txId in ids)
      && (s == "Flagged" <==> nameOrig !in accounts && txId !in ids && fraudLabel == 1)
      && (s == "Posted" <==> nameOrig !in accounts && txId !in ids && fraudLabel != 1)
  {
  }

  datatype TxRecord = TxRecord(id: string, amount: real, source: string, destination: string, isFraud: bool, status: string)

  /** The enriched record of row `i` of the listing. */
  function Enrich(row: Row, i: nat, accounts: set<string>, ids: set<string>): TxRecord {
    var id := TxId(i);
    TxRecord(id, row.amount, row.nameOrig, row.nameDest, row.fraudLabel == 1,
             TransactionStatus(row.nameOrig, id, row.fraudLabel, accounts, ids))
  }

  /**
   * `DataFrame.head(limit)`, which pandas takes as the slice `rows[:limit]`:
   * the first `limit` rows (all of them when there are fewer), and for a
   * negative limit every row but the last `-limit`.
   */
  function Head<T>(rows: seq<T>, limit: int): (r: seq<T>)
    ensures |r| <= |rows| && r == rows[..|r|]
    ensures limit >= 0 ==> |r| == Min(limit, |rows|)
    ensures limit < 0 ==> |r| == Max(|rows| + limit, 0)
  {
    rows[..PySliceStop(limit, |rows|)]
  }

  /** A negative limit cuts exactly the last `-limit` rows: they and the head make up the table again. */
  lemma HeadDropsLast<T>(rows: seq<T>, k: nat)
    requires 0 < k <= |rows|
    ensures Head(rows, -(k as int)) + rows[|rows| - k..] == rows
    ensures |Head(rows, -(k as int))| + k == |rows|
  {
  }

  /** A limit of at least the row count keeps the whole table, and a limit of 0 or of at most `-n` keeps nothing. */
  lemma HeadExtremes<T>(rows: seq<T>, limit: int)
    ensures limit >= |rows| ==> Head(rows, limit) == rows
    ensures (limit == 0 || limit <= -|rows|) ==> Head(rows, limit) == []
  {
  }

  /** One audit entry; the details string is kept as its two fields. */
  datatype ComplianceEntry = ComplianceEntry(
    id: string,
    timestamp: string,
    action: string,
    reason: string,
    user: string,
    amount: real,
    destination: string)

  function EntryOf(id: string, row: Row): ComplianceEntry {
    ComplianceEntry(id, "2024-02-04 14:32:01", "BLOCK_TRANSACTION", "VQE_CRITICAL_RISK", "ADMIN_01", row.amount, row.nameDest)
  }

  /** `e` is the audit entry of an id whose parsed index lies in [0, n). */
  predicate EntryForRow(ds: Dataset, e: ComplianceEntry) {
    match ParseTxIndex(e.id, |ds.rows|)
    case None => false
    case Some(idx) => e == EntryOf(e.id, ds.rows[idx])
  }

  predicate Logged(log: seq<ComplianceEntry>, id: string) {
    exists i :: 0 <= i < |log| && log[i].id == id
  }

  lemma LoggedAppend(log: seq<ComplianceEntry>, e: ComplianceEntry)
    ensures forall id :: Logged(log + [e], id) <==> Logged(log, id) || id == e.id
  {
    forall id ensures Logged(log + [e], id) <==> Logged(log, id) || id == e.id {
      if Logged(log + [e], id) {
        var i :| 0 <= i < |log + [e]| && (log + [e])[i].id == id;
        if i < |log| { assert log[i].id == id; }
      }
      if id == e.id { assert (log + [e])[|log|].id == id; }
      if Logged(log, id) {
        var i :| 0 <= i < |log| && log[i].id == id;
        assert (log + [e])[i].id == id;
      }
    }
  }

  predicate DistinctIds(log: seq<ComplianceEntry>) {
    forall i, j :: 0 <= i < j < |log| ==> log[i].id != log[j].id
  }

  /**
   * The state of the compliance loop once the ids of `ids - rest` have been
   * visited: entries only for visited ids, one for each visited id in
   * range, none for an id still to visit, and no id twice.
   */
  ghost predicate LogState(ds: Dataset, ids: set<string>, rest: set<string>, log: seq<ComplianceEntry>) {
    && rest <= ids
    && (forall i :: 0 <= i < |log| ==> log[i].id in ids - rest && EntryForRow(ds, log[i]))
    && (forall id :: id in ids - rest ==> (Logged(log, id) <==> ParseTxIndex(id, |ds.rows|).Some?))
    && (forall id :: id in rest ==> !Logged(log, id))
    && DistinctIds(log)
  }

  /** Visiting one more id keeps the loop state: an in-range id gets its entry, any other id none. */
  lemma LogStateStep(ds: Dataset, ids: set<string>, rest: set<string>, log: seq<ComplianceEntry>, txId: string)
    requires LogState(ds, ids, rest, log) && txId in rest
    ensures ParseTxIndex(txId, |ds.rows|).None? ==> LogState(ds, ids, rest - {txId}, log)
    ensures ParseTxIndex(txId, |ds.rows|).Some? ==>
      LogState(ds, ids, rest - {txId}, log + [EntryOf(txId, ds.rows[ParseTxIndex(txId, |ds.rows|).value])])
  {
    if ParseTxIndex(txId, |ds.rows|).Some? {
      var e := EntryOf(txId, ds.rows[ParseTxIndex(txId, |ds.rows|).value]);
      LoggedAppend(log, e);
      var next := log + [e];
      assert EntryForRow(ds, next[|log|]);
      forall i, j | 0 <= i < j < |next| ensures next[i].id != next[j].id {
        if j == |log| {
          assert Logged(log, next[i].id);
        }
      }
    }
  }

  /** `blocked_count / max(fraud_count, 1)` when `fraud_count > 0`, else 1.0. */
  function PreventionRate(blockedCount: nat, fraudCount: int): (rate: real)
    ensures fraudCount > 0 ==> rate * (fraudCount as real) == blockedCount as real
    ensures fraudCount <= 0 ==> rate == 1.0
    ensures rate >= 0.0
  {
    if fraudCount > 0 then (blockedCount as real) / (Max(fraudCount, 1) as real) else 1.0
  }

  /** The rate exceeds 1 exactly when more accounts are blocked than there are fraud labels. */
  lemma PreventionRateAboveOne(blockedCount: nat, fraudCount: int)
    requires fraudCount > 0
    ensures PreventionRate(blockedCount, fraudCount) > 1.0 <==> blockedCount > fraudCount
  {
    var rate := PreventionRate(blockedCount, fraudCount);
    var f := fraudCount as real;
    assert rate * f == blockedCount as real;
    if rate > 1.0 {
      assert rate * f > 1.0 * f;
    } else {
      assert rate * f <= 1.0 * f;
    }
  }

  /** `int(sum(janus.labels))`. */
  function LabelSum(rows: seq<Row>): int {
    if rows == [] then 0 else rows[0].fraudLabel + LabelSum(rows[1..])
  }

  /** The sum of `amount` over all rows, or over the rows labelled 1. */
  function Volume(rows: seq<Row>, fraudOnly: bool): real {
    if rows == [] then 0.0
    else (if !fraudOnly || rows[0].fraudLabel == 1 then rows[0].amount else 0.0) + Volume(rows[1..], fraudOnly)
  }

  /** The total volume is the fraud volume plus the volume of the rows labelled otherwise. */
  lemma {:induction false} VolumeSplitsByLabel(rows: seq<Row>)
    ensures Volume(rows, false) == Volume(rows, true) + Volume(Filter(rows, (r: Row) => r.fraudLabel != 1), false)
  {
    if rows != [] {
      VolumeSplitsByLabel(rows[1..]);
      var rest := Filter(rows[1..], (r: Row) => r.fraudLabel != 1);
      if rows[0].fraudLabel != 1 {
        assert Filter(rows, (r: Row) => r.fraudLabel != 1) == [rows[0]] + rest;
        assert ([rows[0]] + rest)[1..] == rest;
      } else {
        assert Filter(rows, (r: Row) => r.fraudLabel != 1) == rest;
      }
    }
  }

  /** With no negative amount the fraud volume never exceeds the total volume. */
  lemma FraudVolumeBounded(rows: seq<Row>)
    requires forall x :: x in rows ==> x.amount >= 0.0
    ensures 0.0 <= Volume(rows, true) <= Volume(rows, false)
  {
    VolumeSplitsByLabel(rows);
    var rest := Filter(rows, (r: Row) => r.fraudLabel != 1);
    forall x | x in rest
      ensures x.amount >= 0.0
    {
      FilterMembership(rows, (r: Row) => r.fraudLabel != 1, x);
    }
    VolumeNonNegative(rows, true);
    VolumeNonNegative(rest, false);
  }

  /** A sum of non-negative amounts is non-negative. */
  lemma {:induction false} VolumeNonNegative(rows: seq<Row>, fraudOnly: bool)
    requires forall x :: x in rows ==> x.amount >= 0.0
    ensures Volume(rows, fraudOnly) >= 0.0
  {
    if rows != [] {
      assert rows[0] in rows;
      VolumeNonNegative(rows[1..], fraudOnly);
    }
  }

  datatype Analytics = Analytics(
    totalTransactions: nat,
    totalVolume: real,
    fraudAttempts: int,
    fraudVolume: real,
    blockedCount: nat,
    preventionRate: real)

  datatype FeedAnalysis = FeedAnalysis(qsvcProb: real, vqeEnergy: real, riskScore: real, status: RiskStatus, quantumProbabilities: seq<Outcome>)

  /** One live-feed message. */
  datatype FeedPayload = FeedPayload(transaction: TxData, analysis: FeedAnalysis, systemEntropy: real, benchmark: Benchmark)

  /**
   * The live message built from a pipeline bundle: the record, the QSVC
   * probability, the forecast and the measured distribution, with the
   * forecast's risk score doubling as the system entropy.
   */
  function PayloadOf(a: Analysis): (p: FeedPayload)
    ensures p.transaction == a.transaction && p.benchmark == a.benchmark
    ensures p.systemEntropy == p.analysis.riskScore == a.vqe.riskScore
    ensures Risk(p.analysis.status, p.analysis.riskScore) == Risk(a.vqe.status, a.vqe.riskScore)
    ensures p.analysis.qsvcProb == a.qsvc.probability && p.analysis.vqeEnergy == a.vqe.energy
    ensures p.analysis.quantumProbabilities == a.vqe.probabilities
  {
    FeedPayload(a.transaction,
                FeedAnalysis(a.qsvc.probability, a.vqe.energy, a.vqe.riskScore, a.vqe.status, a.vqe.probabilities),
                a.vqe.riskScore, a.benchmark)
  }

  /** The sleep after a message: 4 s after a CRITICAL one, 2 s otherwise. */
  function PacingDelay(status: RiskStatus): real {
    if status == Critical then 4.0 else 2.0
  }

  datatype InvestigateResponse = Found(analysis: Analysis) | NotFound(error: string)

  /** The server process: the engine's data and the module-level globals. */
  class Server {
    const ds: Dataset
    var blockedAccounts: set<string>
    var blockedIds: set<string>
    /** The content of `blocked_accounts.json`; `None` while the file does not exist. */
    var savedAccounts: Option<set<string>>
    var simulationIndex: nat

    ghost predicate Valid()
      reads this
    {
      && Loaded(ds)
      && (savedAccounts.Some? ==> savedAccounts.value == blockedAccounts)
    }

    /** Process start: accounts come back from the file, ids and the feed index start afresh. */
    constructor (data: Dataset, saved: Option<set<string>>)
      requires Loaded(data)
      ensures Valid()
      ensures ds == data && savedAccounts == saved
      ensures blockedAccounts == (if saved.Some? then saved.value else {})
      ensures blockedIds == {} && simulationIndex == 0
    {
      ds := data;
      blockedAccounts := if saved.Some? then saved.value else {};
      blockedIds := {};
      savedAccounts := saved;
      simulationIndex := 0;
    }

    /** `POST /api/block/{tx_id}`: both sets grow only after the row lookup succeeded. */
    method BlockTransaction(txId: string) returns (r: BlockResult)
      requires Valid()
      modifies this`blockedAccounts, this`blockedIds, this`savedAccounts
      ensures Valid()
      ensures old(blockedAccounts) <= blockedAccounts && old(blockedIds) <= blockedIds
      ensures BlockRow(ds, txId).None? ==>
        && r == BlockError
        && blockedAccounts == old(blockedAccounts) && blockedIds == old(blockedIds)
        && savedAccounts == old(savedAccounts)
      ensures BlockRow(ds, txId).Some? ==>
        && r == Blocked(BlockRow(ds, txId).value.nameOrig, txId)
        && blockedAccounts == old(blockedAccounts) + {BlockRow(ds, txId).value.nameOrig}
        && blockedIds == old(blockedIds) + {txId}
        && savedAccounts == Some(blockedAccounts)
    {
      match BlockRow(ds, txId)
      case None =>
        r := BlockError;
      case Some(row) =>
        blockedAccounts := blockedAccounts + {row.nameOrig};
        blockedIds := blockedIds + {txId};
        savedAccounts := Some(blockedAccounts);
        r := Blocked(row.nameOrig, txId);
    }

    /** `GET /api/transactions?limit=`: one enriched record per row of `head(limit)`, in order. */
    method GetTransactions(limit: int) returns (records: seq<TxRecord>)
      requires Loaded(ds)
      ensures |records| == |Head(ds.rows, limit)|
      ensures forall i :: 0 <= i < |records| ==>
        && records[i].id == TxId(i)
        && records[i] == Enrich(Head(ds.rows, limit)[i], i, blockedAccounts, blockedIds)
    {
      var head := Head(ds.rows, limit);
      records := [];
      for i := 0 to |head|
        invariant |records| == i
        invariant forall j :: 0 <= j < i ==> records[j] == Enrich(head[j], j, blockedAccounts, blockedIds)
      {
        var r := head[i];
        var txId := TxId(i);
        var isFrozen := r.nameOrig in blockedAccounts || txId in blockedIds;
        var status := "Posted";
        if r.fraudLabel == 1 {
          status := "Flagged";
        }
        if isFrozen {
          status := "BLOCKED";
        }
        records := records + [TxRecord(txId, r.amount, r.nameOrig, r.nameDest, r.fraudLabel == 1, status)];
      }
    }

    /**
     * `GET /api/compliance`: one entry per blocked id whose parsed index lies
     * in [0, n), in the set's (unspecified) iteration order.
     */
    method GetComplianceLog() returns (log: seq<ComplianceEntry>)
      requires Loaded(ds)
      ensures forall i :: 0 <= i < |log| ==> log[i].id in blockedIds && EntryForRow(ds, log[i])
      ensures forall id :: id in blockedIds ==> (Logged(log, id) <==> ParseTxIndex(id, |ds.rows|).Some?)
      ensures DistinctIds(log)
    {
      log := [];
      var rest := blockedIds;
      while rest != {}
        invariant LogState(ds, blockedIds, rest, log)
        decreases rest
      {
        var txId :| txId in rest;
        LogStateStep(ds, blockedIds, rest, log, txId);
        rest := rest - {txId};
        match ParseTxIndex(txId, |ds.rows|)
        case None =>
        case Some(idx) =>
          log := log + [EntryOf(txId, ds.rows[idx])];
      }
    }

    /** `GET /api/analytics`. */
    function GetAnalytics(): (a: Analytics)
      reads this
      ensures a.totalTransactions == |ds.rows| && a.blockedCount == |blockedAccounts|
      ensures a.fraudAttempts == LabelSum(ds.rows)
      ensures a.preventionRate == PreventionRate(|blockedAccounts|, LabelSum(ds.rows))
      ensures a.totalVolume == Volume(ds.rows, false) && a.fraudVolume == Volume(ds.rows, true)
    {
      var fraudCount := LabelSum(ds.rows);
      Analytics(|ds.rows|, Volume(ds.rows, false), fraudCount, Volume(ds.rows, true),
                |blockedAccounts|, PreventionRate(|blockedAccounts|, fraudCount))
    }

    /** `GET /api/investigate/{tx_id}`: the bundle, or the error payload. */
    method InvestigateTransaction(txId: string, noise: Noise) returns (resp: InvestigateResponse)
      requires Loaded(ds) && NoiseInRange(noise)
      ensures resp.Found? <==> ParseTxIndex(txId, |ds.rows|).Some?
      ensures resp.NotFound? ==> resp.error == "Transaction not found"
      ensures resp.Found? ==> AnalysisOf(ds, ParseTxIndex(txId, |ds.rows|).value, noise, resp.analysis)
    {
      var data := GetForensicDetails(ds, txId, noise);
      if data.None? {
        resp := NotFound("Transaction not found");
      } else {
        resp := Found(data.value);
      }
    }

    /**
     * One round of the feed loop as written: analyse row
     * `simulationIndex`, send, sleep, advance the shared index. A raise in
     * the analysis (`simulationIndex >= n`, see `ProcessTransactionFull`),
     * in the send (`sendOk` false) or in the sleep (`sleepOk` false) ends
     * the connection before the index moves.
     */
    method StreamStep(noise: Noise, sendOk: bool, sleepOk: bool) returns (sent: Option<FeedPayload>, delay: Option<real>, open: bool)
      requires Valid() && NoiseInRange(noise)
      modifies this`simulationIndex
      ensures Valid()
      ensures old(simulationIndex) >= |ds.rows| ==> sent.None? && !open
      ensures sent.Some? <==> old(simulationIndex) < |ds.rows| && sendOk
      ensures sent.Some? ==>
        && sent.value.transaction == GetTransaction(ds, old(simulationIndex))
        && sent.value.systemEntropy == sent.value.analysis.riskScore
        && (sent.value.analysis.status == Critical <==> sent.value.analysis.vqeEnergy < -1.5)
      ensures sent.Some? ==> exists a :: AnalysisOf(ds, old(simulationIndex), noise, a) && sent.value == PayloadOf(a)
      ensures delay.Some? <==> sent.Some?
      ensures delay.Some? ==> delay.value == PacingDelay(sent.value.analysis.status)
      ensures open <==> sent.Some? && sleepOk
      ensures simulationIndex == old(simulationIndex) + (if open then 1 else 0)
    {
      var full := ProcessTransactionFull(ds, simulationIndex, noise);
      if full.None? {
        return None, None, false;
      }
      var a := full.value;
      var payload := PayloadOf(a);
      RiskOfEnergyBands(a.vqe.energy);
      if !sendOk {
        return None, None, false;
      }
      sent := Some(payload);
      delay := Some(PacingDelay(a.vqe.status));
      open := sleepOk;
      if open {
        simulationIndex := simulationIndex + 1;
      }
    }
  }

  /** A negative offset: the id `TX-{10000-k}` passes the block lookup and freezes row `n - k`, yet no log entry can show it. */
  lemma BlockAcceptsNegativeOffset(ds: Dataset, k: nat)
    requires Loaded(ds) && 1 <= k <= |ds.rows| && k <= IdOffset
    ensures var id := "TX-" + NatToString(IdOffset - k);
      && BlockRow(ds, id) == Some(ds.rows[|ds.rows| - k])
      && ParseTxIndex(id, |ds.rows|).None?
  {
    var digits := NatToString(IdOffset - k);
    var id := "TX-" + digits;
    assert id == "TX" + ['-'] + digits;
    assert '-' !in digits;
    SecondFieldOfJoin("TX", '-', digits);
    ParseIntOfNatToString(IdOffset - k);
    var offset: int := -(k as int);
    assert RawTxIndex(id) == Some(offset);
  }

  /** Every id the listing shows passes the block lookup, which then freezes the listed row's own account. */
  lemma ListedIdBlocksItsRow(ds: Dataset, i: nat)
    requires Loaded(ds) && i < |ds.rows|
    ensures BlockRow(ds, TxId(i)) == Some(ds.rows[i])
  {
    TxIdRoundTrip(i, |ds.rows|);
  }
}
