/**
 * The live-feed hook: each message goes through one admission step that
 * deduplicates the transaction list by id (first seen wins), prepends and
 * caps it at 50, replaces the system metrics and appends to an entropy
 * history capped at 60. The socket and its reconnection are not modelled.
 */
module RiskStream {
  import opened Text
  import opened Seqs
  import opened Engine
  import opened Backend

  const MaxTransactions: nat := 50
  const MaxHistory: nat := 60

  /** A list entry: `{ ...data.transaction, benchmark: data.benchmark }`. */
  datatype StoredTx = StoredTx(tx: TxData, benchmark: Benchmark)

  datatype Metrics = Metrics(entropy: real, stability: string, activeClusters: nat)

  datatype HistoryPoint = HistoryPoint(time: string, entropy: real)

  const InitialMetrics := Metrics(0.2, "STABLE", 0)

  function FullTx(m: FeedPayload): StoredTx {
    StoredTx(m.transaction, m.benchmark)
  }

  /** `list.some(tx => tx.id === id)`. */
  predicate HasId(list: seq<StoredTx>, id: string) {
    exists i :: 0 <= i < |list| && list[i].tx.id == id
  }

  /** `s.slice(-k)` for `k > 0`: the last `k` elements, or all of `s`. */
  function LastN<T>(s: seq<T>, k: nat): (r: seq<T>)
    ensures |r| == Min(k, |s|)
  {
    if |s| <= k then s else s[|s| - k..]
  }

  /** The transactions updater: a known id leaves the list as it is, a new one goes in front. */
  function AdmitTx(prev: seq<StoredTx>, t: StoredTx): seq<StoredTx> {
    if HasId(prev, t.tx.id) then prev else Take([t] + prev, MaxTransactions)
  }

  /** The metrics every message sets, duplicate or not. */
  function MetricsOf(m: FeedPayload): (r: Metrics)
    ensures r.entropy == m.systemEntropy && r.stability == StatusName(m.analysis.status)
    ensures r.activeClusters == 1 <==> m.analysis.status == Critical
    ensures r.activeClusters <= 1
  {
    Metrics(m.systemEntropy, StatusName(m.analysis.status), if StatusName(m.analysis.status) == "CRITICAL" then 1 else 0)
  }

  /**
   * The metrics the dashboard shows for the feed message of row `idx`: the
   * entropy is that row's risk score, and a cluster is active exactly when
   * its forecast is critical, which under energy noise inside (-1, 1) is
   * exactly when the row is fraud.
   */
  lemma FeedMetricsOfRow(ds: Dataset, idx: nat, noise: Noise, a: Analysis)
    requires Loaded(ds) && NoiseInRange(noise) && AnalysisOf(ds, idx, noise, a)
    ensures var m := MetricsOf(PayloadOf(a));
      && m.entropy == RiskOfEnergy(a.vqe.energy).score
      && 0.0 <= m.entropy <= 1.0
      && (m.activeClusters == 1 <==> a.vqe.energy < -1.5)
      && (-1.0 < noise.vqeNoise < 1.0 ==> (m.activeClusters == 1 <==> GetTransaction(ds, idx).isFraud))
  {
    RiskOfEnergyBands(a.vqe.energy);
  }

  /** The history updater: append the new point, keep the last 60. */
  function AppendHistory(prev: seq<HistoryPoint>, p: HistoryPoint): seq<HistoryPoint> {
    LastN(prev + [p], MaxHistory)
  }

  predicate DistinctIds(list: seq<StoredTx>) {
    forall i, j :: 0 <= i < j < |list| ==> list[i].tx.id != list[j].tx.id
  }

  /** The guarantee of the buffer: at most 50 entries, no id twice. */
  predicate BufferInvariant(list: seq<StoredTx>) {
    |list| <= MaxTransactions && DistinctIds(list)
  }

  lemma AdmitDuplicate(prev: seq<StoredTx>, t: StoredTx)
    requires HasId(prev, t.tx.id)
    ensures AdmitTx(prev, t) == prev
  {
  }

  /** A new id goes to index 0, the old entries shift by one, and the list is cut at 50. */
  lemma AdmitNew(prev: seq<StoredTx>, t: StoredTx)
    requires !HasId(prev, t.tx.id)
    ensures var r := AdmitTx(prev, t);
      && |r| == Min(MaxTransactions, |prev| + 1)
      && r[0] == t
      && forall i :: 1 <= i < |r| ==> r[i] == prev[i - 1]
  {
  }

  lemma AdmitPreservesInvariant(prev: seq<StoredTx>, t: StoredTx)
    requires BufferInvariant(prev)
    ensures BufferInvariant(AdmitTx(prev, t))
    ensures HasId(AdmitTx(prev, t), t.tx.id)
  {
    var r := AdmitTx(prev, t);
    if !HasId(prev, t.tx.id) {
      assert r[0] == t;
      forall i, j | 0 <= i < j < |r| ensures r[i].tx.id != r[j].tx.id {
        if i == 0 {
          assert r[j] == prev[j - 1];
        } else {
          assert r[i] == prev[i - 1] && r[j] == prev[j - 1];
        }
      }
    }
  }

  /** The 50 most recently prepended entries, most recent first. */
  function Recent(admitted: seq<StoredTx>): seq<StoredTx> {
    Take(Reverse(admitted), MaxTransactions)
  }

  lemma RecentAt(admitted: seq<StoredTx>, i: nat)
    requires i < |Recent(admitted)|
    ensures Recent(admitted)[i] == admitted[|admitted| - 1 - i]
  {
    ReverseAt(admitted, i);
  }

  /**
   * Ordering: if the list holds the 50 most recently prepended entries,
   * most recent first, it still does after one admission.
   */
  lemma AdmitKeepsRecent(prev: seq<StoredTx>, admitted: seq<StoredTx>, t: StoredTx)
    requires prev == Recent(admitted)
    ensures AdmitTx(prev, t) == Recent(if HasId(prev, t.tx.id) then admitted else admitted + [t])
  {
    if !HasId(prev, t.tx.id) {
      var a := admitted + [t];
      var r := AdmitTx(prev, t);
      assert |r| == |Recent(a)|;
      forall i | 0 <= i < |r| ensures r[i] == Recent(a)[i] {
        RecentAt(a, i);
        if i > 0 {
          RecentAt(admitted, i - 1);
        }
      }
    }
  }

  /** Admitting `ts` in order, first element first. */
  function AdmitAll(prev: seq<StoredTx>, ts: seq<StoredTx>): seq<StoredTx> {
    if ts == [] then prev else AdmitTx(AdmitAll(prev, ts[..|ts| - 1]), ts[|ts| - 1])
  }

  /** Pairwise-distinct ids admitted into an empty list leave the last 50 of them, most recent first. */
  lemma {:induction false} AdmitAllDistinct(ts: seq<StoredTx>)
    requires DistinctIds(ts)
    ensures AdmitAll([], ts) == Recent(ts)
  {
    if ts != [] {
      var init, t := ts[..|ts| - 1], ts[|ts| - 1];
      assert ts == init + [t];
      AdmitAllDistinct(init);
      var prev := AdmitAll([], init);
      if HasId(prev, t.tx.id) {
        var i :| 0 <= i < |prev| && prev[i].tx.id == t.tx.id;
        RecentAt(init, i);
        assert false;
      }
      AdmitKeepsRecent(prev, init, t);
    }
  }

  /** The event with id `TX-k` of the concrete scenario; its other fields do not matter. */
  function ScenarioEvent(k: nat): StoredTx {
    StoredTx(TxData("TX-" + NatToString(k), 0.0, "", "Payment", false), Benchmark(0.0, "", false))
  }

  /** The events TX-1, TX-2, ..., TX-n in arrival order. */
  function ScenarioEvents(n: nat): (r: seq<StoredTx>)
    ensures |r| == n && forall i :: 0 <= i < n ==> r[i] == ScenarioEvent(i + 1)
  {
    seq(n, i requires 0 <= i < n => ScenarioEvent(i + 1))
  }

  /** Admitting TX-1..TX-n (n at least 50) leaves TX-n down to TX-(n-49). */
  lemma ScenarioWindow(n: nat)
    requires n >= MaxTransactions
    ensures var r := AdmitAll([], ScenarioEvents(n));
      |r| == MaxTransactions && forall i :: 0 <= i < MaxTransactions ==> r[i] == ScenarioEvent(n - i)
  {
    var events := ScenarioEvents(n);
    forall i, j | 0 <= i < j < |events| ensures events[i].tx.id != events[j].tx.id {
      if events[i].tx.id == events[j].tx.id {
        assert NatToString(i + 1) == events[i].tx.id[3..];
        assert NatToString(j + 1) == events[j].tx.id[3..];
        NatToStringInjective(i + 1, j + 1);
      }
    }
    AdmitAllDistinct(events);
    forall i | 0 <= i < MaxTransactions ensures AdmitAll([], events)[i] == ScenarioEvent(n - i) {
      RecentAt(events, i);
    }
  }

  /** Admitting TX-1..TX-55 leaves TX-55..TX-6; re-admitting TX-30 changes nothing. */
  lemma Scenario55()
    ensures var r := AdmitAll([], ScenarioEvents(55));
      && r == seq(50, i requires 0 <= i < 50 => ScenarioEvent(55 - i))
      && AdmitTx(r, ScenarioEvent(30)) == r
  {
    ScenarioWindow(55);
    var r := AdmitAll([], ScenarioEvents(55));
    assert r == seq(50, i requires 0 <= i < 50 => ScenarioEvent(55 - i));
    assert r[25] == ScenarioEvent(30);
    assert HasId(r, ScenarioEvent(30).tx.id);
  }

  /** Appending the points of `ps` one message at a time. */
  function AppendAll(prev: seq<HistoryPoint>, ps: seq<HistoryPoint>): seq<HistoryPoint> {
    if ps == [] then prev else AppendHistory(AppendAll(prev, ps[..|ps| - 1]), ps[|ps| - 1])
  }

  lemma LastNAppend<T>(s: seq<T>, x: T, k: nat)
    requires k > 0
    ensures LastN(LastN(s, k) + [x], k) == LastN(s + [x], k)
  {
  }

  /** The history is always the last 60 points of everything appended, oldest first. */
  lemma {:induction false} HistoryIsLastWindow(prev: seq<HistoryPoint>, ps: seq<HistoryPoint>)
    ensures AppendAll(LastN(prev, MaxHistory), ps) == LastN(prev + ps, MaxHistory)
  {
    if ps == [] {
      assert prev + ps == prev;
      assert LastN(LastN(prev, MaxHistory), MaxHistory) == LastN(prev, MaxHistory);
    } else {
      var init, p := ps[..|ps| - 1], ps[|ps| - 1];
      HistoryIsLastWindow(prev, init);
      LastNAppend(prev + init, p, MaxHistory);
      assert prev + ps == (prev + init) + [p];
    }
  }

  /** The hook's state. `admitted` and `points` are the entries ever prepended and the points ever appended. */
  class RiskStream {
    var transactions: seq<StoredTx>
    var metrics: Metrics
    var history: seq<HistoryPoint>
    ghost var admitted: seq<StoredTx>
    ghost var points: seq<HistoryPoint>

    ghost predicate Valid()
      reads this
    {
      && BufferInvariant(transactions)
      && transactions == Recent(admitted)
      && history == LastN(points, MaxHistory)
    }

    constructor ()
      ensures Valid()
      ensures transactions == [] && history == [] && metrics == InitialMetrics
    {
      transactions := [];
      metrics := InitialMetrics;
      history := [];
      admitted := [];
      points := [];
    }

    /** The message handler; `now` is the local clock reading the history point is stamped with. */
    method Admit(m: FeedPayload, now: string)
      requires Valid()
      modifies this
      ensures Valid()
      ensures transactions == AdmitTx(old(transactions), FullTx(m))
      ensures HasId(old(transactions), m.transaction.id) ==> transactions == old(transactions)
      ensures metrics == MetricsOf(m)
      ensures history == AppendHistory(old(history), HistoryPoint(now, m.systemEntropy))
      ensures points == old(points) + [HistoryPoint(now, m.systemEntropy)]
    {
      var fullTx := FullTx(m);
      AdmitPreservesInvariant(transactions, fullTx);
      AdmitKeepsRecent(transactions, admitted, fullTx);
      if !HasId(transactions, fullTx.tx.id) {
        admitted := admitted + [fullTx];
      }
      transactions := AdmitTx(transactions, fullTx);
      metrics := MetricsOf(m);
      var point := HistoryPoint(now, m.systemEntropy);
      LastNAppend(points, point, MaxHistory);
      history := AppendHistory(history, point);
      points := points + [point];
    }
  }
}
