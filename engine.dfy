/**
 * The deterministic part of the analysis engine: the synthetic transaction
 * id and its parse, the per-transaction record, the topology classifier
 * over integer degrees, the energy-to-status mapping, the clipping of the
 * screening probability and the assembly of the full forensic bundle.
 * Random draws and the numeric projection are inputs (`Noise`).
 */
module Engine {
  import opened Wrappers
  import opened Text

  /** One row of the test set: the details frame joined with its label. */
  datatype Row = Row(nameOrig: string, nameDest: string, amount: real, outDegree: int, inDegree: int, fraudLabel: int)

  /** The loaded test set; vectors, labels and details have one entry per row. */
  datatype Dataset = Dataset(rows: seq<Row>)

  /** The engine indexes `index % len(vectors)`, which needs at least one row. */
  predicate Loaded(ds: Dataset) {
    |ds.rows| > 0
  }

  const IdOffset: nat := 10000

  /** The synthetic id of row `idx`: `TX-{10000+idx}`. */
  function TxId(idx: nat): string {
    "TX-" + NatToString(IdOffset + idx)
  }

  /** `int(tx_id.split("-")[1]) - 10000`; `None` where either step raises. */
  function RawTxIndex(txId: string): (r: Option<int>)
    ensures r.Some? <==> SecondField(txId, '-').Some? && IsIntLiteral(SecondField(txId, '-').value)
    ensures r.Some? ==> ParseInt(SecondField(txId, '-').value) == Some(r.value + IdOffset)
  {
    match SecondField(txId, '-')
    case None => None
    case Some(field) =>
      match ParseInt(field)
      case None => None
      case Some(v) => Some(v - IdOffset)
  }

  /** The index parse of `get_forensic_details`: the raw index, kept only when it lies in [0, n). */
  function ParseTxIndex(txId: string, n: nat): (r: Option<nat>)
    ensures r.Some? ==> r.value < n && RawTxIndex(txId) == Some(r.value as int)
    ensures RawTxIndex(txId).Some? && 0 <= RawTxIndex(txId).value < n ==> r.Some?
  {
    match RawTxIndex(txId)
    case None => None
    case Some(k) => if 0 <= k < n then Some(k as nat) else None
  }

  /** An id without `-`, or whose second field is not an integer literal, is rejected. */
  lemma NonIntegerFieldRejected(txId: string, n: nat)
    requires SecondField(txId, '-').None? || !IsIntLiteral(SecondField(txId, '-').value)
    ensures RawTxIndex(txId).None? && ParseTxIndex(txId, n).None?
  {
  }

  lemma TxIdRoundTrip(idx: nat, n: nat)
    requires idx < n
    ensures RawTxIndex(TxId(idx)) == Some(idx as int)
    ensures ParseTxIndex(TxId(idx), n) == Some(idx)
  {
    var digits := NatToString(IdOffset + idx);
    assert TxId(idx) == "TX" + ['-'] + digits;
    assert '-' !in digits;
    SecondFieldOfJoin("TX", '-', digits);
    ParseIntOfNatToString(IdOffset + idx);
  }

  lemma TxIdInjective(a: nat, b: nat)
    ensures TxId(a) == TxId(b) ==> a == b
  {
    if TxId(a) == TxId(b) {
      TxIdRoundTrip(a, a + b + 1);
      TxIdRoundTrip(b, a + b + 1);
    }
  }

  /** The record `get_transaction` returns; `amount` is kept as a number, not as the formatted string. */
  datatype TxData = TxData(id: string, amount: real, account: string, kind: string, isFraud: bool)

  /** `name[:4] + "..." + name[-4:]`. */
  function AbbreviateAccount(name: string): (r: string)
    ensures |r| == 2 * Min(4, |name|) + 3
    ensures r[..Min(4, |name|)] == name[..Min(4, |name|)]
    ensures r[Min(4, |name|)..Min(4, |name|) + 3] == "..."
    ensures r[|r| - Min(4, |name|)..] == name[|name| - Min(4, |name|)..]
  {
    PyPrefix(name, 4) + "..." + PySuffix(name, 4)
  }

  function TransactionKind(fraudLabel: int): string {
    if fraudLabel == 1 then "Transfer" else "Payment"
  }

  /** `get_transaction(index)`: the record of row `index % n`. */
  function GetTransaction(ds: Dataset, index: nat): (t: TxData)
    requires Loaded(ds)
    ensures ParseTxIndex(t.id, |ds.rows|) == Some(Wrap(index, |ds.rows|))
    ensures t.isFraud <==> ds.rows[Wrap(index, |ds.rows|)].fraudLabel == 1
    ensures t.kind == "Transfer" <==> t.isFraud
    ensures t.amount == ds.rows[Wrap(index, |ds.rows|)].amount
    ensures t.id == TxId(Wrap(index, |ds.rows|))
    ensures t.account == AbbreviateAccount(ds.rows[Wrap(index, |ds.rows|)].nameOrig)
  {
    TxIdRoundTrip(Wrap(index, |ds.rows|), |ds.rows|);
    RowRecord(ds, Wrap(index, |ds.rows|))
  }

  /** The record built from row `idx` once the index has been wrapped. */
  function RowRecord(ds: Dataset, idx: nat): TxData
    requires idx < |ds.rows|
  {
    var row := ds.rows[idx];
    TxData(TxId(idx), row.amount, AbbreviateAccount(row.nameOrig), TransactionKind(row.fraudLabel), row.fraudLabel == 1)
  }

  /** Indices one test-set length apart give the same record, id included: the feed's ids repeat. */
  lemma GetTransactionPeriodic(ds: Dataset, index: nat)
    requires Loaded(ds)
    ensures GetTransaction(ds, index + |ds.rows|) == GetTransaction(ds, index)
  {
    assert Wrap(index + |ds.rows|, |ds.rows|) == Wrap(index, |ds.rows|);
  }

  /** Below the test-set length the index is used as it is. */
  lemma GetTransactionInRange(ds: Dataset, index: nat)
    requires Loaded(ds) && index < |ds.rows|
    ensures GetTransaction(ds, index).id == TxId(index)
    ensures GetTransaction(ds, index).isFraud <==> ds.rows[index].fraudLabel == 1
  {
  }

  /** `index % n` of a non-negative index, by repeated subtraction of the period. */
  function Wrap(index: nat, n: nat): (k: nat)
    requires n > 0
    ensures k < n
    decreases index
  {
    if index < n then index else Wrap(index - n, n)
  }

  /** `Wrap` is Python's `%` on a non-negative index. */
  lemma {:induction false} WrapIsMod(index: nat, n: nat)
    requires n > 0
    ensures Wrap(index, n) == index % n
    decreases index
  {
    if index < n {
      assert index == n * 0 + index;
    } else {
      WrapIsMod(index - n, n);
      ModAddPeriod(index - n, n);
    }
  }

  lemma MulMonotone(n: nat, d: int)
    requires d >= 1
    ensures n * d >= n
  {
    assert n * d == n * (d - 1) + n;
  }

  lemma ModAddPeriod(a: nat, n: nat)
    requires n > 0
    ensures (a + n) % n == a % n
  {
    var q1, r1 := (a + n) / n, (a + n) % n;
    var q2, r2 := a / n + 1, a % n;
    assert a + n == n * q1 + r1;
    assert a + n == n * q2 + r2 by {
      assert a == n * (a / n) + a % n;
      assert n * q2 == n * (a / n) + n;
    }
    if q1 > q2 {
      MulMonotone(n, q1 - q2);
    } else if q2 > q1 {
      MulMonotone(n, q2 - q1);
    }
  }

  // ---- Topology ----------------------------------------------------------

  datatype PatternType = HighConnectivity | MediumConnectivity | LowConnectivity | NormalConnectivity

  /** The `if/elif` chain over the sender's out-degree and the receiver's in-degree; the first match wins. */
  function Classify(outDegree: int, inDegree: int): PatternType {
    if outDegree >= 8 || inDegree >= 8 then HighConnectivity
    else if outDegree >= 4 || inDegree >= 4 then MediumConnectivity
    else if outDegree == 1 && inDegree == 1 then LowConnectivity
    else NormalConnectivity
  }

  function PatternName(p: PatternType): string {
    match p
    case HighConnectivity => "Star-Hub (Mule)"
    case MediumConnectivity => "Fan-Out (Distribution)"
    case LowConnectivity => "Linear (P2P)"
    case NormalConnectivity => "Small Network"
  }

  /** A neighbour node; its id comes from Python's process-randomised `hash` and is not modelled. */
  datatype Neighbour = Neighbour(relationship: string, risk: real, degree: int)

  datatype Topology = Topology(
    pattern: string,
    neighbourCount: int,
    nodes: seq<Neighbour>,
    sourceDegree: int,
    destDegree: int,
    connectivityScore: real)

  /** `min(max(out_degree, in_degree), 8)`. */
  function NeighbourCount(outDegree: int, inDegree: int): int {
    Min(Max(outDegree, inDegree), 8)
  }

  /** What each pattern implies about the number of neighbour nodes drawn. */
  lemma NeighbourCountByPattern(outDegree: int, inDegree: int)
    ensures Classify(outDegree, inDegree) == HighConnectivity <==> NeighbourCount(outDegree, inDegree) == 8
    ensures Classify(outDegree, inDegree) == MediumConnectivity ==> 4 <= NeighbourCount(outDegree, inDegree) <= 7
    ensures Classify(outDegree, inDegree) == LowConnectivity ==> NeighbourCount(outDegree, inDegree) == 1
    ensures Classify(outDegree, inDegree) == NormalConnectivity ==> NeighbourCount(outDegree, inDegree) <= 3
  {
  }

  /**
   * The topology of `row`: its pattern, one neighbour node per drawn
   * neighbour (a mule of risk 0.85 around a hub, a peer of risk 0.15
   * otherwise; the first `out_degree` nodes carry the out-degree), the two
   * degrees and their mean as the connectivity score.
   */
  predicate TopologyOf(row: Row, t: Topology) {
    var high := Classify(row.outDegree, row.inDegree) == HighConnectivity;
    && t.pattern == PatternName(Classify(row.outDegree, row.inDegree))
    && t.neighbourCount == NeighbourCount(row.outDegree, row.inDegree)
    && |t.nodes| == Max(t.neighbourCount, 0)
    && (forall i :: 0 <= i < |t.nodes| ==>
         && t.nodes[i].relationship == (if high then "Mule" else "Peer")
         && t.nodes[i].risk == (if high then 0.85 else 0.15)
         && t.nodes[i].degree == (if i < row.outDegree then row.outDegree else row.inDegree))
    && t.sourceDegree == row.outDegree && t.destDegree == row.inDegree
    && t.connectivityScore == (row.outDegree + row.inDegree) as real / 2.0
  }

  /** `_get_transaction_topology` for one row: the pattern and the neighbour list built by the loop. */
  method GetTransactionTopology(row: Row) returns (t: Topology)
    ensures TopologyOf(row, t)
  {
    var outDegree, inDegree := row.outDegree, row.inDegree;
    var patternType := Classify(outDegree, inDegree);
    var count := NeighbourCount(outDegree, inDegree);
    var high := patternType == HighConnectivity;
    var nodes: seq<Neighbour> := [];
    var i := 0;
    while i < count
      invariant 0 <= i == |nodes| <= Max(count, 0)
      invariant forall j :: 0 <= j < i ==>
        && nodes[j].relationship == (if high then "Mule" else "Peer")
        && nodes[j].risk == (if high then 0.85 else 0.15)
        && nodes[j].degree == (if j < outDegree then outDegree else inDegree)
    {
      var node := Neighbour(
        if high then "Mule" else "Peer",
        if high then 0.85 else 0.15,
        if i < outDegree then outDegree else inDegree);
      nodes := nodes + [node];
      i := i + 1;
    }
    t := Topology(PatternName(patternType), count, nodes, outDegree, inDegree,
                  (outDegree + inDegree) as real / 2.0);
  }

  // ---- Energy forecast ---------------------------------------------------

  datatype RiskStatus = Stable | Warning | Critical

  function StatusName(s: RiskStatus): string {
    match s
    case Stable => "STABLE"
    case Warning => "WARNING"
    case Critical => "CRITICAL"
  }

  function AbsReal(x: real): real { if x < 0.0 then -x else x }

  function MinReal(a: real, b: real): real { if a <= b then a else b }

  function MaxReal(a: real, b: real): real { if a >= b then a else b }

  datatype Risk = Risk(status: RiskStatus, score: real)

  /** The normalisation of `run_vqe_forecast`: an energy below -1.5 is critical, any other negative energy a warning. */
  function RiskOfEnergy(energy: real): Risk {
    if energy < -1.5 then Risk(Critical, MinReal(AbsReal(energy) / 3.0, 1.0))
    else if energy < 0.0 then Risk(Warning, 0.3)
    else Risk(Stable, 0.0)
  }

  /** Each status corresponds to one energy band, and the score stays in [0, 1]. */
  lemma RiskOfEnergyBands(energy: real)
    ensures 0.0 <= RiskOfEnergy(energy).score <= 1.0
    ensures RiskOfEnergy(energy).status == Critical <==> energy < -1.5
    ensures RiskOfEnergy(energy).status == Warning <==> -1.5 <= energy < 0.0
    ensures RiskOfEnergy(energy).status == Stable <==> energy >= 0.0
    ensures RiskOfEnergy(energy).status == Critical ==> 0.5 < RiskOfEnergy(energy).score
    ensures RiskOfEnergy(energy).status == Warning ==> RiskOfEnergy(energy).score == 0.3
    ensures RiskOfEnergy(energy).status == Stable ==> RiskOfEnergy(energy).score == 0.0
  {
  }

  datatype Forecast = Forecast(energy: real, riskScore: real, status: RiskStatus, biasActive: bool)

  /**
   * `run_vqe_forecast(vector, potential)`: the bias is applied when the
   * potential exceeds 0.5, and the simulated ground-state energy is -2.5
   * or +2.0 plus the random draw `noise`.
   */
  function RunVqeForecast(potential: real, noise: real): (f: Forecast)
    ensures f.biasActive <==> potential > 0.5
    ensures f.energy == (if f.biasActive then -2.5 else 2.0) + noise
    ensures Risk(f.status, f.riskScore) == RiskOfEnergy(f.energy)
  {
    var bias := potential > 0.5;
    var energy := (if bias then -2.5 else 2.0) + noise;
    var risk := RiskOfEnergy(energy);
    Forecast(energy, risk.score, risk.status, bias)
  }

  /** With a draw smaller than 1 in magnitude, the status is CRITICAL exactly when the bias is applied, and STABLE otherwise. */
  lemma CalmNoiseSeparates(potential: real, noise: real)
    requires -1.0 < noise < 1.0
    ensures RunVqeForecast(potential, noise).status == Critical <==> potential > 0.5
    ensures potential <= 0.5 ==> RunVqeForecast(potential, noise).status == Stable
  {
    RiskOfEnergyBands(RunVqeForecast(potential, noise).energy);
  }

  // ---- Measurement probabilities ----------------------------------------

  /** One entry of the simulated measurement distribution. */
  datatype Outcome = Outcome(state: string, probability: real)

  const StateLabels: seq<string> := ["00 (Normal)", "01 (Medium)", "10 (Critical)", "11 (High)"]

  /** The noiseless distribution: collapsed onto |10> when the bias is applied, onto |00> otherwise. */
  function BaseProbabilities(biased: bool): seq<real> {
    if biased then [0.02, 0.03, 0.94, 0.01] else [0.95, 0.03, 0.01, 0.01]
  }

  /** The shot-noise draws, one per state, each from uniform(-0.005, 0.005). */
  predicate ShotNoiseInRange(shotNoise: seq<real>) {
    |shotNoise| == 4 && forall i :: 0 <= i < 4 ==> -0.005 <= shotNoise[i] <= 0.005
  }

  function SumReal(s: seq<real>): real {
    if s == [] then 0.0 else SumReal(s[..|s| - 1]) + s[|s| - 1]
  }

  /** The perturbed weights `max(0, v + noise)`; each is at least 0.005 because every base weight is at least 0.01. */
  function ShotWeights(biased: bool, shotNoise: seq<real>): (w: seq<real>)
    requires ShotNoiseInRange(shotNoise)
    ensures |w| == 4 && forall i :: 0 <= i < 4 ==> w[i] >= 0.005
  {
    var base := BaseProbabilities(biased);
    seq(4, i requires 0 <= i < 4 => MaxReal(0.0, base[i] + shotNoise[i]))
  }

  lemma SumOfFour(s: seq<real>)
    requires |s| == 4
    ensures SumReal(s) == s[0] + s[1] + s[2] + s[3]
  {
    assert s[..3][..2] == s[..2] && s[..2][..1] == s[..1] && s[..1][..0] == [];
    assert SumReal(s[..1]) == s[0];
    assert SumReal(s[..2]) == s[0] + s[1];
    assert SumReal(s[..3]) == s[0] + s[1] + s[2];
  }

  /** The distribution `_simulate_quantum_probabilities` returns: the weights divided by their total. */
  function QuantumProbabilities(biased: bool, shotNoise: seq<real>): (r: seq<Outcome>)
    requires ShotNoiseInRange(shotNoise)
    ensures |r| == 4 && forall i :: 0 <= i < 4 ==> r[i].state == StateLabels[i]
  {
    var w := ShotWeights(biased, shotNoise);
    SumOfFour(w);
    Normalise(w, SumReal(w))
  }

  /** Each weight divided by the total, labelled with its basis state. */
  function Normalise(w: seq<real>, total: real): (r: seq<Outcome>)
    requires |w| == 4 && total != 0.0
    ensures |r| == 4 && forall i :: 0 <= i < 4 ==> r[i].state == StateLabels[i]
  {
    seq(4, i requires 0 <= i < 4 => Outcome(StateLabels[i], w[i] / total))
  }

  /** The loop of `_simulate_quantum_probabilities`: perturb each weight, keep a running total, then normalise. */
  method SimulateQuantumProbabilities(biased: bool, shotNoise: seq<real>) returns (probs: seq<Outcome>)
    requires ShotNoiseInRange(shotNoise)
    ensures probs == QuantumProbabilities(biased, shotNoise)
  {
    var base := BaseProbabilities(biased);
    var weights: seq<real> := [];
    var total := 0.0;
    var k := 0;
    while k < 4
      invariant 0 <= k <= 4
      invariant weights == ShotWeights(biased, shotNoise)[..k]
      invariant total == SumReal(weights)
    {
      var v := MaxReal(0.0, base[k] + shotNoise[k]);
      assert (weights + [v])[..k] == weights;
      weights := weights + [v];
      total := total + v;
      k := k + 1;
    }
    assert weights == ShotWeights(biased, shotNoise);
    SumOfFour(weights);
    probs := Normalise(weights, total);
  }

  function Probabilities(outcomes: seq<Outcome>): seq<real> {
    seq(|outcomes|, i requires 0 <= i < |outcomes| => outcomes[i].probability)
  }

  /**
   * The distribution is a distribution: every probability is in (0, 1] and
   * they sum to 1. The dominant state is |10> when biased and |00> otherwise,
   * whatever the shot noise.
   */
  lemma QuantumProbabilitiesSpec(biased: bool, shotNoise: seq<real>)
    requires ShotNoiseInRange(shotNoise)
    ensures var p := Probabilities(QuantumProbabilities(biased, shotNoise));
      && |p| == 4
      && (forall i :: 0 <= i < 4 ==> 0.0 < p[i] <= 1.0)
      && SumReal(p) == 1.0
      && var top := if biased then 2 else 0;
         forall j :: 0 <= j < 4 && j != top ==> p[j] < p[top]
  {
    var w := ShotWeights(biased, shotNoise);
    SumOfFour(w);
    var p := Probabilities(QuantumProbabilities(biased, shotNoise));
    SumOfFour(p);
    DominantWeight(biased, shotNoise);
    Normalised(w, p, if biased then 2 else 0);
  }

  /** Dividing four positive weights by their total. */
  lemma Normalised(w: seq<real>, p: seq<real>, top: nat)
    requires |w| == 4 && |p| == 4 && top < 4
    requires forall i :: 0 <= i < 4 ==> w[i] > 0.0
    requires forall i :: 0 <= i < 4 ==> p[i] == w[i] / (w[0] + w[1] + w[2] + w[3])
    requires forall j :: 0 <= j < 4 && j != top ==> w[j] < w[top]
    ensures forall i :: 0 <= i < 4 ==> 0.0 < p[i] <= 1.0
    ensures p[0] + p[1] + p[2] + p[3] == 1.0
    ensures forall j :: 0 <= j < 4 && j != top ==> p[j] < p[top]
  {
    var t := w[0] + w[1] + w[2] + w[3];
    forall i | 0 <= i < 4 ensures 0.0 < p[i] <= 1.0 {
      DivideWithin(w[i], t);
    }
    SumDivided(w[0], w[1], w[2], w[3], t);
    assert p[0] + p[1] + p[2] + p[3] == t / t;
    DivideSelf(t);
    forall j | 0 <= j < 4 && j != top ensures p[j] < p[top] {
      DivideMonotone(w[j], w[top], t);
    }
  }

  /** The state the bias selects outweighs every other state after the shot noise. */
  lemma DominantWeight(biased: bool, shotNoise: seq<real>)
    requires ShotNoiseInRange(shotNoise)
    ensures var w, top := ShotWeights(biased, shotNoise), if biased then 2 else 0;
      forall j :: 0 <= j < 4 && j != top ==> w[j] < w[top]
  {
  }

  lemma SumDivided(a: real, b: real, c: real, d: real, t: real)
    requires t > 0.0
    ensures a / t + b / t + c / t + d / t == (a + b + c + d) / t
  {
  }

  lemma DivideSelf(t: real)
    requires t > 0.0
    ensures t / t == 1.0
  {
  }

  lemma DivideWithin(a: real, t: real)
    requires 0.0 < a <= t
    ensures 0.0 < a / t <= 1.0
  {
  }

  lemma DivideMonotone(a: real, b: real, t: real)
    requires a < b && t > 0.0
    ensures a / t < b / t
  {
  }

  // ---- Screening, Hamiltonian, benchmark ---------------------------------

  /** `np.clip(x, lo, hi)`. */
  function Clip(x: real, lo: real, hi: real): real {
    MinReal(MaxReal(x, lo), hi)
  }

  /** The screening probability: 0.85 or 0.15 plus the draw, clipped to [0.70, 0.98] or [0.02, 0.35]. */
  function QsvcProbability(isFraud: bool, variation: real): (p: real)
    ensures isFraud ==> 0.70 <= p <= 0.98
    ensures !isFraud ==> 0.02 <= p <= 0.35
    ensures p > 0.5 <==> isFraud
  {
    if isFraud then Clip(0.85 + variation, 0.70, 0.98) else Clip(0.15 + variation, 0.02, 0.35)
  }

  function Decision(probability: real): string {
    if probability > 0.5 then "Suspicious" else "Safe"
  }

  datatype Coeffs = Coeffs(zi: real, iz: real, zz: real)

  datatype HTerm = HTerm(term: string, coeff: real, desc: string)

  /** The reconstructed Hamiltonian terms: the ZI coefficient carries the bias `4 p` when `p > 0.5`. */
  function HamiltonianTerms(base: Coeffs, qsvcProb: real): (h: seq<HTerm>)
    ensures |h| == 3 && h[0].term == "ZI" && h[1].term == "IZ" && h[2].term == "ZZ"
    ensures h[0].coeff == base.zi + (if qsvcProb > 0.5 then qsvcProb * 4.0 else 0.0)
    ensures h[1].coeff == base.iz && h[2].coeff == base.zz
  {
    var zi := if qsvcProb > 0.5 then base.zi + qsvcProb * 4.0 else base.zi;
    [HTerm("ZI", zi, "Qubit 1 Bias"), HTerm("IZ", base.iz, "Qubit 2 Bias"), HTerm("ZZ", base.zz, "Entanglement Cost")]
  }

  datatype Benchmark = Benchmark(xgboostProbability: real, modelName: string, blindspotDetected: bool)

  datatype Qsvc = Qsvc(probability: real, decision: string)

  datatype VqeReport = VqeReport(
    energy: real,
    riskScore: real,
    status: RiskStatus,
    probabilities: seq<Outcome>,
    hamiltonian: seq<HTerm>,
    frustrationEnergy: real,
    circuitDepth: nat)

  /** The forensic bundle `process_transaction_full` returns. */
  datatype Analysis = Analysis(transaction: TxData, topology: Topology, qsvc: Qsvc, vqe: VqeReport, benchmark: Benchmark)

  /** The random draws of one pipeline run and the projection `vector @ projection_matrix`. */
  datatype Noise = Noise(qsvcVariation: real, vqeNoise: real, shotNoise: seq<real>, xgboost: real, coeffs: Coeffs)

  /** The ranges the random draws come from, as far as the model relies on them. */
  predicate NoiseInRange(noise: Noise) {
    ShotNoiseInRange(noise.shotNoise)
  }

  /**
   * What the pipeline promises about the bundle for index `idx` under the
   * draws `noise`: the record and the topology of row `idx % n`, a QSVC
   * decision "Suspicious" exactly on fraud, the energy forecast and its
   * risk band, the measured distribution, the Hamiltonian terms and the
   * blind-spot flag (fraud that the vector model scores below 0.5).
   */
  predicate AnalysisOf(ds: Dataset, idx: nat, noise: Noise, a: Analysis)
    requires Loaded(ds) && NoiseInRange(noise)
  {
    && a.transaction == GetTransaction(ds, idx)
    && TopologyOf(ds.rows[Wrap(idx, |ds.rows|)], a.topology)
    && a.qsvc.probability == QsvcProbability(a.transaction.isFraud, noise.qsvcVariation)
    && (a.qsvc.decision == "Suspicious" <==> a.transaction.isFraud)
    && a.vqe.energy == (if a.transaction.isFraud then -2.5 else 2.0) + noise.vqeNoise
    && Risk(a.vqe.status, a.vqe.riskScore) == RiskOfEnergy(a.vqe.energy)
    && a.vqe.probabilities == QuantumProbabilities(a.transaction.isFraud, noise.shotNoise)
    && a.vqe.hamiltonian == HamiltonianTerms(noise.coeffs, a.qsvc.probability)
    && a.vqe.hamiltonian[0].coeff == noise.coeffs.zi + (if a.transaction.isFraud then a.qsvc.probability * 4.0 else 0.0)
    && a.vqe.frustrationEnergy == a.vqe.energy && a.vqe.circuitDepth == 15
    && a.benchmark.xgboostProbability == noise.xgboost
    && (a.benchmark.blindspotDetected <==> a.transaction.isFraud && noise.xgboost < 0.5)
  }

  /**
   * The pipeline with the topology taken from row `idx % n`, the same row
   * `get_transaction` reads: the corrected form of `process_transaction_full`.
   */
  method ProcessTransactionWrapped(ds: Dataset, idx: nat, noise: Noise) returns (a: Analysis)
    requires Loaded(ds) && NoiseInRange(noise)
    ensures AnalysisOf(ds, idx, noise, a)
  {
    var tx := GetTransaction(ds, idx);
    var prob := QsvcProbability(tx.isFraud, noise.qsvcVariation);
    var forecast := RunVqeForecast(prob, noise.vqeNoise);
    var probabilities := SimulateQuantumProbabilities(forecast.biasActive, noise.shotNoise);
    var topology := GetTransactionTopology(ds.rows[Wrap(idx, |ds.rows|)]);
    var vqe := VqeReport(forecast.energy, forecast.riskScore, forecast.status, probabilities,
                         HamiltonianTerms(noise.coeffs, prob), forecast.energy, 15);
    var benchmark := Benchmark(noise.xgboost, "XGBoost (Vector-Based)", tx.isFraud && noise.xgboost < 0.5);
    a := Analysis(tx, topology, Qsvc(prob, Decision(prob)), vqe, benchmark);
  }

  /**
   * `process_transaction_full(idx)` as written: the record wraps modulo n,
   * but the topology step reads `details.iloc[idx]` with the unwrapped
   * index, which raises IndexError (`None`) for `idx >= n`.
   */
  method ProcessTransactionFull(ds: Dataset, idx: nat, noise: Noise) returns (r: Option<Analysis>)
    requires Loaded(ds) && NoiseInRange(noise)
    ensures r.None? <==> idx >= |ds.rows|
    ensures r.Some? ==> AnalysisOf(ds, idx, noise, r.value)
  {
    if idx < |ds.rows| {
      var a := ProcessTransactionWrapped(ds, idx, noise);
      r := Some(a);
    } else {
      r := None;
    }
  }

  /** `get_forensic_details(tx_id)`: parse and bounds-check the id, then run the pipeline. */
  method GetForensicDetails(ds: Dataset, txId: string, noise: Noise) returns (r: Option<Analysis>)
    requires Loaded(ds) && NoiseInRange(noise)
    ensures r.Some? <==> ParseTxIndex(txId, |ds.rows|).Some?
    ensures r.Some? ==> AnalysisOf(ds, ParseTxIndex(txId, |ds.rows|).value, noise, r.value)
    ensures r.Some? ==> ParseTxIndex(r.value.transaction.id, |ds.rows|) == ParseTxIndex(txId, |ds.rows|)
  {
    match ParseTxIndex(txId, |ds.rows|)
    case None =>
      r := None;
    case Some(idx) =>
      GetTransactionInRange(ds, idx);
      TxIdRoundTrip(idx, |ds.rows|);
      var a := ProcessTransactionWrapped(ds, idx, noise);
      r := Some(a);
  }
}
