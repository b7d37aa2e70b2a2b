/**
 * The investigation workspace: a PICKER list of live transactions and a
 * LAB that walks one forensic bundle through five steps (ingestion,
 * topology, screen, energy solver, verdict) and ends in a disposition.
 * The fetch is delivered as its outcome; the browser's storage is the
 * field `stored`.
 */
module Investigation {
  import opened Wrappers
  import opened Seqs
  import opened Engine
  import opened Backend
  import opened RiskStream

  datatype Mode = Picker | Lab

  /** What the investigate request ends in: a failed transport, a non-ok status, or a body. */
  datatype FetchOutcome = TransportError | HttpError(status: int) | Body(response: InvestigateResponse)

  /** The LAB controls that have a click handler. */
  datatype Button = BackToList | Previous | Next | CloseCase | BlockAccount | ApproveAndClear

  const LastStep: int := 4
  const CacheKey: string := "janus_investigation_cache"

  /** Whether button `b` is on screen and clickable, given the view state; the PICKER shows none of them. */
  predicate Offered(b: Button, mode: Mode, step: int, data: Option<Analysis>) {
    && mode == Lab
    && match b
       case BackToList => true
       case Previous => step != 0
       case Next => step < LastStep
       case CloseCase => step >= LastStep
       case BlockAccount => step == LastStep && data.Some? && data.value.transaction.isFraud
       case ApproveAndClear => step == LastStep && data.Some? && !data.value.transaction.isFraud
  }

  /** At the verdict exactly one disposition is offered, and which one is decided by the fraud flag. */
  lemma DispositionExclusive(data: Analysis)
    ensures Offered(BlockAccount, Lab, LastStep, Some(data)) <==> data.transaction.isFraud
    ensures Offered(ApproveAndClear, Lab, LastStep, Some(data)) <==> !data.transaction.isFraud
    ensures !Offered(Next, Lab, LastStep, Some(data)) && Offered(CloseCase, Lab, LastStep, Some(data))
  {
  }

  /** From every interior step Next leads to a step where Previous is offered and returns, and back. */
  lemma NavigationRoundTrip(step: int, data: Option<Analysis>)
    requires 0 <= step < LastStep
    ensures Offered(Next, Lab, step, data) && Offered(Previous, Lab, step + 1, data)
    ensures !Offered(Previous, Lab, 0, data) && !Offered(Next, Lab, LastStep, data)
  {
  }

  /**
   * The picker's "not yet investigated" list: the live transactions whose
   * ids are not cache keys. The page tests `!investigatedCache[tx.id]`;
   * every stored value is a forensic-data object, so a lookup is truthy
   * exactly when the id is a key.
   */
  function VisibleTransactions(transactions: seq<StoredTx>, cache: map<string, Analysis>): seq<StoredTx> {
    Filter(transactions, (t: StoredTx) => t.tx.id !in cache)
  }

  /** The visible list keeps the order of the live list and holds exactly its uncached entries. */
  lemma VisibleTransactionsSpec(transactions: seq<StoredTx>, cache: map<string, Analysis>, t: StoredTx)
    ensures SubsequenceOf(VisibleTransactions(transactions, cache), transactions)
    ensures t in VisibleTransactions(transactions, cache) <==> t in transactions && t.tx.id !in cache
  {
    var p := (t: StoredTx) => t.tx.id !in cache;
    FilterIsSubsequence(transactions, p);
    FilterMembership(transactions, p, t);
  }

  /** With an empty cache nothing is hidden. */
  lemma VisibleWithEmptyCache(transactions: seq<StoredTx>)
    ensures VisibleTransactions(transactions, map[]) == transactions
  {
    var empty: map<string, Analysis> := map[];
    FilterAll(transactions, (t: StoredTx) => t.tx.id !in empty);
  }

  class Workspace {
    var mode: Mode
    var selectedTx: Option<string>
    var data: Option<Analysis>
    var step: int
    var cache: map<string, Analysis>
    /** The value kept by the browser under `CacheKey`. */
    var stored: Option<map<string, Analysis>>

    ghost predicate Valid()
      reads this
    {
      && 0 <= step <= LastStep
      && (mode == Lab ==> data.Some?)
    }

    /** The initial view; the cache starts as the stored value, or empty when there is none. */
    constructor (saved: Option<map<string, Analysis>>)
      ensures Valid()
      ensures mode == Picker && selectedTx == None && data == None && step == 0
      ensures cache == (if saved.Some? then saved.value else map[]) && stored == saved
    {
      mode := Picker;
      selectedTx := None;
      data := None;
      step := 0;
      cache := if saved.Some? then saved.value else map[];
      stored := saved;
    }

    /**
     * Opening a case: the id is selected at once; only a body without an
     * error field opens the LAB at step 0, anything else raises an alert
     * and leaves the view as it was.
     */
    method StartInvestigation(id: string, outcome: FetchOutcome) returns (alert: Option<string>)
      requires Valid()
      modifies this`selectedTx, this`data, this`mode, this`step
      ensures Valid()
      ensures selectedTx == Some(id)
      ensures outcome.Body? && outcome.response.Found? ==>
        && data == Some(outcome.response.analysis) && mode == Lab && step == 0 && alert == None
      ensures outcome.Body? && outcome.response.NotFound? ==>
        && data == old(data) && mode == old(mode) && step == old(step)
        && alert == Some("Error: " + outcome.response.error)
      ensures !outcome.Body? ==>
        && data == old(data) && mode == old(mode) && step == old(step)
        && alert == Some("Failed to load forensic data. Check console.")
    {
      selectedTx := Some(id);
      match outcome
      case Body(NotFound(error)) =>
        alert := Some("Error: " + error);
      case Body(Found(d)) =>
        data := Some(d);
        mode := Lab;
        step := 0;
        alert := None;
      case _ =>
        alert := Some("Failed to load forensic data. Check console.");
    }

    method ClickPrevious()
      requires Valid()
      modifies this`step
      ensures Valid()
      ensures step == if Offered(Previous, mode, old(step), data) then old(step) - 1 else old(step)
    {
      if Offered(Previous, mode, step, data) {
        step := step - 1;
      }
    }

    method ClickNext()
      requires Valid()
      modifies this`step
      ensures Valid()
      ensures step == if Offered(Next, mode, old(step), data) then old(step) + 1 else old(step)
    {
      if Offered(Next, mode, step, data) {
        step := step + 1;
      }
    }

    /** "Back to List" and "Close Case" both return to the PICKER and keep the bundle and the step. */
    method ClickLeave(b: Button)
      requires Valid() && (b == BackToList || b == CloseCase)
      modifies this`mode
      ensures Valid()
      ensures mode == if Offered(b, old(mode), step, data) then Picker else old(mode)
    {
      if Offered(b, mode, step, data) {
        mode := Picker;
      }
    }

    /** Next, clicked until the verdict is on screen. */
    method StepToVerdict()
      requires Valid() && mode == Lab
      modifies this`step
      ensures Valid() && step == LastStep
    {
      while step < LastStep
        invariant Valid() && mode == Lab
        decreases LastStep - step
      {
        ClickNext();
      }
    }

    /** The fraud verdict: the block request for the bundle's id is posted, then the PICKER returns. */
    method ClickBlock() returns (posted: Option<string>, alert: Option<string>)
      requires Valid()
      modifies this`mode
      ensures Valid()
      ensures Offered(BlockAccount, old(mode), step, data) ==>
        && posted == Some(data.value.transaction.id) && mode == Picker
        && alert == Some("Account " + data.value.transaction.account + " FROZEN.")
      ensures !Offered(BlockAccount, old(mode), step, data) ==> posted == None && alert == None && mode == old(mode)
    {
      if Offered(BlockAccount, mode, step, data) {
        posted := Some(data.value.transaction.id);
        alert := Some("Account " + data.value.transaction.account + " FROZEN.");
        mode := Picker;
      } else {
        posted := None;
        alert := None;
      }
    }

    /** The clear verdict: back to the PICKER, no request. */
    method ClickApprove()
      requires Valid()
      modifies this`mode
      ensures Valid()
      ensures mode == if Offered(ApproveAndClear, old(mode), step, data) then Picker else old(mode)
    {
      if Offered(ApproveAndClear, mode, step, data) {
        mode := Picker;
      }
    }

    /** Records a finished case: only key `id` changes, and the new cache is persisted. */
    method SaveToCache(id: string, d: Analysis)
      requires Valid()
      modifies this`cache, this`stored
      ensures Valid()
      ensures id in cache && cache[id] == d
      ensures cache.Keys == old(cache).Keys + {id}
      ensures forall k :: k in old(cache) && k != id ==> cache[k] == old(cache)[k]
      ensures stored == Some(cache)
    {
      cache := cache[id := d];
      stored := Some(cache);
    }
  }

  /**
   * One case end to end against the server: open it, step to the
   * verdict, and take the offered disposition. A valid fraud id then
   * has its account and its canonical id frozen; an unknown id changes
   * neither the view nor the server's sets.
   */
  method InvestigateAndDecide(w: Workspace, s: Server, id: string, noise: Noise)
    requires w.Valid() && s.Valid() && NoiseInRange(noise)
    modifies w, s
    ensures w.Valid() && s.Valid()
    ensures ParseTxIndex(id, |s.ds.rows|).None? ==>
      && w.mode == old(w.mode) && w.data == old(w.data) && w.step == old(w.step)
      && s.blockedAccounts == old(s.blockedAccounts) && s.blockedIds == old(s.blockedIds)
    ensures ParseTxIndex(id, |s.ds.rows|).Some? ==>
      var i := ParseTxIndex(id, |s.ds.rows|).value;
      && w.mode == Picker && w.step == LastStep
      && (s.ds.rows[i].fraudLabel == 1 ==>
            && s.ds.rows[i].nameOrig in s.blockedAccounts
            && TxId(i) in s.blockedIds)
      && (s.ds.rows[i].fraudLabel != 1 ==>
            s.blockedAccounts == old(s.blockedAccounts) && s.blockedIds == old(s.blockedIds))
  {
    var response := s.InvestigateTransaction(id, noise);
    assert response.Found? ==> response.analysis.transaction == GetTransaction(s.ds, ParseTxIndex(id, |s.ds.rows|).value);
    var alert := w.StartInvestigation(id, Body(response));
    if response.Found? {
      DecideLoadedCase(w, s, ParseTxIndex(id, |s.ds.rows|).value);
    }
  }

  /**
   * The verdict half of `InvestigateAndDecide`, once the Lab shows the
   * analysis of row `i`: step to the verdict and press the one button on offer.
   */
  method DecideLoadedCase(w: Workspace, s: Server, i: nat)
    requires w.Valid() && s.Valid() && i < |s.ds.rows|
    requires w.mode == Lab && w.data.Some? && w.data.value.transaction == GetTransaction(s.ds, i)
    modifies w, s
    ensures w.Valid() && s.Valid()
    ensures w.mode == Picker && w.step == LastStep
    ensures s.ds.rows[i].fraudLabel == 1 ==>
      && s.ds.rows[i].nameOrig in s.blockedAccounts
      && TxId(i) in s.blockedIds
    ensures s.ds.rows[i].fraudLabel != 1 ==>
      s.blockedAccounts == old(s.blockedAccounts) && s.blockedIds == old(s.blockedIds)
  {
    w.StepToVerdict();
    GetTransactionInRange(s.ds, i);
    if w.data.value.transaction.isFraud {
      var posted, frozen := w.ClickBlock();
      assert posted == Some(TxId(i));
      ListedIdBlocksItsRow(s.ds, i);
      var result := s.BlockTransaction(TxId(i));
    } else {
      w.ClickApprove();
    }
  }
}
