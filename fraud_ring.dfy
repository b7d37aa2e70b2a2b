/**
 * The fraud-ring display: a copy of the ring's transactions, each given
 * the display time its edge is mapped to (if any), then ordered by the
 * position of its edge in a fixed display order. The comparator sort is
 * stable, so transactions of equal rank keep their input order.
 */
module FraudRing {
  import opened Seqs

  datatype RingTx = RingTx(id: string, sender: string, receiver: string, amount: real, time: string)

  /** `${from}->${to}`. */
  function EdgeKey(tx: RingTx): string {
    tx.sender + "->" + tx.receiver
  }

  const DesiredTimes: map<string, string> := map[
    "C11475->C99882" := "12:06 PM",
    "C99882->C44391" := "12:00 PM",
    "C44391->C77234" := "11:30 PM",
    "C77234->C88445" := "11:06 PM"]

  const DesiredOrder: seq<string> := ["C11475->C99882", "C99882->C44391", "C44391->C77234", "C77234->C88445"]

  /** `{ ...tx, time: times[key] ?? tx.time }`. */
  function Retime(tx: RingTx, times: map<string, string>): (r: RingTx)
    ensures r.id == tx.id && r.sender == tx.sender && r.receiver == tx.receiver && r.amount == tx.amount
    ensures EdgeKey(tx) in times ==> r.time == times[EdgeKey(tx)]
    ensures EdgeKey(tx) !in times ==> r.time == tx.time
  {
    var key := EdgeKey(tx);
    tx.(time := if key in times then times[key] else tx.time)
  }

  /** `order.indexOf(key)`: the first position of `key`, or -1. */
  function IndexOf(order: seq<string>, key: string): (r: int)
    ensures -1 <= r < |order|
    ensures r == -1 <==> key !in order
    ensures r >= 0 ==> order[r] == key && forall j :: 0 <= j < r ==> order[j] != key
  {
    if order == [] then -1
    else if order[0] == key then 0
    else var k := IndexOf(order[1..], key); if k == -1 then -1 else k + 1
  }

  function Rank(tx: RingTx): int {
    IndexOf(DesiredOrder, EdgeKey(tx))
  }

  /** The transactions of rank `k`. */
  function HasRank<T>(rank: T -> int, k: int): T -> bool {
    (t: T) => rank(t) == k
  }

  predicate SortedBy<T>(s: seq<T>, rank: T -> int) {
    forall i, j :: 0 <= i < j < |s| ==> rank(s[i]) <= rank(s[j])
  }

  /** Places `x` in front of the first element whose rank is not smaller than its own. */
  function Insert<T>(x: T, s: seq<T>, rank: T -> int): (r: seq<T>)
    ensures |r| == |s| + 1
    ensures multiset(r) == multiset([x] + s)
  {
    if s == [] || rank(x) <= rank(s[0]) then [x] + s
    else
      var rest := Insert(x, s[1..], rank);
      assert s == [s[0]] + s[1..];
      [s[0]] + rest
  }

  /** The stable sort of the comparator `rank(a) - rank(b)`. */
  function SortBy<T>(s: seq<T>, rank: T -> int): (r: seq<T>)
    ensures |r| == |s|
    ensures multiset(r) == multiset(s)
  {
    if s == [] then []
    else
      var sorted := SortBy(s[1..], rank);
      assert s == [s[0]] + s[1..];
      Insert(s[0], sorted, rank)
  }

  function Retimed(ring: seq<RingTx>): (r: seq<RingTx>)
    ensures |r| == |ring| && forall i :: 0 <= i < |ring| ==> r[i] == Retime(ring[i], DesiredTimes)
  {
    seq(|ring|, i requires 0 <= i < |ring| => Retime(ring[i], DesiredTimes))
  }

  function AdjustedFraudRing(ring: seq<RingTx>): seq<RingTx> {
    SortBy(Retimed(ring), Rank)
  }

  /** A lower bound on the ranks of `x` and of `s` bounds every rank of `Insert(x, s)`. */
  lemma {:induction false} InsertBound<T>(x: T, s: seq<T>, rank: T -> int, b: int)
    requires b <= rank(x) && forall i :: 0 <= i < |s| ==> b <= rank(s[i])
    ensures forall i :: 0 <= i < |Insert(x, s, rank)| ==> b <= rank(Insert(x, s, rank)[i])
    decreases |s|
  {
    if !(s == [] || rank(x) <= rank(s[0])) {
      InsertBound(x, s[1..], rank, b);
    }
  }

  lemma {:induction false} InsertSorted<T>(x: T, s: seq<T>, rank: T -> int)
    requires SortedBy(s, rank)
    ensures SortedBy(Insert(x, s, rank), rank)
    decreases |s|
  {
    var r := Insert(x, s, rank);
    if !(s == [] || rank(x) <= rank(s[0])) {
      InsertSorted(x, s[1..], rank);
      InsertBound(x, s[1..], rank, rank(s[0]));
      var rest := Insert(x, s[1..], rank);
      assert r == [s[0]] + rest;
      forall i, j | 0 <= i < j < |r| ensures rank(r[i]) <= rank(r[j]) {
        assert r[j] == rest[j - 1];
        if i > 0 {
          assert r[i] == rest[i - 1];
        }
      }
    } else {
      assert r == [x] + s;
      forall i, j | 0 <= i < j < |r| ensures rank(r[i]) <= rank(r[j]) {
        assert r[j] == s[j - 1];
        if i > 0 {
          assert r[i] == s[i - 1];
        }
      }
    }
  }

  lemma {:induction false} SortSorted<T>(s: seq<T>, rank: T -> int)
    ensures SortedBy(SortBy(s, rank), rank)
    decreases |s|
  {
    if s != [] {
      SortSorted(s[1..], rank);
      InsertSorted(s[0], SortBy(s[1..], rank), rank);
    }
  }

  /** A list already in rank order is left as it is. */
  lemma {:induction false} SortedUnchanged<T>(s: seq<T>, rank: T -> int)
    requires SortedBy(s, rank)
    ensures SortBy(s, rank) == s
    decreases |s|
  {
    if s != [] {
      SortedUnchanged(s[1..], rank);
      assert s == [s[0]] + s[1..];
    }
  }

  /** Inserting `x` leaves the other ranks' sublists alone and puts `x` first among its own rank. */
  lemma {:induction false} FilterInsert<T>(x: T, s: seq<T>, rank: T -> int, k: int)
    ensures Filter(Insert(x, s, rank), HasRank(rank, k)) == Filter([x] + s, HasRank(rank, k))
    decreases |s|
  {
    var p := HasRank(rank, k);
    FilterConcat([x], s, p);
    assert Filter([x], p) == (if p(x) then [x] else []) + Filter([], p);
    if !(s == [] || rank(x) <= rank(s[0])) {
      FilterInsert(x, s[1..], rank, k);
      FilterConcat([s[0]], Insert(x, s[1..], rank), p);
      FilterConcat([x], s[1..], p);
      FilterConcat([s[0]], s[1..], p);
      assert s == [s[0]] + s[1..];
      assert Filter([s[0]], p) == (if p(s[0]) then [s[0]] else []) + Filter([], p);
    }
  }

  lemma {:induction false} SortStable<T>(s: seq<T>, rank: T -> int, k: int)
    ensures Filter(SortBy(s, rank), HasRank(rank, k)) == Filter(s, HasRank(rank, k))
    decreases |s|
  {
    if s != [] {
      SortStable(s[1..], rank, k);
      FilterInsert(s[0], SortBy(s[1..], rank), rank, k);
      var p := HasRank(rank, k);
      FilterConcat([s[0]], SortBy(s[1..], rank), p);
      FilterConcat([s[0]], s[1..], p);
      assert s == [s[0]] + s[1..];
    }
  }

  /**
   * The display list: the retimed ring, permuted, in non-decreasing rank
   * (unlisted edges, rank -1, first), with each rank's transactions in
   * their input order.
   */
  lemma AdjustedFraudRingSpec(ring: seq<RingTx>, k: int)
    ensures |AdjustedFraudRing(ring)| == |ring|
    ensures multiset(AdjustedFraudRing(ring)) == multiset(Retimed(ring))
    ensures SortedBy(AdjustedFraudRing(ring), Rank)
    ensures Filter(AdjustedFraudRing(ring), HasRank(Rank, k)) == Filter(Retimed(ring), HasRank(Rank, k))
  {
    SortSorted(Retimed(ring), Rank);
    SortStable(Retimed(ring), Rank, k);
  }

  /** A listed edge outranks, and so follows, every unlisted one. */
  lemma UnlistedFirst(s: seq<RingTx>, i: nat, j: nat)
    requires SortedBy(s, Rank) && i < |s| && j < |s|
    requires EdgeKey(s[i]) !in DesiredOrder && EdgeKey(s[j]) in DesiredOrder
    ensures i < j
  {
  }

  /** The demonstration ring of the page. */
  const DemoRingInput: seq<RingTx> := [
    RingTx("TX-1001", "C11475", "C99882", 5000.0, "12:03 PM"),
    RingTx("TX-1002", "C99882", "C44391", 4800.0, "12:04 PM"),
    RingTx("TX-1003", "C44391", "C77234", 4600.0, "12:05 PM"),
    RingTx("TX-1004", "C77234", "C88445", 4400.0, "12:06 PM")]

  const DemoRingShown: seq<RingTx> := [
    RingTx("TX-1001", "C11475", "C99882", 5000.0, "12:06 PM"),
    RingTx("TX-1002", "C99882", "C44391", 4800.0, "12:00 PM"),
    RingTx("TX-1003", "C44391", "C77234", 4600.0, "11:30 PM"),
    RingTx("TX-1004", "C77234", "C88445", 4400.0, "11:06 PM")]

  lemma DemoEdge(i: nat)
    requires i < 4
    ensures EdgeKey(DemoRingInput[i]) == DesiredOrder[i] && EdgeKey(DemoRingShown[i]) == DesiredOrder[i]
    ensures Retime(DemoRingInput[i], DesiredTimes) == DemoRingShown[i]
    ensures Rank(DemoRingShown[i]) == i
  {
    assert DesiredOrder[i] in DesiredTimes;
  }

  /** The demonstration ring is already in display order, so only the times change. */
  lemma DemoRing()
    ensures AdjustedFraudRing(DemoRingInput) == DemoRingShown
  {
    DemoRetimed();
    SortedUnchanged(DemoRingShown, Rank);
  }

  /** An element ranked above all of `t` goes to the end. */
  lemma {:induction false} InsertLast<T>(x: T, t: seq<T>, rank: T -> int)
    requires forall i :: 0 <= i < |t| ==> rank(t[i]) < rank(x)
    ensures Insert(x, t, rank) == t + [x]
    decreases |t|
  {
    if t != [] {
      InsertLast(x, t[1..], rank);
      assert t == [t[0]] + t[1..];
    }
  }

  /** A list in strictly decreasing rank comes out back to front. */
  lemma {:induction false} SortDescending<T>(s: seq<T>, rank: T -> int)
    requires forall i, j :: 0 <= i < j < |s| ==> rank(s[i]) > rank(s[j])
    ensures SortBy(s, rank) == Reverse(s)
    decreases |s|
  {
    if s != [] {
      var tail := s[1..];
      SortDescending(tail, rank);
      forall i | 0 <= i < |tail| ensures rank(Reverse(tail)[i]) < rank(s[0]) {
        ReverseAt(tail, i);
        assert Reverse(tail)[i] == s[|tail| - i];
      }
      InsertLast(s[0], Reverse(tail), rank);
    }
  }

  /** A list in strictly increasing rank is recovered from its reversal. */
  lemma SortReversed<T>(s: seq<T>, rank: T -> int)
    requires forall i, j :: 0 <= i < j < |s| ==> rank(s[i]) < rank(s[j])
    ensures SortBy(Reverse(s), rank) == s
  {
    forall i, j | 0 <= i < j < |s| ensures rank(Reverse(s)[i]) > rank(Reverse(s)[j]) {
      ReverseAt(s, i);
      ReverseAt(s, j);
    }
    SortDescending(Reverse(s), rank);
    ReverseInvolutive(s);
  }

  /** Re-timing is done element by element, so it commutes with reversal. */
  lemma RetimedReverse(ring: seq<RingTx>)
    ensures Retimed(Reverse(ring)) == Reverse(Retimed(ring))
  {
    forall i | 0 <= i < |ring| ensures Retimed(Reverse(ring))[i] == Reverse(Retimed(ring))[i] {
      ReverseAt(ring, i);
      ReverseAt(Retimed(ring), i);
    }
  }

  /** The demonstration ring re-timed, and the strictly increasing ranks of the result. */
  lemma DemoRetimed()
    ensures Retimed(DemoRingInput) == DemoRingShown
    ensures forall i, j :: 0 <= i < j < |DemoRingShown| ==> Rank(DemoRingShown[i]) < Rank(DemoRingShown[j])
  {
    forall i | 0 <= i < 4 ensures Retimed(DemoRingInput)[i] == DemoRingShown[i] && Rank(DemoRingShown[i]) == i {
      DemoEdge(i);
    }
  }

  /** The same ring listed back to front is put into display order, with the display times. */
  lemma DemoRingReversed()
    ensures AdjustedFraudRing(Reverse(DemoRingInput)) == DemoRingShown
  {
    RetimedReverse(DemoRingInput);
    DemoRetimed();
    SortReversed(DemoRingShown, Rank);
  }
}
