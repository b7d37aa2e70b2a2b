/**
 * The transaction explorer: a case-insensitive search over the listing's
 * records and three summary figures that are always taken over the
 * whole listing, whatever the search.
 */
module Explorer {
  import opened Text
  import opened Seqs
  import opened Backend

  /** The search rule: the lower-cased query occurs in the lower-cased id, source or destination. */
  predicate Matches(tx: TxRecord, query: string) {
    var q := ToLower(query);
    Contains(ToLower(tx.id), q) || Contains(ToLower(tx.source), q) || Contains(ToLower(tx.destination), q)
  }

  function FilteredData(data: seq<TxRecord>, query: string): seq<TxRecord> {
    Filter(data, (tx: TxRecord) => Matches(tx, query))
  }

  /** A record is shown iff it is in the data and matches; the shown list keeps the data's order. */
  lemma FilteredDataSpec(data: seq<TxRecord>, query: string, tx: TxRecord)
    ensures tx in FilteredData(data, query) <==> tx in data && Matches(tx, query)
    ensures SubsequenceOf(FilteredData(data, query), data)
  {
    FilterMembership(data, (tx: TxRecord) => Matches(tx, query), tx);
    FilterIsSubsequence(data, (tx: TxRecord) => Matches(tx, query));
  }

  /** The three lower-cased fields the search looks in. */
  function SearchedFields(tx: TxRecord): seq<string> {
    [ToLower(tx.id), ToLower(tx.source), ToLower(tx.destination)]
  }

  /** An occurrence of the lower-cased query in a searched field makes the record match. */
  lemma MatchesAt(tx: TxRecord, query: string, f: nat, k: nat)
    requires f < 3
    requires var q, hay := ToLower(query), SearchedFields(tx)[f]; k + |q| <= |hay| && hay[k..k + |q|] == q
    ensures Matches(tx, query)
  {
    ContainsAt(SearchedFields(tx)[f], ToLower(query), k);
  }

  /** Conversely, every match has such an occurrence. */
  lemma MatchesWitness(tx: TxRecord, query: string) returns (f: nat, k: nat)
    requires Matches(tx, query)
    ensures f < 3
    ensures var q, hay := ToLower(query), SearchedFields(tx)[f]; k + |q| <= |hay| && hay[k..k + |q|] == q
  {
    var fields := SearchedFields(tx);
    f := if Contains(fields[0], ToLower(query)) then 0 else if Contains(fields[1], ToLower(query)) then 1 else 2;
    k := ContainsWitness(fields[f], ToLower(query));
  }

  lemma EmptyQueryKeepsAll(data: seq<TxRecord>)
    ensures FilteredData(data, "") == data
  {
    forall i | 0 <= i < |data| ensures Matches(data[i], "") {
      assert IsPrefix(ToLower(""), ToLower(data[i].id));
    }
    FilterAll(data, (tx: TxRecord) => Matches(tx, ""));
  }

  /** Queries that differ only in the case of their ASCII letters show the same records. */
  lemma CaseInsensitive(data: seq<TxRecord>, q1: string, q2: string)
    requires ToLower(q1) == ToLower(q2)
    ensures FilteredData(data, q1) == FilteredData(data, q2)
  {
    FilterCongruent(data, (tx: TxRecord) => Matches(tx, q1), (tx: TxRecord) => Matches(tx, q2));
  }

  lemma LowerCasedQuery(data: seq<TxRecord>, query: string)
    ensures FilteredData(data, ToLower(query)) == FilteredData(data, query)
  {
    ToLowerIdempotent(query);
    CaseInsensitive(data, ToLower(query), query);
  }

  /** The "Total Volume" figure. */
  function TotalVolume(data: seq<TxRecord>): real {
    if data == [] then 0.0 else data[0].amount + TotalVolume(data[1..])
  }

  /** The "Flagged" figure: the number of positions holding a fraud-labelled record. */
  function FlaggedCount(data: seq<TxRecord>): (r: nat)
    ensures r <= |data|
    ensures r == |set i | 0 <= i < |data| && data[i].isFraud|
  {
    var p := (tx: TxRecord) => tx.isFraud;
    FilterCountsIndices(data, p, |data|);
    assert data[..|data|] == data;
    assert Positions(data, p, |data|) == set i | 0 <= i < |data| && data[i].isFraud;
    |Filter(data, p)|
  }

  /** The "Blocked" figure: the number of positions holding a record whose status is BLOCKED. */
  function BlockedCount(data: seq<TxRecord>): (r: nat)
    ensures r <= |data|
    ensures r == |set i | 0 <= i < |data| && data[i].status == "BLOCKED"|
  {
    var p := (tx: TxRecord) => tx.status == "BLOCKED";
    FilterCountsIndices(data, p, |data|);
    assert data[..|data|] == data;
    assert Positions(data, p, |data|) == set i | 0 <= i < |data| && data[i].status == "BLOCKED";
    |Filter(data, p)|
  }

  /** The volume of the whole listing is the volume of every search result plus that of the records it hides. */
  lemma {:induction false} VolumeSplitsBySearch(data: seq<TxRecord>, query: string)
    ensures TotalVolume(data)
         == TotalVolume(FilteredData(data, query)) + TotalVolume(Filter(data, (tx: TxRecord) => !Matches(tx, query)))
    decreases |data|
  {
    if data != [] {
      VolumeSplitsBySearch(data[1..], query);
      var p := (tx: TxRecord) => Matches(tx, query);
      var np := (tx: TxRecord) => !Matches(tx, query);
      assert data == [data[0]] + data[1..];
      FilterConcat([data[0]], data[1..], p);
      FilterConcat([data[0]], data[1..], np);
      assert Filter([data[0]], p) == (if p(data[0]) then [data[0]] else []) + Filter([], p);
      assert Filter([data[0]], np) == (if np(data[0]) then [data[0]] else []) + Filter([], np);
      VolumeConcat(Filter([data[0]], p), Filter(data[1..], p));
      VolumeConcat(Filter([data[0]], np), Filter(data[1..], np));
    }
  }

  lemma {:induction false} VolumeConcat(a: seq<TxRecord>, b: seq<TxRecord>)
    ensures TotalVolume(a + b) == TotalVolume(a) + TotalVolume(b)
    decreases |a|
  {
    if a != [] {
      assert (a + b)[1..] == a[1..] + b;
      VolumeConcat(a[1..], b);
    } else {
      assert a + b == b;
    }
  }

  /** No search shows more flagged or blocked records than the figures count over the whole listing. */
  lemma CountsBoundSearch(data: seq<TxRecord>, query: string)
    ensures FlaggedCount(FilteredData(data, query)) <= FlaggedCount(data)
    ensures BlockedCount(FilteredData(data, query)) <= BlockedCount(data)
  {
    var m := (tx: TxRecord) => Matches(tx, query);
    FilterCommute(data, m, (tx: TxRecord) => tx.isFraud);
    FilterCommute(data, m, (tx: TxRecord) => tx.status == "BLOCKED");
  }
}
