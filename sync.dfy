/** Steps 2 to 4 of `main`: normalize every fetched record, clear the
    destination table, then insert the rows in batches of 500 and count them.
    The Supabase calls are not made; each is recorded in a ghost log. */
module Sync {
  import opened Json
  import opened Numeric
  import opened Normalize
  import opened Batching

  /** The literal batch size of the insert loop. */
  const BatchSize: nat := 500

  /** One call on the destination table. */
  datatype TableCall = DeleteAll | Insert(batch: seq<Row>)

  /** What one call leaves in a table that held `table`. */
  function Apply(table: seq<Row>, call: TableCall): seq<Row> {
    match call
    case DeleteAll => []
    case Insert(b) => table + b
  }

  /** What the table holds after `calls`, made in order, starting from `table`. */
  function Replay(table: seq<Row>, calls: seq<TableCall>): seq<Row>
    decreases |calls|
  {
    if calls == [] then table else Replay(Apply(table, calls[0]), calls[1..])
  }

  /** Making one more call applies it to what the earlier calls left. */
  lemma {:induction false} ReplaySnoc(table: seq<Row>, calls: seq<TableCall>, call: TableCall)
    ensures Replay(table, calls + [call]) == Apply(Replay(table, calls), call)
    decreases |calls|
  {
    if calls != [] {
      assert (calls + [call])[1..] == calls[1..] + [call];
      ReplaySnoc(Apply(table, calls[0]), calls[1..], call);
    } else {
      assert [call][1..] == [];
    }
  }

  /** Inserting batches one after another into an empty table leaves their
      concatenation. */
  lemma {:induction false} ReplayInserts(batches: seq<seq<Row>>)
    ensures Replay([], seq(|batches|, j requires 0 <= j < |batches| => Insert(batches[j])))
      == Flatten(batches)
  {
    if batches != [] {
      var n := |batches| - 1;
      var calls := seq(|batches|, j requires 0 <= j < |batches| => Insert(batches[j]));
      var front := seq(n, j requires 0 <= j < n => Insert(batches[..n][j]));
      assert calls == front + [Insert(batches[n])];
      ReplayInserts(batches[..n]);
      ReplaySnoc([], front, Insert(batches[n]));
    }
  }

  /** The full reload in `main`: clear the table (even when there is
      nothing to insert), insert the rows batch by batch in order, and count
      the rows sent. */
  method Reload(table: seq<Row>) returns (inserted: nat, ghost calls: seq<TableCall>)
    ensures inserted == |table|
    ensures |calls| == 1 + CeilDiv(|table|, BatchSize) && calls[0] == DeleteAll
    ensures forall k :: 1 <= k < |calls| ==> calls[k].Insert? && 0 < |calls[k].batch| <= BatchSize
    ensures forall k :: 1 <= k < |calls| ==> calls[k].batch == Slice(table, BatchSize, k - 1)
    ensures forall k :: 1 <= k < |calls| - 1 ==> |calls[k].batch| == BatchSize
    ensures forall prior :: Replay(prior, calls) == table
  {
    var batches := Chunked(table, BatchSize);
    ghost var inserts: seq<TableCall> := [];
    inserted := 0;
    for k := 0 to |batches|
      invariant inserts == seq(k, j requires 0 <= j < k => Insert(batches[j]))
      invariant inserted == |Flatten(batches[..k])|
    {
      assert batches[..k + 1] == batches[..k] + [batches[k]];
      FlattenAppend(batches[..k], batches[k]);
      inserts := inserts + [Insert(batches[k])];
      inserted := inserted + |batches[k]|;
    }
    assert batches[..|batches|] == batches;
    ReplayInserts(batches);
    calls := [DeleteAll] + inserts;
    assert calls[1..] == inserts;
  }

  /** `main` from the normalization on. `None` is the run that stops inside
      the list comprehension (a fetched element that is not a dict), before
      any call on the table. Otherwise the table ends up holding exactly the
      normalized rows, whatever it held before, and every row is counted. */
  method Sync(parse: Parser, rows: seq<Value>)
    returns (inserted: Option<nat>, ghost calls: seq<TableCall>)
    ensures inserted.None? <==> exists i :: 0 <= i < |rows| && !rows[i].Obj?
    ensures inserted.None? ==> calls == []
    ensures inserted.Some? ==> inserted.value == |rows|
    ensures inserted.Some? ==> |calls| == 1 + CeilDiv(|rows|, BatchSize) && calls[0] == DeleteAll
    ensures inserted.Some? ==> forall prior :: Replay(prior, calls) == NormalizeAll(parse, rows).value
  {
    var normalized := NormalizeAll(parse, rows);
    if normalized.None? {
      return None, [];
    }
    var count;
    count, calls := Reload(normalized.value);
    inserted := Some(count);
  }
}
