/**
  The conversion history (the `conversion_history` table and the routes
  over it in app.py), as a sequence of records in insertion order with an
  auto-incrementing id.

  The database connection, the clock and the date formatting are not part
  of the model: the time and date of a new row are inputs.
 */
module History {
  import opened Optional

  /** One row of `conversion_history`. */
  datatype Record = Record(
    id: nat,
    kind: string,
    input: string,
    output: string,
    confidence: real,
    technique: string,
    duration: real,
    metadata: string,
    timestamp: real,
    date: string)

  /** Row ids grow along the table: SQLite's AUTOINCREMENT never reuses an
      id and new rows go last. */
  predicate IdsIncreasing(rows: seq<Record>)
  {
    forall i, j :: 0 <= i < j < |rows| ==> rows[i].id < rows[j].id
  }

  predicate IdsDecreasing(rows: seq<Record>)
  {
    forall i, j :: 0 <= i < j < |rows| ==> rows[i].id > rows[j].id
  }

  /** The rows satisfying `p`, in their order: a `WHERE` clause. */
  function Where(rows: seq<Record>, p: Record -> bool): (r: seq<Record>)
    ensures |r| <= |rows|
  {
    if rows == [] then []
    else
      var n := |rows| - 1;
      Where(rows[..n], p) + (if p(rows[n]) then [rows[n]] else [])
  }

  /** `ORDER BY id DESC` on a table whose ids grow along it. */
  function NewestFirst(rows: seq<Record>): (r: seq<Record>)
    ensures |r| == |rows|
  {
    if rows == [] then [] else [rows[|rows| - 1]] + NewestFirst(rows[..|rows| - 1])
  }

  /** `LIMIT n`; SQLite reads a negative limit as no limit. */
  function Limit(rows: seq<Record>, n: int): seq<Record>
  {
    if n < 0 || n >= |rows| then rows else rows[..n]
  }

  function OfKind(rows: seq<Record>, kind: string): seq<Record>
  {
    Where(rows, (x: Record) => x.kind == kind)
  }

  function WithoutKind(rows: seq<Record>, kind: string): seq<Record>
  {
    Where(rows, (x: Record) => x.kind != kind)
  }

  function WithoutId(rows: seq<Record>, id: int): seq<Record>
  {
    Where(rows, (x: Record) => x.id != id)
  }

  function Positive(rows: seq<Record>): seq<Record>
  {
    Where(rows, (x: Record) => x.confidence > 0.0)
  }

  /** The default page size of `get_history`. */
  const DefaultLimit: int := 100

  /** `get_history` filters by type only for a type that is given, not
      empty and not `'all'`. */
  predicate FiltersBy(kind: Option<string>)
  {
    kind.Some? && kind.value != "" && kind.value != "all"
  }

  /** The rows `get_history` answers with. */
  function Listing(rows: seq<Record>, limit: Option<int>, kind: Option<string>): seq<Record>
  {
    var matching := if FiltersBy(kind) then OfKind(rows, kind.value) else rows;
    Limit(NewestFirst(matching), if limit.Some? then limit.value else DefaultLimit)
  }

  // ---------------------------------------------------------------------
  // Facts about the building blocks.

  lemma {:induction false} WhereMembers(rows: seq<Record>, p: Record -> bool)
    ensures forall x :: x in Where(rows, p) <==> x in rows && p(x)
  {
    if rows != [] {
      var n := |rows| - 1;
      WhereMembers(rows[..n], p);
      assert rows == rows[..n] + [rows[n]];
    }
  }

  lemma {:induction false} WhereKeepsOrder(rows: seq<Record>, p: Record -> bool)
    requires IdsIncreasing(rows)
    ensures IdsIncreasing(Where(rows, p))
  {
    if rows != [] {
      var n := |rows| - 1;
      WhereKeepsOrder(rows[..n], p);
      WhereMembers(rows[..n], p);
      var front := Where(rows[..n], p);
      forall i | 0 <= i < |front|
        ensures front[i].id < rows[n].id
      {
        assert front[i] in rows[..n];
      }
    }
  }

  lemma {:induction false} NewestFirstMembers(rows: seq<Record>)
    ensures forall x :: x in NewestFirst(rows) <==> x in rows
  {
    if rows != [] {
      var n := |rows| - 1;
      NewestFirstMembers(rows[..n]);
      assert rows == rows[..n] + [rows[n]];
    }
  }

  lemma {:induction false} NewestFirstDecreasing(rows: seq<Record>)
    requires IdsIncreasing(rows)
    ensures IdsDecreasing(NewestFirst(rows))
  {
    if rows != [] {
      var n := |rows| - 1;
      NewestFirstDecreasing(rows[..n]);
      NewestFirstMembers(rows[..n]);
      var rest := NewestFirst(rows[..n]);
      forall i | 0 <= i < |rest|
        ensures rows[n].id > rest[i].id
      {
        assert rest[i] in rows[..n];
      }
    }
  }

  /** Splitting by a condition and its negation loses and duplicates
      nothing. */
  lemma {:induction false} WherePartition(rows: seq<Record>, p: Record -> bool, q: Record -> bool)
    requires forall x :: q(x) == !p(x)
    ensures |Where(rows, p)| + |Where(rows, q)| == |rows|
  {
    if rows != [] {
      WherePartition(rows[..|rows| - 1], p, q);
    }
  }

  // ---------------------------------------------------------------------
  // What the listing promises.

  /** At most `limit` rows when a non-negative limit is given (100 when
      none is). */
  lemma ListingBounded(rows: seq<Record>, limit: Option<int>, kind: Option<string>)
    ensures limit.Some? && limit.value >= 0 ==> |Listing(rows, limit, kind)| <= limit.value
    ensures limit.None? ==> |Listing(rows, limit, kind)| <= DefaultLimit
  {
  }

  /** Every listed row is in the table and, when filtering, of the asked
      type; the listing runs from the highest id down. */
  lemma ListingSoundAndOrdered(rows: seq<Record>, limit: Option<int>, kind: Option<string>)
    requires IdsIncreasing(rows)
    ensures forall x :: x in Listing(rows, limit, kind) ==>
      x in rows && (FiltersBy(kind) ==> x.kind == kind.value)
    ensures IdsDecreasing(Listing(rows, limit, kind))
  {
    var matching := if FiltersBy(kind) then OfKind(rows, kind.value) else rows;
    if FiltersBy(kind) {
      WhereMembers(rows, (x: Record) => x.kind == kind.value);
      WhereKeepsOrder(rows, (x: Record) => x.kind == kind.value);
    }
    NewestFirstMembers(matching);
    NewestFirstDecreasing(matching);
    var n := if limit.Some? then limit.value else DefaultLimit;
    var all := NewestFirst(matching);
    forall x | x in Limit(all, n)
      ensures x in all
    {
      if !(n < 0 || n >= |all|) {
        var i :| 0 <= i < n && all[..n][i] == x;
        assert all[i] == x;
      }
    }
  }

  /** With a negative limit, or one no smaller than the number of matching
      rows, every matching row is listed. */
  lemma ListingComplete(rows: seq<Record>, limit: int, kind: Option<string>)
    requires limit < 0 || limit >= |if FiltersBy(kind) then OfKind(rows, kind.value) else rows|
    ensures forall x :: x in rows && (FiltersBy(kind) ==> x.kind == kind.value) ==> x in Listing(rows, Some(limit), kind)
  {
    var matching := if FiltersBy(kind) then OfKind(rows, kind.value) else rows;
    if FiltersBy(kind) {
      WhereMembers(rows, (x: Record) => x.kind == kind.value);
    }
    NewestFirstMembers(matching);
  }

  // ---------------------------------------------------------------------
  // Counting.

  /** `SELECT conversion_type, COUNT(*) ... GROUP BY conversion_type`. */
  function ByType(rows: seq<Record>): (m: map<string, nat>)
    ensures forall k :: k in m <==> exists i :: 0 <= i < |rows| && rows[i].kind == k
    ensures forall k :: |OfKind(rows, k)| == if k in m then m[k] else 0
  {
    if rows == [] then map[]
    else
      var n := |rows| - 1;
      var m := ByType(rows[..n]);
      var k := rows[n].kind;
      assert forall j :: 0 <= j < n ==> rows[..n][j] == rows[j];
      m[k := if k in m then m[k] + 1 else 1]
  }

  /** `SELECT AVG(confidence) ... WHERE confidence > 0`, or 0.0 when no row
      qualifies. */
  function AverageConfidence(rows: seq<Record>): real
  {
    var pos := Positive(rows);
    if pos == [] then 0.0 else Sum(pos) / |pos| as real
  }

  function Sum(rows: seq<Record>): real
  {
    if rows == [] then 0.0 else Sum(rows[..|rows| - 1]) + rows[|rows| - 1].confidence
  }

  lemma {:induction false} SumPositive(rows: seq<Record>)
    requires forall i :: 0 <= i < |rows| ==> rows[i].confidence > 0.0
    ensures rows != [] ==> Sum(rows) > 0.0
    ensures rows == [] ==> Sum(rows) == 0.0
  {
    if rows != [] {
      SumPositive(rows[..|rows| - 1]);
    }
  }

  /** The average is positive exactly when some row has a positive
      confidence. */
  lemma AveragePositiveIff(rows: seq<Record>)
    ensures AverageConfidence(rows) > 0.0 <==> exists i :: 0 <= i < |rows| && rows[i].confidence > 0.0
  {
    var pos := Positive(rows);
    WhereMembers(rows, (x: Record) => x.confidence > 0.0);
    if pos == [] {
      forall i | 0 <= i < |rows|
        ensures rows[i].confidence <= 0.0
      {
        assert rows[i] !in pos;
      }
    } else {
      PositiveAllPositive(rows);
      SumPositive(pos);
      assert Sum(pos) / |pos| as real > 0.0;
      assert pos[0] in rows;
      var i :| 0 <= i < |rows| && rows[i] == pos[0];
      assert rows[i].confidence > 0.0;
    }
  }

  lemma PositiveAllPositive(rows: seq<Record>)
    ensures forall i :: 0 <= i < |Positive(rows)| ==> Positive(rows)[i].confidence > 0.0
  {
    WhereMembers(rows, (x: Record) => x.confidence > 0.0);
    forall i | 0 <= i < |Positive(rows)|
      ensures Positive(rows)[i].confidence > 0.0
    {
      assert Positive(rows)[i] in Positive(rows);
    }
  }

  /** The average is the mean of the positive confidences: times their
      number it gives back their sum, and it is 0.0 when there are none. */
  lemma AverageIsMean(rows: seq<Record>)
    ensures Positive(rows) == [] ==> AverageConfidence(rows) == 0.0
    ensures Positive(rows) != [] ==>
      AverageConfidence(rows) * |Positive(rows)| as real == Sum(Positive(rows))
  {
  }

  // ---------------------------------------------------------------------
  // The table and its routes.

  /** The body of `save_history`, each field absent when the request
      leaves it out. */
  datatype SaveRequest = SaveRequest(
    kind: Option<string>,
    input: Option<string>,
    output: Option<string>,
    confidence: Option<real>,
    technique: Option<string>,
    duration: Option<real>,
    metadata: Option<string>)

  function OrElse<T>(o: Option<T>, d: T): T
  {
    if o.Some? then o.value else d
  }

  datatype Statistics = Statistics(total: nat, byType: map<string, nat>, averageConfidence: real)

  class HistoryTable {
    var rows: seq<Record>
    /** The next id AUTOINCREMENT hands out. */
    var nextId: nat

    ghost predicate Valid()
      reads this
    {
      IdsIncreasing(rows) && nextId >= 1 && forall i :: 0 <= i < |rows| ==> rows[i].id < nextId
    }

    constructor()
      ensures Valid() && rows == [] && nextId == 1
    {
      rows := [];
      nextId := 1;
    }

    /** `INSERT INTO conversion_history`: the new row goes last with a
        fresh id. */
    method Insert(kind: string, input: string, output: string, confidence: real, technique: string,
                  duration: real, metadata: string, timestamp: real, date: string) returns (id: nat)
      requires Valid()
      modifies this
      ensures Valid()
      ensures id == old(nextId) && nextId == old(nextId) + 1
      ensures rows == old(rows) + [Record(id, kind, input, output, confidence, technique, duration, metadata, timestamp, date)]
    {
      id := nextId;
      rows := rows + [Record(id, kind, input, output, confidence, technique, duration, metadata, timestamp, date)];
      nextId := nextId + 1;
    }

    /** `save_history`, with its defaults for absent fields. */
    method Save(req: SaveRequest, timestamp: real, date: string) returns (id: nat)
      requires Valid()
      modifies this
      ensures Valid()
      ensures nextId == old(nextId) + 1
      ensures rows == old(rows) + [Record(old(nextId), OrElse(req.kind, "unknown"), OrElse(req.input, ""),
        OrElse(req.output, ""), OrElse(req.confidence, 0.0), OrElse(req.technique, ""),
        OrElse(req.duration, 0.0), OrElse(req.metadata, "{}"), timestamp, date)]
    {
      id := Insert(OrElse(req.kind, "unknown"), OrElse(req.input, ""), OrElse(req.output, ""),
        OrElse(req.confidence, 0.0), OrElse(req.technique, ""), OrElse(req.duration, 0.0),
        OrElse(req.metadata, "{}"), timestamp, date);
    }

    /** `get_history`. */
    method GetHistory(limit: Option<int>, kind: Option<string>) returns (result: seq<Record>)
      requires Valid()
      ensures result == Listing(rows, limit, kind)
      ensures IdsDecreasing(result)
      ensures forall x :: x in result ==> x in rows && (FiltersBy(kind) ==> x.kind == kind.value)
    {
      result := Listing(rows, limit, kind);
      ListingSoundAndOrdered(rows, limit, kind);
    }

    /** `delete_history`: removes the row with that id and reports whether
        there was one. */
    method Delete(id: int) returns (found: bool)
      requires Valid()
      modifies this
      ensures Valid()
      ensures rows == WithoutId(old(rows), id) && nextId == old(nextId)
      ensures found <==> exists i :: 0 <= i < |old(rows)| && old(rows)[i].id == id
    {
      var before := rows;
      WhereKeepsOrder(rows, (x: Record) => x.id != id);
      WhereMembers(rows, (x: Record) => x.id != id);
      rows := WithoutId(rows, id);
      found := |rows| < |before|;
      DeleteCount(before, id);
      forall i | 0 <= i < |rows|
        ensures rows[i].id < nextId
      {
        assert rows[i] in before;
      }
    }

    /** `clear_history`: a given, non-empty type removes that type's rows
        (the word `'all'` included, which `get_history` reads as no
        filter); no type removes every row. The answer is how many rows
        went. */
    method Clear(kind: Option<string>) returns (deletedCount: nat)
      requires Valid()
      modifies this
      ensures Valid()
      ensures kind.Some? && kind.value != "" ==> rows == WithoutKind(old(rows), kind.value)
      ensures !(kind.Some? && kind.value != "") ==> rows == []
      ensures deletedCount == |old(rows)| - |rows|
      ensures nextId == old(nextId)
    {
      var before := rows;
      if kind.Some? && kind.value != "" {
        WhereKeepsOrder(rows, (x: Record) => x.kind != kind.value);
        WhereMembers(rows, (x: Record) => x.kind != kind.value);
        rows := WithoutKind(rows, kind.value);
        forall i | 0 <= i < |rows|
          ensures rows[i].id < nextId
        {
          assert rows[i] in before;
        }
      } else {
        rows := [];
      }
      deletedCount := |before| - |rows|;
    }

    /** `get_statistics`. */
    method GetStatistics() returns (s: Statistics)
      requires Valid()
      ensures s.total == |rows|
      ensures forall k :: k in s.byType <==> exists i :: 0 <= i < |rows| && rows[i].kind == k
      ensures forall k :: |OfKind(rows, k)| == if k in s.byType then s.byType[k] else 0
      ensures s.averageConfidence == AverageConfidence(rows)
      ensures s.averageConfidence > 0.0 <==> exists i :: 0 <= i < |rows| && rows[i].confidence > 0.0
    {
      AveragePositiveIff(rows);
      s := Statistics(|rows|, ByType(rows), AverageConfidence(rows));
    }
  }

  /** Deleting by id removes a row exactly when one has that id. */
  lemma DeleteCount(rows: seq<Record>, id: int)
    ensures |WithoutId(rows, id)| < |rows| <==> exists i :: 0 <= i < |rows| && rows[i].id == id
  {
    WhereMembers(rows, (x: Record) => x.id != id);
    WherePartition(rows, (x: Record) => x.id != id, (x: Record) => x.id == id);
    WhereMembers(rows, (x: Record) => x.id == id);
    var hits := Where(rows, (x: Record) => x.id == id);
    if exists i :: 0 <= i < |rows| && rows[i].id == id {
      var i :| 0 <= i < |rows| && rows[i].id == id;
      assert rows[i] in hits;
    } else if |hits| > 0 {
      assert hits[0] in hits;
    }
  }

  /** Clearing a type removes exactly that type's rows: as many as it had,
      none of it remains, and every other row stays. */
  lemma ClearKindExact(rows: seq<Record>, kind: string)
    ensures |rows| - |WithoutKind(rows, kind)| == |OfKind(rows, kind)|
    ensures forall x :: x in WithoutKind(rows, kind) <==> x in rows && x.kind != kind
  {
    WherePartition(rows, (x: Record) => x.kind == kind, (x: Record) => x.kind != kind);
    WhereMembers(rows, (x: Record) => x.kind != kind);
  }

  lemma {:induction false} WhereAll(rows: seq<Record>, p: Record -> bool)
    requires forall i :: 0 <= i < |rows| ==> p(rows[i])
    ensures Where(rows, p) == rows
  {
    if rows != [] {
      var n := |rows| - 1;
      WhereAll(rows[..n], p);
      assert rows[..n] + [rows[n]] == rows;
    }
  }

  /** Deleting the row just inserted gives back the table as it was. */
  lemma InsertThenDelete(rows: seq<Record>, r: Record)
    requires forall i :: 0 <= i < |rows| ==> rows[i].id < r.id
    ensures WithoutId(rows + [r], r.id) == rows
  {
    WhereAll(rows, (x: Record) => x.id != r.id);
    assert (rows + [r])[..|rows|] == rows;
  }
}
