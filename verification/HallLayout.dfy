/** The hall constructor (apps/floor/services/hall_constructor.py). */
module HallLayout {
  import opened Options
  import opened Arithmetic

  /** A table in the payload; positions and sizes are whole grid units. */
  datatype Spec = Spec(
    id: Option<nat>, number: nat, seats: nat, variant: string, x: nat, y: nat, width: nat, height: nat)
  {
    /** The serializer's bounds. */
    predicate Bounded() { width >= 1 && height >= 1 && number >= 1 }

    function MaxX(): nat { x + width }

    function MaxY(): nat { y + height }
  }

  /** A stored table row, without its key. */
  datatype Row = Row(number: nat, seats: nat, variant: string, x: nat, y: nat, width: nat, height: nat)

  datatype Error =
    | UnknownDeleted | UpdatedAndDeleted | IncompleteSnapshot | BadVariant | DuplicateNumber | TooWide | Overlap

  datatype Verdict = Accepted | Rejected(error: Error)

  function VariantsFor(seats: nat): set<string> {
    if seats == 2 then {"seat2_horizontal", "seat2_vertical"}
    else if seats == 3 then {"seat3_triangle"}
    else if seats == 4 then {"seat4_square", "seat4_horizontal", "seat4_vertical"}
    else if seats == 5 then {"seat5_horizontal", "seat5_vertical"}
    else if seats == 6 then {"seat6_horizontal", "seat6_vertical"}
    else {}
  }

  /** _placements_overlap */
  predicate Overlaps(a: Spec, b: Spec) {
    !(a.MaxX() <= b.x || b.MaxX() <= a.x || a.MaxY() <= b.y || b.MaxY() <= a.y)
  }

  function Cells(s: Spec): set<(nat, nat)> {
    Block(s.x, s.MaxX(), s.y, s.MaxY())
  }

  function Block(x0: nat, x1: nat, y0: nat, y1: nat): set<(nat, nat)> {
    set x: nat, y: nat | x0 <= x < x1 && y0 <= y < y1 :: (x, y)
  }

  /** Two placements overlap exactly when they share a grid cell. */
  lemma OverlapsIff(a: Spec, b: Spec)
    requires a.Bounded() && b.Bounded()
    ensures Overlaps(a, b) <==> exists c :: c in Cells(a) && c in Cells(b)
  {
    if Overlaps(a, b) {
      var c := (Max(a.x, b.x), Max(a.y, b.y));
      assert c in Cells(a) && c in Cells(b);
    }
  }

  function Ids(specs: seq<Spec>): set<nat> {
    set i | 0 <= i < |specs| && specs[i].id.Some? :: specs[i].id.value
  }

  /** What an accepted layout promises about its tables. */
  ghost predicate FitsGrid(specs: seq<Spec>, columns: nat) {
    && (forall i | 0 <= i < |specs| :: specs[i].variant in VariantsFor(specs[i].seats) && specs[i].MaxX() <= columns)
    && (forall i, j | 0 <= i < j < |specs| :: specs[i].number != specs[j].number && !Overlaps(specs[i], specs[j]))
  }

  ghost predicate SnapshotComplete(existing: set<nat>, specs: seq<Spec>, deleted: set<nat>) {
    deleted <= existing && Ids(specs) !! deleted && existing <= deleted + Ids(specs)
  }

  /** The snapshot checks before the loop, then the loop over the payload with its inner loop over placements. */
  method Validate(existing: set<nat>, columns: nat, specs: seq<Spec>, deleted: set<nat>) returns (verdict: Verdict)
    ensures verdict.Accepted? <==> SnapshotComplete(existing, specs, deleted) && FitsGrid(specs, columns)
    ensures verdict == Rejected(UnknownDeleted) <==> !(deleted <= existing)
    ensures verdict == Rejected(UpdatedAndDeleted) <==> deleted <= existing && !(Ids(specs) !! deleted)
    ensures verdict == Rejected(IncompleteSnapshot) <==>
              deleted <= existing && Ids(specs) !! deleted && !(existing <= deleted + Ids(specs))
    ensures verdict.Rejected? && SnapshotComplete(existing, specs, deleted) ==>
              exists i: nat :: Offends(specs, i, columns, verdict.error)
  {
    if !(deleted <= existing) {
      return Rejected(UnknownDeleted);
    }
    if !(Ids(specs) !! deleted) {
      return Rejected(UpdatedAndDeleted);
    }
    if existing - deleted - Ids(specs) != {} {
      return Rejected(IncompleteSnapshot);
    }
    assert forall k | k in existing :: k in deleted || k in Ids(specs) || k in existing - deleted - Ids(specs);
    verdict := PlaceAll(columns, specs);
  }

  /** Table i is the first that does not fit beside the ones before it, for this reason. */
  ghost predicate Offends(specs: seq<Spec>, i: nat, columns: nat, error: Error) {
    && i < |specs| && FitsGrid(specs[..i], columns)
    && var repeated := exists j | 0 <= j < i :: specs[j].number == specs[i].number;
       if specs[i].variant !in VariantsFor(specs[i].seats) then error == BadVariant
       else if repeated then error == DuplicateNumber
       else if specs[i].MaxX() > columns then error == TooWide
       else error == Overlap && exists j | 0 <= j < i :: Overlaps(specs[j], specs[i])
  }

  method PlaceAll(columns: nat, specs: seq<Spec>) returns (verdict: Verdict)
    ensures verdict.Accepted? <==> FitsGrid(specs, columns)
    ensures verdict.Rejected? ==> exists i: nat :: Offends(specs, i, columns, verdict.error)
  {
    var placements: seq<Spec> := [];
    var numbers: set<nat> := {};
    for i := 0 to |specs|
      invariant placements == specs[..i]
      invariant numbers == set k | 0 <= k < i :: specs[k].number
      invariant FitsGrid(specs[..i], columns)
    {
      var s := specs[i];
      if s.variant !in VariantsFor(s.seats) {
        assert Offends(specs, i, columns, BadVariant);
        return Rejected(BadVariant);
      }
      if s.number in numbers {
        assert Offends(specs, i, columns, DuplicateNumber);
        return Rejected(DuplicateNumber);
      }
      numbers := numbers + {s.number};
      if s.MaxX() > columns {
        assert Offends(specs, i, columns, TooWide);
        return Rejected(TooWide);
      }
      for k := 0 to |placements|
        invariant forall j | 0 <= j < k :: !Overlaps(placements[j], s)
      {
        if Overlaps(placements[k], s) {
          assert Overlaps(specs[k], specs[i]) && Offends(specs, i, columns, Overlap);
          return Rejected(Overlap);
        }
      }
      placements := placements + [s];
      assert forall j | 0 <= j < i :: specs[..i + 1][j] == specs[..i][j];
    }
    assert specs[..|specs|] == specs;
    verdict := Accepted;
  }

  // ----- Area -----

  lemma {:induction false} BlockSize(x0: nat, x1: nat, y0: nat, y1: nat)
    requires x0 <= x1 && y0 <= y1
    ensures |Block(x0, x1, y0, y1)| == (x1 - x0) * (y1 - y0)
    decreases x1 - x0
  {
    if x0 == x1 {
      assert Block(x0, x1, y0, y1) == {};
    } else {
      BlockSize(x0 + 1, x1, y0, y1);
      ColumnSize(x0, y0, y1);
      var column, rest := Block(x0, x0 + 1, y0, y1), Block(x0 + 1, x1, y0, y1);
      assert Block(x0, x1, y0, y1) == column + rest;
      assert column !! rest;
      assert (x1 - x0) * (y1 - y0) == (x1 - (x0 + 1)) * (y1 - y0) + (y1 - y0);
    }
  }

  lemma {:induction false} ColumnSize(x: nat, y0: nat, y1: nat)
    requires y0 <= y1
    ensures |Block(x, x + 1, y0, y1)| == y1 - y0
    decreases y1 - y0
  {
    if y0 == y1 {
      assert Block(x, x + 1, y0, y1) == {};
    } else {
      ColumnSize(x, y0 + 1, y1);
      assert Block(x, x + 1, y0, y1) == {(x, y0)} + Block(x, x + 1, y0 + 1, y1);
    }
  }

  lemma SubsetSize<T>(a: set<T>, b: set<T>)
    requires a <= b
    ensures |a| <= |b|
  {
    assert b == a + (b - a);
  }

  function AreaOf(s: Spec): int { s.width * s.height }

  function Covered(specs: seq<Spec>): set<(nat, nat)> {
    if specs == [] then {} else Cells(specs[0]) + Covered(specs[1..])
  }

  function LargestY(specs: seq<Spec>): (y: nat)
    ensures forall i | 0 <= i < |specs| :: specs[i].MaxY() <= y
    ensures specs != [] ==> exists i | 0 <= i < |specs| :: specs[i].MaxY() == y
  {
    if specs == [] then 0
    else
      assert forall i | 1 <= i < |specs| :: specs[i] == specs[1..][i - 1];
      assert |specs| > 1 ==> forall i | 0 <= i < |specs[1..]| :: specs[1..][i] == specs[i + 1];
      Max(specs[0].MaxY(), LargestY(specs[1..]))
  }

  lemma {:induction false} CoveredBy(specs: seq<Spec>, c: (nat, nat))
    ensures c in Covered(specs) <==> exists i | 0 <= i < |specs| :: c in Cells(specs[i])
  {
    if specs != [] {
      CoveredBy(specs[1..], c);
      assert forall i | 1 <= i < |specs| :: specs[i] == specs[1..][i - 1];
      if c in Covered(specs[1..]) {
        var i :| 0 <= i < |specs[1..]| && c in Cells(specs[1..][i]);
        assert c in Cells(specs[i + 1]);
      }
    }
  }

  /** Disjoint placements cover as many cells as their areas add up to. */
  lemma {:induction false} CoveredSize(specs: seq<Spec>)
    requires forall i | 0 <= i < |specs| :: specs[i].Bounded()
    requires forall i, j | 0 <= i < j < |specs| :: !Overlaps(specs[i], specs[j])
    ensures |Covered(specs)| == SumBy(specs, AreaOf)
  {
    if specs != [] {
      var rest := specs[1..];
      assert forall i | 0 <= i < |rest| :: rest[i] == specs[i + 1];
      CoveredSize(rest);
      BlockSize(specs[0].x, specs[0].MaxX(), specs[0].y, specs[0].MaxY());
      forall c | c in Cells(specs[0])
        ensures c !in Covered(rest)
      {
        CoveredBy(rest, c);
        if i :| 0 <= i < |rest| && c in Cells(rest[i]) {
          OverlapsIff(specs[0], specs[i + 1]);
        }
      }
      assert Cells(specs[0]) !! Covered(rest);
    }
  }

  /** The tables of an accepted layout fit, by area, into the columns times the lowest edge. */
  lemma {:induction false} AreaBound(specs: seq<Spec>, columns: nat)
    requires forall i | 0 <= i < |specs| :: specs[i].Bounded()
    requires FitsGrid(specs, columns)
    ensures SumBy(specs, AreaOf) <= columns * LargestY(specs)
  {
    CoveredSize(specs);
    BlockSize(0, columns, 0, LargestY(specs));
    CoveredInGrid(specs, columns);
    SubsetSize(Covered(specs), Block(0, columns, 0, LargestY(specs)));
  }

  lemma {:induction false} CoveredInGrid(specs: seq<Spec>, columns: nat)
    requires FitsGrid(specs, columns)
    ensures Covered(specs) <= Block(0, columns, 0, LargestY(specs))
  {
    forall c | c in Covered(specs)
      ensures c in Block(0, columns, 0, LargestY(specs))
    {
      CoveredBy(specs, c);
      var i :| 0 <= i < |specs| && c in Cells(specs[i]);
    }
  }

  // ----- Saving -----

  function RowOf(s: Spec): Row {
    Row(s.number, s.seats, s.variant, s.x, s.y, s.width, s.height)
  }

  predicate Known(s: Spec, existing: set<nat>) {
    s.id.Some? && s.id.value in existing
  }

  /** The next fresh key once the payload so far is stored. */
  function NextAfter(specs: seq<Spec>, existing: set<nat>, next: nat): nat {
    if specs == [] then next
    else NextAfter(specs[..|specs| - 1], existing, next) + if Known(specs[|specs| - 1], existing) then 0 else 1
  }

  /** The key each payload table is stored under: its own id if the hall knows it, else a fresh key. */
  function KeysFor(specs: seq<Spec>, existing: set<nat>, next: nat): (keys: seq<nat>)
    ensures |keys| == |specs|
  {
    if specs == [] then []
    else
      var init, last := specs[..|specs| - 1], specs[|specs| - 1];
      KeysFor(init, existing, next) + [if Known(last, existing) then last.id.value else NextAfter(init, existing, next)]
  }

  function Written(tables: map<nat, Row>, specs: seq<Spec>, keys: seq<nat>): map<nat, Row>
    requires |keys| == |specs|
  {
    if specs == [] then tables
    else
      var n := |specs| - 1;
      Written(tables, specs[..n], keys[..n])[keys[n] := RowOf(specs[n])]
  }

  ghost predicate DistinctKnownIds(specs: seq<Spec>, existing: set<nat>) {
    forall i, j | 0 <= i < j < |specs| && Known(specs[i], existing) :: specs[i].id != specs[j].id
  }

  ghost predicate Distinct(keys: seq<nat>) {
    forall i, j | 0 <= i < j < |keys| :: keys[i] != keys[j]
  }

  ghost predicate SameTable(row: Row, s: Spec) {
    && row.number == s.number && row.seats == s.seats && row.variant == s.variant
    && row.x == s.x && row.y == s.y && row.width == s.width && row.height == s.height
  }

  /** The stored tables are the payload's tables, one row each and no others; known tables keep their keys. */
  ghost predicate Stores(tables: map<nat, Row>, specs: seq<Spec>, existing: set<nat>) {
    exists keys: seq<nat> :: StoresAt(tables, specs, existing, keys)
  }

  ghost predicate StoresAt(tables: map<nat, Row>, specs: seq<Spec>, existing: set<nat>, keys: seq<nat>) {
    && |keys| == |specs| && Distinct(keys)
    && (forall i | 0 <= i < |keys| :: keys[i] in tables && SameTable(tables[keys[i]], specs[i]))
    && (forall i | 0 <= i < |keys| && specs[i].id.Some? ::
          if specs[i].id.value in existing then keys[i] == specs[i].id.value else keys[i] !in existing)
    && (forall i | 0 <= i < |keys| && specs[i].id.None? :: keys[i] !in existing)
    && (forall k | k in tables :: k in keys)
  }

  class Hall {
    var tables: map<nat, Row>
    var columns: nat
    var nextKey: nat

    ghost predicate Valid()
      reads this
    {
      forall k | k in tables :: k < nextKey
    }

    constructor (tables: map<nat, Row>, columns: nat, nextKey: nat)
      requires forall k | k in tables :: k < nextKey
      ensures Valid() && this.tables == tables && this.columns == columns
    {
      this.tables, this.columns, this.nextKey := tables, columns, nextKey;
    }

    /** save_layout: an accepted payload is written table by table; a rejection changes nothing. */
    method Save(newColumns: nat, specs: seq<Spec>, deleted: set<nat>) returns (verdict: Verdict)
      requires Valid()
      modifies this
      ensures Valid()
      ensures verdict.Accepted? <==> SnapshotComplete(old(tables).Keys, specs, deleted) && FitsGrid(specs, newColumns)
      ensures verdict.Rejected? ==> tables == old(tables) && columns == old(columns)
      ensures verdict.Accepted? ==> columns == newColumns
      ensures verdict.Accepted? ==>
                (Stores(tables, specs, old(tables).Keys) <==> DistinctKnownIds(specs, old(tables).Keys))
    {
      var existing := tables.Keys;
      verdict := Validate(existing, newColumns, specs, deleted);
      if verdict.Rejected? {
        return;
      }
      tables := tables - deleted;
      ghost var start, kept := nextKey, tables;
      WriteTables(specs, existing);
      columns := newColumns;
      SaveKeepsKeys(kept, specs, existing, start);
      SaveStoresIff(kept, specs, existing, start);
    }

    /** The loop of save_layout over the payload. */
    method WriteTables(specs: seq<Spec>, existing: set<nat>)
      modifies this`tables, this`nextKey
      ensures nextKey == NextAfter(specs, existing, old(nextKey))
      ensures tables == Written(old(tables), specs, KeysFor(specs, existing, old(nextKey)))
    {
      for i := 0 to |specs|
        invariant nextKey == NextAfter(specs[..i], existing, old(nextKey))
        invariant tables == Written(old(tables), specs[..i], KeysFor(specs[..i], existing, old(nextKey)))
      {
        WrittenStep(old(tables), specs[..i + 1], existing, old(nextKey));
        assert specs[..i + 1][..i] == specs[..i];
        var key := nextKey;
        if Known(specs[i], existing) {
          key := specs[i].id.value;
        } else {
          nextKey := nextKey + 1;
        }
        tables := tables[key := RowOf(specs[i])];
      }
      assert specs[..|specs|] == specs;
    }
  }

  lemma WrittenStep(tables: map<nat, Row>, specs: seq<Spec>, existing: set<nat>, next: nat)
    requires specs != []
    ensures var init, last := specs[..|specs| - 1], specs[|specs| - 1];
            Written(tables, specs, KeysFor(specs, existing, next))
            == Written(tables, init, KeysFor(init, existing, next))
                 [(if Known(last, existing) then last.id.value else NextAfter(init, existing, next)) := RowOf(last)]
  {
  }

  lemma {:induction false} SaveKeepsKeys(kept: map<nat, Row>, specs: seq<Spec>, existing: set<nat>, next: nat)
    requires (forall k | k in existing :: k < next) && kept.Keys <= existing
    ensures forall k | k in Written(kept, specs, KeysFor(specs, existing, next)) :: k < NextAfter(specs, existing, next)
  {
    KeysInRange(specs, existing, next);
    WrittenKeys(kept, specs, KeysFor(specs, existing, next));
  }

  /** Known tables keep their own key; the others get fresh ones, each a new one. */
  lemma {:induction false} KeysInRange(specs: seq<Spec>, existing: set<nat>, next: nat)
    requires forall k | k in existing :: k < next
    ensures var keys := KeysFor(specs, existing, next);
            && next <= NextAfter(specs, existing, next)
            && (forall i | 0 <= i < |specs| :: keys[i] < NextAfter(specs, existing, next))
            && (forall i | 0 <= i < |specs| && Known(specs[i], existing) :: keys[i] == specs[i].id.value)
            && (forall i | 0 <= i < |specs| && !Known(specs[i], existing) :: keys[i] >= next)
            && (forall i, j | 0 <= i < j < |specs| && !Known(specs[j], existing) :: keys[i] < keys[j])
  {
    if specs != [] {
      KeysInRange(specs[..|specs| - 1], existing, next);
    }
  }

  lemma {:induction false} WrittenKeys(tables: map<nat, Row>, specs: seq<Spec>, keys: seq<nat>)
    requires |keys| == |specs|
    ensures forall k :: k in Written(tables, specs, keys) <==> k in tables || k in keys
  {
    if specs != [] {
      var n := |specs| - 1;
      WrittenKeys(tables, specs[..n], keys[..n]);
      assert keys == keys[..n] + [keys[n]];
    }
  }

  lemma {:induction false} WrittenRows(tables: map<nat, Row>, specs: seq<Spec>, keys: seq<nat>)
    requires |keys| == |specs| && Distinct(keys)
    ensures forall i | 0 <= i < |keys| :: keys[i] in Written(tables, specs, keys)
                                         && Written(tables, specs, keys)[keys[i]] == RowOf(specs[i])
  {
    if specs != [] {
      var n := |specs| - 1;
      WrittenRows(tables, specs[..n], keys[..n]);
      forall i | 0 <= i < |keys|
        ensures keys[i] in Written(tables, specs, keys) && Written(tables, specs, keys)[keys[i]] == RowOf(specs[i])
      {
        if i < n {
          assert keys[..n][i] == keys[i] && specs[..n][i] == specs[i];
        }
      }
    }
  }

  lemma {:induction false} DistinctKeysIff(specs: seq<Spec>, existing: set<nat>, next: nat)
    requires forall k | k in existing :: k < next
    ensures Distinct(KeysFor(specs, existing, next)) <==> DistinctKnownIds(specs, existing)
  {
    KeysInRange(specs, existing, next);
    var keys := KeysFor(specs, existing, next);
    if DistinctKnownIds(specs, existing) {
      forall i, j | 0 <= i < j < |keys|
        ensures keys[i] != keys[j]
      {
        if Known(specs[j], existing) && !Known(specs[i], existing) {
          assert keys[i] >= next > keys[j];
        }
      }
    } else {
      var i, j :| 0 <= i < j < |specs| && Known(specs[i], existing) && specs[i].id == specs[j].id;
      assert keys[i] == keys[j];
    }
  }

  /** Every kept table is in the payload, so the hall stores exactly the payload iff no known id occurs twice in it. */
  lemma {:induction false} SaveStoresIff(kept: map<nat, Row>, specs: seq<Spec>, existing: set<nat>, next: nat)
    requires (forall k | k in existing :: k < next) && kept.Keys <= existing && kept.Keys <= Ids(specs)
    ensures Stores(Written(kept, specs, KeysFor(specs, existing, next)), specs, existing)
       <==> DistinctKnownIds(specs, existing)
  {
    var keys := KeysFor(specs, existing, next);
    var after := Written(kept, specs, keys);
    KeysInRange(specs, existing, next);
    WrittenKeys(kept, specs, keys);
    DistinctKeysIff(specs, existing, next);
    forall k | k in kept
      ensures k in keys
    {
      var i :| 0 <= i < |specs| && specs[i].id == Some(k);
      assert keys[i] == k;
    }
    if Distinct(keys) {
      WrittenRows(kept, specs, keys);
      assert StoresAt(after, specs, existing, keys);
    }
  }
}
