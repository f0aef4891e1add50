/** Routing-table numbers: the reserved ranges and the search for the n-th free
    number, which may run through the end of the 32-bit range. */
module TableIds {
  import opened Common

  predicate IsReservedTable(id: nat)
  {
    id == 0 || id == 128 || 250 <= id <= 260 || id >= 32000
  }

  /** Free numbers in the whole range. */
  const FREE: nat := 31987

  /** Free numbers below `id`. */
  function Rank(id: nat): (r: nat)
    ensures r <= FREE
  {
    if id <= 1 then 0
    else if id <= 128 then id - 1
    else if id <= 250 then id - 2
    else if id <= 261 then 248
    else if id <= 32000 then id - 13
    else FREE
  }

  /** The free number with a given rank. */
  function FreeAt(rank: nat): (id: nat)
    requires rank < FREE
    ensures !IsReservedTable(id) && Rank(id) == rank
  {
    if rank < 127 then rank + 1 else if rank < 248 then rank + 2 else rank + 13
  }

  /** How far the search is from the next free number. */
  function Distance(id: nat): nat
    requires id < U32
  {
    if id >= 32000 then U32 - id + 1
    else if id == 0 || id == 128 then 1
    else if 250 <= id <= 260 then 261 - id
    else 0
  }

  function SafeTableId(start: nat, offset: nat): (id: nat)
    ensures !IsReservedTable(id)
  {
    FreeAt((Rank(start) + offset) % FREE)
  }

  /** The rank a search ends at, with `left` free numbers still to pass. */
  function Aim(id: nat, left: nat): nat
  {
    (Rank(id) + left) % FREE
  }

  lemma AimSkips(id: nat, left: nat)
    requires id < U32 && IsReservedTable(id)
    ensures Aim((id + 1) % U32, left) == Aim(id, left)
    ensures Distance((id + 1) % U32) < Distance(id)
  {
    if id == U32 - 1 {
      assert (id + 1) % U32 == 0;
      assert (FREE + left) % FREE == left % FREE;
    } else {
      assert (id + 1) % U32 == id + 1 && Rank(id + 1) == Rank(id);
    }
  }

  lemma AimCounts(id: nat, left: nat)
    requires id < U32 && !IsReservedTable(id)
    ensures Aim((id + 1) % U32, left) == Aim(id, left + 1)
  {
    assert (id + 1) % U32 == id + 1 && Rank(id + 1) == Rank(id) + 1;
  }

  lemma AimIs(start: nat, offset: nat)
    ensures Aim(start, offset) < FREE && SafeTableId(start, offset) == FreeAt(Aim(start, offset))
  {}

  lemma AimReached(id: nat)
    requires !IsReservedTable(id)
    ensures Aim(id, 0) == Rank(id) && FreeAt(Rank(id)) == id
  {}

  /** `safe_table_id`: for every start and offset the search ends at the free number
      whose rank is the start's plus the offset, counted around the range. */
  method FindSafeTableId(start: nat, offset: nat) returns (id: nat)
    requires start < U32 && offset < U32
    ensures id == SafeTableId(start, offset)
    ensures !IsReservedTable(id)
  {
    id := start;
    var count := 0;
    hide Rank, FreeAt, Distance, IsReservedTable, Aim;
    AimIs(start, offset);
    while true
      invariant id < U32 && count <= offset && Aim(id, offset - count) == Aim(start, offset)
      decreases offset - count, Distance(id)
    {
      if !IsReservedTable(id) {
        if count == offset {
          AimReached(id);
          return;
        }
        AimCounts(id, offset - count - 1);
        count := count + 1;
      } else {
        AimSkips(id, offset - count);
      }
      id := (id + 1) % U32;
    }
  }

  lemma ShiftedRanks(r: nat, i: nat, j: nat)
    ensures (r + i) % FREE == (r + j) % FREE <==> i % FREE == j % FREE
  {}

  /** Two offsets meet exactly when they differ by whole turns of the range. */
  lemma SameTableExactly(start: nat, i: nat, j: nat)
    ensures SafeTableId(start, i) == SafeTableId(start, j) <==> i % FREE == j % FREE
  {
    ShiftedRanks(Rank(start), i, j);
    assert Rank(SafeTableId(start, i)) == (Rank(start) + i) % FREE;
    assert Rank(SafeTableId(start, j)) == (Rank(start) + j) % FREE;
  }

  /** Below 31987 offsets no two outbounds share a table. */
  lemma TablesDistinct(start: nat, i: nat, j: nat)
    requires i < j < FREE
    ensures SafeTableId(start, i) != SafeTableId(start, j)
  {
    SameTableExactly(start, i, j);
  }
}
