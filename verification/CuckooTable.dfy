/** The cuckoo hash table behind the session lookup: several tables, each with its own hash, and
    an insertion that evicts entries for a bounded number of trials.

    Nothing here depends on the hash function, the number of tables (two or more), their size or
    the trial bound.
 */
module CuckooTable {
  import opened Words

  type Key = k: int | 0 <= k < 0x1_0000_0000_0000_0000_0000_0000
  type Value = u16
  type Bit = b: int | 0 <= b < 2

  datatype Entry = Entry(key: Key, value: Value, valid: bool)

  /** The parameters of a table: how many tables, how long, and the hash of a key in each. */
  datatype Shape = Shape(numTables: nat, size: nat, hash: (Key, nat) -> nat) {
    ghost predicate Valid() {
      numTables >= 2 && size > 0 && forall k, i :: hash(k, i) < size
    }
  }

  type Tables = seq<seq<Entry>>

  ghost predicate Fits(h: Shape, t: Tables) {
    |t| == h.numTables && forall i :: 0 <= i < |t| ==> |t[i]| == h.size
  }

  // ---------- Counting entries ----------

  ghost function One(b: bool): nat { if b then 1 else 0 }

  ghost function CountRow(row: seq<Entry>, p: Entry -> bool): nat {
    if row == [] then 0 else One(p(row[0])) + CountRow(row[1..], p)
  }

  /** The number of entries, over all tables, with a property. */
  ghost function CountIf(t: Tables, p: Entry -> bool): nat {
    if t == [] then 0 else CountRow(t[0], p) + CountIf(t[1..], p)
  }

  ghost function IsValid(): Entry -> bool { (e: Entry) => e.valid }
  ghost function HasKey(k: Key): Entry -> bool { (e: Entry) => e.valid && e.key == k }
  ghost function IsBinding(k: Key, v: Value): Entry -> bool {
    (e: Entry) => e.valid && e.key == k && e.value == v
  }

  /** A property that only valid entries have. */
  ghost predicate OfValid(p: Entry -> bool) {
    forall e :: p(e) ==> e.valid
  }

  lemma {:induction false} CountRowUpdate(row: seq<Entry>, j: nat, e: Entry, p: Entry -> bool)
    requires j < |row|
    ensures CountRow(row[j := e], p) + One(p(row[j])) == CountRow(row, p) + One(p(e))
  {
    if j == 0 {
      assert row[j := e][1..] == row[1..];
    } else {
      CountRowUpdate(row[1..], j - 1, e, p);
      assert row[j := e][1..] == row[1..][j - 1 := e];
    }
  }

  function Put(t: Tables, i: nat, j: nat, e: Entry): Tables
    requires i < |t| && j < |t[i]|
  {
    t[i := t[i][j := e]]
  }

  lemma {:induction false} CountPut(t: Tables, i: nat, j: nat, e: Entry, p: Entry -> bool)
    requires i < |t| && j < |t[i]|
    ensures CountIf(Put(t, i, j, e), p) + One(p(t[i][j])) == CountIf(t, p) + One(p(e))
  {
    if i == 0 {
      CountRowUpdate(t[0], j, e, p);
      assert Put(t, i, j, e)[1..] == t[1..];
    } else {
      CountPut(t[1..], i - 1, j, e, p);
      assert Put(t, i, j, e)[1..] == Put(t[1..], i - 1, j, e);
    }
  }

  lemma {:induction false} CountRowWitness(row: seq<Entry>, j: nat, p: Entry -> bool)
    requires j < |row| && p(row[j])
    ensures CountRow(row, p) >= 1
  {
    if j > 0 { CountRowWitness(row[1..], j - 1, p); }
  }

  lemma {:induction false} CountWitness(t: Tables, i: nat, j: nat, p: Entry -> bool)
    requires i < |t| && j < |t[i]| && p(t[i][j])
    ensures CountIf(t, p) >= 1
  {
    if i == 0 {
      CountRowWitness(t[0], j, p);
    } else {
      CountWitness(t[1..], i - 1, j, p);
    }
  }

  lemma {:induction false} RowWitness(row: seq<Entry>, p: Entry -> bool) returns (j: nat)
    requires CountRow(row, p) > 0
    ensures j < |row| && p(row[j])
  {
    if p(row[0]) {
      j := 0;
    } else {
      j := RowWitness(row[1..], p);
      j := j + 1;
    }
  }

  lemma {:induction false} Witness(t: Tables, p: Entry -> bool) returns (i: nat, j: nat)
    requires CountIf(t, p) > 0
    ensures i < |t| && j < |t[i]| && p(t[i][j])
  {
    if CountRow(t[0], p) > 0 {
      i := 0;
      j := RowWitness(t[0], p);
    } else {
      i, j := Witness(t[1..], p);
      i := i + 1;
    }
  }

  // ---------- Operations ----------

  /** The entry a key would have in table `i`. */
  function Candidate(h: Shape, t: Tables, k: Key, i: nat): Entry
    requires h.Valid() && Fits(h, t) && i < h.numTables
  {
    t[i][h.hash(k, i)]
  }

  predicate Holds(h: Shape, t: Tables, k: Key, i: nat)
    requires h.Valid() && Fits(h, t) && i < h.numTables
  {
    Candidate(h, t, k, i).valid && Candidate(h, t, k, i).key == k
  }

  /** The last of the first `n` tables that holds the key. */
  function Find(h: Shape, t: Tables, k: Key, n: nat): (slot: int)
    requires h.Valid() && Fits(h, t) && n <= h.numTables
    ensures -1 <= slot < n
    ensures slot != -1 ==> Holds(h, t, k, slot)
    ensures slot == -1 ==> forall i :: 0 <= i < n ==> !Holds(h, t, k, i)
  {
    if n == 0 then -1 else if Holds(h, t, k, n - 1) then n - 1 else Find(h, t, k, n - 1)
  }

  function Lookup(h: Shape, t: Tables, k: Key): Option<Value>
    requires h.Valid() && Fits(h, t)
  {
    var slot := Find(h, t, k, h.numTables);
    if slot == -1 then None else Some(Candidate(h, t, k, slot).value)
  }

  /** The last of the first `n` tables whose candidate is free. */
  function FreeSlot(h: Shape, t: Tables, k: Key, n: nat): (slot: int)
    requires h.Valid() && Fits(h, t) && n <= h.numTables
    ensures -1 <= slot < n
    ensures slot != -1 ==> !Candidate(h, t, k, slot).valid
    ensures slot == -1 ==> forall i :: 0 <= i < n ==> Candidate(h, t, k, i).valid
  {
    if n == 0 then -1
    else if !Candidate(h, t, k, n - 1).valid then n - 1
    else FreeSlot(h, t, k, n - 1)
  }

  /** The table an entry is evicted from. */
  function Victim(h: Shape, k: Key, victimIdx: nat, victimBit: Bit): (i: nat)
    requires h.Valid()
    ensures i < h.numTables
  {
    h.hash(k, victimIdx) % (h.numTables - 1) + victimBit
  }

  /** The tables after an insertion, whether it succeeded, the entry left over and the toggled bit. */
  datatype Inserted = Inserted(tables: Tables, success: bool, left: Entry, victimBit: Bit)

  function InsertChain(h: Shape, t: Tables, e: Entry, victimIdx: nat, victimBit: Bit, trials: nat): (r: Inserted)
    requires h.Valid() && Fits(h, t)
    ensures Fits(h, r.tables)
    decreases trials
  {
    if trials == 0 then Inserted(t, false, e, victimBit)
    else
      var slot := FreeSlot(h, t, e.key, h.numTables);
      if slot != -1 then
        Inserted(Put(t, slot, h.hash(e.key, slot), e), true, e, 1 - victimBit)
      else
        var i := Victim(h, e.key, victimIdx, victimBit);
        InsertChain(h, Put(t, i, h.hash(e.key, i), e), Candidate(h, t, e.key, i),
               if victimIdx + 1 == h.numTables then 0 else victimIdx + 1, 1 - victimBit, trials - 1)
  }

  /** Invalidates the key's candidate in each of the first `n` tables that holds it. */
  function RemoveKey(h: Shape, t: Tables, k: Key, n: nat): (r: Tables)
    requires h.Valid() && Fits(h, t) && n <= h.numTables
    ensures Fits(h, r)
    ensures forall i :: n <= i < h.numTables ==> r[i] == t[i]
  {
    if n == 0 then t
    else
      var r := RemoveKey(h, t, k, n - 1);
      if Holds(h, t, k, n - 1) then
        Put(r, n - 1, h.hash(k, n - 1), Candidate(h, t, k, n - 1).(valid := false))
      else r
  }

  lemma InsertUnfold(h: Shape, t: Tables, e: Entry, victimIdx: nat, victimBit: Bit, trials: nat)
    requires h.Valid() && Fits(h, t) && trials > 0
    ensures var slot := FreeSlot(h, t, e.key, h.numTables);
            var i := if slot != -1 then slot else Victim(h, e.key, victimIdx, victimBit);
            InsertChain(h, t, e, victimIdx, victimBit, trials) ==
            if slot != -1 then Inserted(Put(t, i, h.hash(e.key, i), e), true, e, 1 - victimBit)
            else InsertChain(h, Put(t, i, h.hash(e.key, i), e), Candidate(h, t, e.key, i),
                             if victimIdx + 1 == h.numTables then 0 else victimIdx + 1, 1 - victimBit, trials - 1)
  {
    hide FreeSlot, Victim, Put, Candidate;
  }

  lemma InsertStops(h: Shape, t: Tables, e: Entry, victimIdx: nat, victimBit: Bit)
    requires h.Valid() && Fits(h, t)
    ensures InsertChain(h, t, e, victimIdx, victimBit, 0) == Inserted(t, false, e, victimBit)
  {
  }

  // ---------- Insertion ----------

  /** Every valid entry sits at its own hash. */
  ghost predicate WellPlaced(h: Shape, t: Tables)
    requires Fits(h, t)
  {
    forall i, j :: 0 <= i < h.numTables && 0 <= j < h.size && t[i][j].valid ==> h.hash(t[i][j].key, i) == j
  }

  lemma {:induction false} InsertKeepsPlaces(h: Shape, t: Tables, e: Entry, victimIdx: nat, victimBit: Bit, trials: nat)
    requires h.Valid() && Fits(h, t) && WellPlaced(h, t)
    ensures WellPlaced(h, InsertChain(h, t, e, victimIdx, victimBit, trials).tables)
    decreases trials
  {
    if trials > 0 && FreeSlot(h, t, e.key, h.numTables) == -1 {
      var i := Victim(h, e.key, victimIdx, victimBit);
      var t' := Put(t, i, h.hash(e.key, i), e);
      hide FreeSlot, Victim;
      InsertKeepsPlaces(h, t', Candidate(h, t, e.key, i),
                        if victimIdx + 1 == h.numTables then 0 else victimIdx + 1, 1 - victimBit, trials - 1);
    }
  }

  /** What an insertion does to any count of valid entries: the new entry comes in, and if the
      trials run out one entry - the one left over - goes out. Nothing else changes, whatever key
      is inserted and wherever the chain wanders. */
  lemma {:induction false} InsertConserves(
    h: Shape, t: Tables, e: Entry, victimIdx: nat, victimBit: Bit, trials: nat, p: Entry -> bool)
    requires h.Valid() && Fits(h, t) && e.valid && OfValid(p)
    ensures var r := InsertChain(h, t, e, victimIdx, victimBit, trials);
            && r.left.valid
            && CountIf(r.tables, p) + One(!r.success && p(r.left)) == CountIf(t, p) + One(p(e))
    decreases trials
  {
    hide InsertChain, FreeSlot, Victim, CountIf;
    if trials == 0 {
      InsertStops(h, t, e, victimIdx, victimBit);
    } else {
      InsertUnfold(h, t, e, victimIdx, victimBit, trials);
      var slot := FreeSlot(h, t, e.key, h.numTables);
      if slot != -1 {
        CountPut(t, slot, h.hash(e.key, slot), e, p);
      } else {
        var i := Victim(h, e.key, victimIdx, victimBit);
        var t' := Put(t, i, h.hash(e.key, i), e);
        CountPut(t, i, h.hash(e.key, i), e, p);
        InsertConserves(h, t', Candidate(h, t, e.key, i),
                        if victimIdx + 1 == h.numTables then 0 else victimIdx + 1, 1 - victimBit, trials - 1, p);
      }
    }
  }

  // ---------- Removal ----------

  lemma {:induction false} RemoveEntry(h: Shape, t: Tables, k: Key, n: nat, i: nat, j: nat)
    requires h.Valid() && Fits(h, t) && n <= h.numTables && i < h.numTables && j < h.size
    ensures RemoveKey(h, t, k, n)[i][j] ==
            if i < n && j == h.hash(k, i) && Holds(h, t, k, i) then t[i][j].(valid := false) else t[i][j]
  {
    if n > 0 { RemoveEntry(h, t, k, n - 1, i, j); }
  }

  /** Removing a key leaves every count that does not concern it alone. */
  lemma {:induction false} RemoveConserves(h: Shape, t: Tables, k: Key, n: nat, p: Entry -> bool)
    requires h.Valid() && Fits(h, t) && n <= h.numTables && OfValid(p)
    requires forall e :: p(e) ==> e.key != k
    ensures CountIf(RemoveKey(h, t, k, n), p) == CountIf(t, p)
  {
    if n > 0 {
      RemoveConserves(h, t, k, n - 1, p);
      if Holds(h, t, k, n - 1) {
        var j := h.hash(k, n - 1);
        RemoveEntry(h, t, k, n - 1, n - 1, j);
        CountPut(RemoveKey(h, t, k, n - 1), n - 1, j, Candidate(h, t, k, n - 1).(valid := false), p);
      }
    }
  }

  lemma RemoveKeepsPlaces(h: Shape, t: Tables, k: Key)
    requires h.Valid() && Fits(h, t) && WellPlaced(h, t)
    ensures WellPlaced(h, RemoveKey(h, t, k, h.numTables))
  {
    var r: Tables := RemoveKey(h, t, k, h.numTables);
    hide RemoveKey;
    forall i: nat, j: nat | i < h.numTables && j < h.size && r[i][j].valid
      ensures h.hash(r[i][j].key, i) == j
    {
      RemoveEntry(h, t, k, h.numTables, i, j);
    }
  }

  /** Afterwards no table holds the key. */
  lemma RemoveClears(h: Shape, t: Tables, k: Key, p: Entry -> bool)
    requires h.Valid() && Fits(h, t) && WellPlaced(h, t)
    requires forall e :: p(e) ==> e.valid && e.key == k
    ensures CountIf(RemoveKey(h, t, k, h.numTables), p) == 0
  {
    var r: Tables := RemoveKey(h, t, k, h.numTables);
    if CountIf(r, p) > 0 {
      var i, j := Witness(r, p);
      RemoveEntry(h, t, k, h.numTables, i, j);
      assert false;
    }
  }

  // ---------- The table is a map ----------

  /** The valid entries are exactly the bindings of a map, one each, at their own hashes. */
  ghost predicate Represents(h: Shape, t: Tables, m: map<Key, Value>) {
    && Fits(h, t) && WellPlaced(h, t)
    && (forall k :: CountIf(t, HasKey(k)) == One(k in m))
    && (forall k, v :: CountIf(t, IsBinding(k, v)) == One(k in m && m[k] == v))
  }

  /** A look-up answers what the map says, hit or miss. */
  lemma LookupIsMap(h: Shape, t: Tables, m: map<Key, Value>, k: Key)
    requires h.Valid() && Represents(h, t, m)
    ensures Lookup(h, t, k) == if k in m then Some(m[k]) else None
  {
    hide CountIf, Find;
    if k in m {
      assert CountIf(t, HasKey(k)) == One(k in m);
      var i, j := Witness(t, HasKey(k));
      assert Holds(h, t, k, i);
    }
    var slot := Find(h, t, k, h.numTables);
    if slot != -1 {
      var v := Candidate(h, t, k, slot).value;
      CountWitness(t, slot, h.hash(k, slot), IsBinding(k, v));
      assert CountIf(t, IsBinding(k, v)) == One(k in m && m[k] == v);
    }
  }

  /** A successful insertion of an absent key adds exactly the new binding. A failed one adds it
      too, and loses exactly the binding left over - possibly another key's. The number of valid
      entries grows by one or stays. */
  lemma InsertIsMap(h: Shape, t: Tables, m: map<Key, Value>, k: Key, v: Value, victimBit: Bit, trials: nat)
    requires h.Valid() && Represents(h, t, m) && k !in m
    ensures var r := InsertChain(h, t, Entry(k, v, true), 0, victimBit, trials);
            var m' := m[k := v];
            && (r.success ==> Represents(h, r.tables, m'))
            && (!r.success ==>
                  && r.left.key in m' && m'[r.left.key] == r.left.value
                  && Represents(h, r.tables, m' - {r.left.key}))
            && CountIf(r.tables, IsValid()) == CountIf(t, IsValid()) + One(r.success)
  {
    var e := Entry(k, v, true);
    var r := InsertChain(h, t, e, 0, victimBit, trials);
    InsertKeepsPlaces(h, t, e, 0, victimBit, trials);
    InsertConserves(h, t, e, 0, victimBit, trials, IsValid());
    InsertConserves(h, t, e, 0, victimBit, trials, IsBinding(r.left.key, r.left.value));
    hide InsertChain, CountIf;
    assert !r.success ==> IsBinding(r.left.key, r.left.value)(r.left);
    var m' := if r.success then m[k := v] else m[k := v] - {r.left.key};
    forall q ensures CountIf(r.tables, HasKey(q)) == One(q in m') {
      InsertConserves(h, t, e, 0, victimBit, trials, HasKey(q));
    }
    forall q, w ensures CountIf(r.tables, IsBinding(q, w)) == One(q in m' && m'[q] == w) {
      InsertConserves(h, t, e, 0, victimBit, trials, IsBinding(q, w));
      KeyBeforeBinding(r.tables, q, w);
      assert CountIf(r.tables, HasKey(q)) == One(q in m');
    }
  }

  lemma KeyBeforeBinding(t: Tables, k: Key, v: Value)
    ensures CountIf(t, HasKey(k)) == 0 ==> CountIf(t, IsBinding(k, v)) == 0
  {
    if CountIf(t, IsBinding(k, v)) > 0 {
      var i, j := Witness(t, IsBinding(k, v));
      CountWitness(t, i, j, HasKey(k));
    }
  }

  lemma RemoveIsMap(h: Shape, t: Tables, m: map<Key, Value>, k: Key)
    requires h.Valid() && Represents(h, t, m)
    ensures Represents(h, RemoveKey(h, t, k, h.numTables), m - {k})
    ensures Find(h, t, k, h.numTables) != -1 <==> k in m
  {
    var r: Tables := RemoveKey(h, t, k, h.numTables);
    LookupIsMap(h, t, m, k);
    RemoveKeepsPlaces(h, t, k);
    hide RemoveKey, CountIf, Find;
    forall q ensures CountIf(r, HasKey(q)) == One(q in m - {k}) {
      if q == k {
        RemoveClears(h, t, k, HasKey(q));
      } else {
        RemoveConserves(h, t, k, h.numTables, HasKey(q));
      }
    }
    forall q, w ensures CountIf(r, IsBinding(q, w)) == One(q in m - {k} && (m - {k})[q] == w) {
      if q == k {
        RemoveClears(h, t, k, IsBinding(q, w));
      } else {
        RemoveConserves(h, t, k, h.numTables, IsBinding(q, w));
      }
    }
  }

  // ---------- Runs ----------

  datatype Operation = OpInsert(key: Key, value: Value) | OpRemove(key: Key)

  /** The tables and the eviction bit, beside the map they stand for. */
  datatype Machine = Machine(tables: Tables, victimBit: Bit, contents: map<Key, Value>)

  ghost function Perform(h: Shape, y: Machine, trials: nat, op: Operation): (z: Machine)
    requires h.Valid() && Fits(h, y.tables)
    ensures Fits(h, z.tables)
  {
    match op
    case OpInsert(k, v) =>
      var r := InsertChain(h, y.tables, Entry(k, v, true), 0, y.victimBit, trials);
      Machine(r.tables, r.victimBit,
              if r.success then y.contents[k := v] else y.contents[k := v] - {r.left.key})
    case OpRemove(k) =>
      Machine(RemoveKey(h, y.tables, k, h.numTables), y.victimBit, y.contents - {k})
  }

  ghost function Empty(h: Shape): Machine {
    Machine(seq(h.numTables, i => seq(h.size, j => Entry(0, 0, false))), 0, map[])
  }

  ghost function Run(h: Shape, trials: nat, ops: seq<Operation>): (z: Machine)
    requires h.Valid()
    ensures Fits(h, z.tables)
  {
    if ops == [] then Empty(h)
    else Perform(h, Run(h, trials, ops[..|ops| - 1]), trials, ops[|ops| - 1])
  }

  /** Every insertion of the run is of a key the map does not have at that point. */
  ghost predicate InsertsAbsentKeys(h: Shape, trials: nat, ops: seq<Operation>)
    requires h.Valid()
  {
    ops == [] ||
    (var before, op := Run(h, trials, ops[..|ops| - 1]), ops[|ops| - 1];
     InsertsAbsentKeys(h, trials, ops[..|ops| - 1]) && (op.OpInsert? ==> op.key !in before.contents))
  }

  lemma {:induction false} NothingCounted(t: Tables, p: Entry -> bool)
    requires forall i, j :: 0 <= i < |t| && 0 <= j < |t[i]| ==> !p(t[i][j])
    ensures CountIf(t, p) == 0
  {
    if CountIf(t, p) > 0 {
      var i, j := Witness(t, p);
    }
  }

  lemma EmptyIsMap(h: Shape)
    ensures Represents(h, Empty(h).tables, map[])
  {
    hide CountIf;
    forall k ensures CountIf(Empty(h).tables, HasKey(k)) == 0 { NothingCounted(Empty(h).tables, HasKey(k)); }
    forall k, v ensures CountIf(Empty(h).tables, IsBinding(k, v)) == 0 {
      NothingCounted(Empty(h).tables, IsBinding(k, v));
    }
  }

  /** Over any run of insertions of absent keys and removals the table is the map, for any hash,
      any two or more tables and any trial bound. */
  lemma {:induction false} RunIsMap(h: Shape, trials: nat, ops: seq<Operation>)
    requires h.Valid() && InsertsAbsentKeys(h, trials, ops)
    ensures Represents(h, Run(h, trials, ops).tables, Run(h, trials, ops).contents)
  {
    hide Represents, InsertChain, RemoveKey, CountIf;
    if ops == [] {
      EmptyIsMap(h);
    } else {
      var y, op := Run(h, trials, ops[..|ops| - 1]), ops[|ops| - 1];
      RunIsMap(h, trials, ops[..|ops| - 1]);
      match op
      case OpInsert(k, v) => InsertIsMap(h, y.tables, y.contents, k, v, y.victimBit, trials);
      case OpRemove(k) => RemoveIsMap(h, y.tables, y.contents, k);
    }
  }

  // ---------- What can be told before an insertion ----------

  /** The entries an insertion has moved so far, by table and slot. */
  type Moved = map<(nat, nat), Entry>

  /** The entry in a slot of the table as it stands, or what has been moved there. */
  function Seen(h: Shape, t: Tables, moved: Moved, i: nat, j: nat): Entry
    requires Fits(h, t) && i < h.numTables && j < h.size
  {
    if (i, j) in moved then moved[(i, j)] else t[i][j]
  }

  /** The eviction path of an entry through the table as it stands, which is only read: None if some
      entry on it has a free candidate within the trials, and the entry left over otherwise. */
  function EvictionPath(
    h: Shape, t: Tables, hand: Entry, moved: Moved, victimIdx: nat, victimBit: Bit, trials: nat): Option<Entry>
    requires h.Valid() && Fits(h, t)
    decreases trials
  {
    if trials == 0 then Some(hand)
    else if FreeSlot(h, t, hand.key, h.numTables) != -1 then None
    else
      var i := Victim(h, hand.key, victimIdx, victimBit);
      var j := h.hash(hand.key, i);
      EvictionPath(h, t, Seen(h, t, moved, i, j), moved[(i, j) := hand],
                   if victimIdx + 1 == h.numTables then 0 else victimIdx + 1, 1 - victimBit, trials - 1)
  }

  /** The tables amid an insertion: the table as it stood, with the moved entries in their slots. */
  ghost predicate Overlaid(h: Shape, t: Tables, moved: Moved, u: Tables)
    requires Fits(h, t) && Fits(h, u)
  {
    && (forall i, j :: 0 <= i < h.numTables && 0 <= j < h.size ==> u[i][j] == Seen(h, t, moved, i, j))
    && (forall i, j :: 0 <= i < h.numTables && 0 <= j < h.size ==> u[i][j].valid == t[i][j].valid)
  }

  /** Evictions never free a slot. */
  lemma {:induction false} SameFreeSlot(h: Shape, t: Tables, moved: Moved, u: Tables, k: Key, n: nat)
    requires h.Valid() && Fits(h, t) && Fits(h, u) && n <= h.numTables && Overlaid(h, t, moved, u)
    ensures FreeSlot(h, u, k, n) == FreeSlot(h, t, k, n)
  {
    if n > 0 { SameFreeSlot(h, t, moved, u, k, n - 1); }
  }

  lemma EvictKeepsOverlay(h: Shape, t: Tables, moved: Moved, u: Tables, e: Entry, i: nat, j: nat)
    requires h.Valid() && Fits(h, t) && Fits(h, u) && Overlaid(h, t, moved, u)
    requires i < h.numTables && j < h.size && e.valid && u[i][j].valid
    ensures Fits(h, Put(u, i, j, e)) && Overlaid(h, t, moved[(i, j) := e], Put(u, i, j, e))
  {
    var w := Put(u, i, j, e);
    forall a, b | 0 <= a < h.numTables && 0 <= b < h.size
      ensures w[a][b] == Seen(h, t, moved[(i, j) := e], a, b) && w[a][b].valid == t[a][b].valid
    {
      assert u[a][b] == Seen(h, t, moved, a, b);
    }
  }

  /** An insertion goes exactly the way its path through the table as it stands says. */
  lemma {:induction false} ChainIsPath(
    h: Shape, t: Tables, moved: Moved, u: Tables, e: Entry, victimIdx: nat, victimBit: Bit, trials: nat)
    requires h.Valid() && Fits(h, t) && Fits(h, u) && Overlaid(h, t, moved, u) && e.valid
    ensures var r, p := InsertChain(h, u, e, victimIdx, victimBit, trials),
                        EvictionPath(h, t, e, moved, victimIdx, victimBit, trials);
            (r.success <==> p.None?) && (p.Some? ==> r.left == p.value)
    decreases trials
  {
    hide InsertChain, FreeSlot, Victim, Overlaid, Put, Seen;
    if trials == 0 {
      InsertStops(h, u, e, victimIdx, victimBit);
    } else {
      InsertUnfold(h, u, e, victimIdx, victimBit, trials);
      SameFreeSlot(h, t, moved, u, e.key, h.numTables);
      if FreeSlot(h, t, e.key, h.numTables) == -1 {
        var i := Victim(h, e.key, victimIdx, victimBit);
        var j := h.hash(e.key, i);
        EvictKeepsOverlay(h, t, moved, u, e, i, j);
        OverlaidSlot(h, t, moved, u, i, j);
        ChainIsPath(h, t, moved[(i, j) := e], Put(u, i, j, e), u[i][j],
                    if victimIdx + 1 == h.numTables then 0 else victimIdx + 1, 1 - victimBit, trials - 1);
      }
    }
  }

  lemma OverlaidSlot(h: Shape, t: Tables, moved: Moved, u: Tables, i: nat, j: nat)
    requires Fits(h, t) && Fits(h, u) && Overlaid(h, t, moved, u) && i < h.numTables && j < h.size
    ensures u[i][j] == Seen(h, t, moved, i, j)
  {
  }

  /** The path of a new entry. */
  function PathOf(h: Shape, t: Tables, e: Entry, victimBit: Bit, trials: nat): Option<Entry>
    requires h.Valid() && Fits(h, t)
  {
    EvictionPath(h, t, e, map[], 0, victimBit, trials)
  }

  /** An insertion succeeds if and only if an entry on its path has a free candidate in the table as it
      stands - with at least one trial certainly if the new key has one, and with exactly one trial
      only then. Otherwise the path says what is left over. */
  lemma InsertSucceedsIff(h: Shape, t: Tables, e: Entry, victimBit: Bit, trials: nat)
    requires h.Valid() && Fits(h, t) && e.valid
    ensures var r, p := InsertChain(h, t, e, 0, victimBit, trials), PathOf(h, t, e, victimBit, trials);
            (r.success <==> p.None?) && (p.Some? ==> r.left == p.value)
    ensures FreeSlot(h, t, e.key, h.numTables) != -1 && trials >= 1 ==> PathOf(h, t, e, victimBit, trials).None?
    ensures FreeSlot(h, t, e.key, h.numTables) == -1 && trials == 1 ==>
              PathOf(h, t, e, victimBit, trials) == Some(Candidate(h, t, e.key, Victim(h, e.key, 0, victimBit)))
  {
    hide InsertChain, FreeSlot, Victim;
    ChainIsPath(h, t, map[], t, e, 0, victimBit, trials);
  }

  /** Inserting an absent key keeps every other binding if and only if its path finds room or comes
      back to the new entry itself; and the new key is found afterwards if and only if the path finds
      room or leaves over another entry. */
  lemma InsertKeepsOthersIff(h: Shape, t: Tables, m: map<Key, Value>, k: Key, v: Value, victimBit: Bit, trials: nat)
    requires h.Valid() && Represents(h, t, m) && k !in m
    ensures var r := InsertChain(h, t, Entry(k, v, true), 0, victimBit, trials);
            var p := PathOf(h, t, Entry(k, v, true), victimBit, trials);
            && ((forall q :: q in m ==> Lookup(h, r.tables, q) == Some(m[q])) <==> p.None? || p.value.key == k)
            && (Lookup(h, r.tables, k) == Some(v) <==> p.None? || p.value.key != k)
  {
    var e := Entry(k, v, true);
    var r, p := InsertChain(h, t, e, 0, victimBit, trials), PathOf(h, t, e, victimBit, trials);
    InsertIsMap(h, t, m, k, v, victimBit, trials);
    InsertSucceedsIff(h, t, e, victimBit, trials);
    hide InsertChain, Represents, Lookup, PathOf;
    var m' := if r.success then m[k := v] else m[k := v] - {r.left.key};
    forall q ensures Lookup(h, r.tables, q) == if q in m' then Some(m'[q]) else None {
      LookupIsMap(h, r.tables, m', q);
    }
    if p.Some? && p.value.key != k { assert Lookup(h, r.tables, p.value.key) == None; }
  }

  /** Inserting into tables with unique keys keeps them unique if and only if the key was absent, or
      its path comes back to that very key when the trials run out. */
  lemma StaysUniqueIff(h: Shape, t: Tables, e: Entry, victimBit: Bit, trials: nat)
    requires h.Valid() && Fits(h, t) && e.valid
    requires forall k :: CountIf(t, HasKey(k)) <= 1
    ensures var r, p := InsertChain(h, t, e, 0, victimBit, trials), PathOf(h, t, e, victimBit, trials);
            (forall k :: CountIf(r.tables, HasKey(k)) <= 1) <==>
            (CountIf(t, HasKey(e.key)) == 0 || (p.Some? && p.value.key == e.key))
  {
    var r := InsertChain(h, t, e, 0, victimBit, trials);
    InsertSucceedsIff(h, t, e, victimBit, trials);
    hide InsertChain, CountIf, PathOf;
    InsertConserves(h, t, e, 0, victimBit, trials, HasKey(e.key));
    forall k | k != e.key
      ensures CountIf(r.tables, HasKey(k)) <= 1
    {
      InsertConserves(h, t, e, 0, victimBit, trials, HasKey(k));
      assert CountIf(t, HasKey(k)) <= 1;
    }
    assert CountIf(t, HasKey(e.key)) <= 1;
  }

  ghost const PAIR := Shape(2, 1, (k, i) => 0)
  ghost const FULL: Tables := [[Entry(1, 10, true)], [Entry(2, 20, true)]]

  lemma FullCounts(p: Entry -> bool)
    ensures CountIf(FULL, p) == One(p(Entry(1, 10, true))) + One(p(Entry(2, 20, true)))
  {
    assert FULL[1..][1..] == [] && FULL[0][1..] == [] && FULL[1][1..] == [];
    assert CountIf(FULL[1..], p) == CountRow(FULL[1], p) + CountIf([], p);
  }

  lemma FullIsMap()
    ensures PAIR.Valid() && Represents(PAIR, FULL, map[1 := 10, 2 := 20])
  {
    hide CountIf;
    var m: map<Key, Value> := map[1 := 10, 2 := 20];
    forall k ensures CountIf(FULL, HasKey(k)) == One(k in m) { FullCounts(HasKey(k)); }
    forall k, v ensures CountIf(FULL, IsBinding(k, v)) == One(k in m && m[k] == v) { FullCounts(IsBinding(k, v)); }
  }

  lemma FullInsert(e: Entry)
    requires PAIR.Valid()
    ensures Fits(PAIR, FULL) &&
            InsertChain(PAIR, FULL, e, 0, 0, 1) == Inserted(Put(FULL, 0, 0, e), false, FULL[0][0], 1)
  {
    assert FreeSlot(PAIR, FULL, e.key, 2) == -1;
  }

  /** Two insertions into empty tables fill them. */
  lemma RunFills()
    ensures PAIR.Valid() && Run(PAIR, 1, [OpInsert(2, 20), OpInsert(1, 10)]).tables == FULL
  {
    var ops := [OpInsert(2, 20), OpInsert(1, 10)];
    var none := Entry(0, 0, false);
    assert ops[..1] == [OpInsert(2, 20)] && ops[..1][..0] == [];
    var t0 := Empty(PAIR).tables;
    assert t0[0] == [none] && t0[1] == [none];
    assert FreeSlot(PAIR, t0, 2, 2) == 1;
    var t1 := Put(t0, 1, 0, Entry(2, 20, true));
    InsertUnfold(PAIR, t0, Entry(2, 20, true), 0, 0, 1);
    assert Candidate(PAIR, t1, 1, 1).valid && !Candidate(PAIR, t1, 1, 0).valid;
    assert FreeSlot(PAIR, t1, 1, 1) == 0 && FreeSlot(PAIR, t1, 1, 2) == 0;
    InsertUnfold(PAIR, t1, Entry(1, 10, true), 0, 1, 1);
    var t2 := Put(t1, 0, 0, Entry(1, 10, true));
    assert |t2| == 2 && t2[0] == FULL[0] && t2[1] == FULL[1];
  }

  /** Two tables of one entry each, both taken: inserting a third key with one trial puts it in and
      throws out the first key. */
  lemma FailedInsertLosesAnotherKey()
    ensures PAIR.Valid() && Fits(PAIR, FULL) && Represents(PAIR, FULL, map[1 := 10, 2 := 20])
    ensures var r := InsertChain(PAIR, FULL, Entry(3, 30, true), 0, 0, 1);
            !r.success && Lookup(PAIR, r.tables, 1) == None && Lookup(PAIR, r.tables, 3) == Some(30)
  {
    var m: map<Key, Value> := map[1 := 10, 2 := 20];
    FullIsMap();
    FullInsert(Entry(3, 30, true));
    var r := InsertChain(PAIR, FULL, Entry(3, 30, true), 0, 0, 1);
    InsertIsMap(PAIR, FULL, m, 3, 30, 0, 1);
    hide InsertChain, Represents, Lookup;
    assert r.left == Entry(1, 10, true);
    LookupIsMap(PAIR, r.tables, m[3 := 30] - {1}, 1);
    LookupIsMap(PAIR, r.tables, m[3 := 30] - {1}, 3);
  }

  // ---------- The tables in place ----------

  class CuckooHashTable {
    const shape: Shape
    const maxTrials: nat
    const tables: array2<Entry>
    var victimBit: Bit
    var insertFailures: u16

    ghost predicate Valid() {
      shape.Valid() && tables.Length0 == shape.numTables && tables.Length1 == shape.size
    }

    ghost function Row(i: nat): seq<Entry>
      requires i < tables.Length0
      reads tables
    {
      seq(tables.Length1, j requires 0 <= j < tables.Length1 reads tables => tables[i, j])
    }

    ghost function View(): (t: Tables)
      requires Valid()
      reads tables
      ensures Fits(shape, t)
      ensures forall i, j :: 0 <= i < shape.numTables && 0 <= j < shape.size ==> t[i][j] == tables[i, j]
    {
      seq(tables.Length0, i requires 0 <= i < tables.Length0 reads tables => Row(i))
    }

    constructor (shape: Shape, maxTrials: nat)
      requires shape.Valid()
      ensures Valid() && fresh(tables) && View() == Empty(shape).tables && victimBit == 0
      ensures this.shape == shape && this.maxTrials == maxTrials
    {
      this.shape, this.maxTrials := shape, maxTrials;
      tables := new Entry[shape.numTables, shape.size]((i, j) => Entry(0, 0, false));
      victimBit, insertFailures := 0, 0;
      new;
      SameRows(shape, View(), Empty(shape).tables);
    }

    /** The hashes of a key and the entries they lead to. */
    method ReadCandidates(key: Key) returns (hashes: array<nat>, entries: array<Entry>)
      requires Valid()
      ensures fresh(hashes) && fresh(entries) && hashes.Length == entries.Length == shape.numTables
      ensures forall i :: 0 <= i < shape.numTables ==> hashes[i] == shape.hash(key, i)
      ensures forall i :: 0 <= i < shape.numTables ==> entries[i] == Candidate(shape, View(), key, i)
    {
      hashes, entries := new nat[shape.numTables], new Entry[shape.numTables];
      for i := 0 to shape.numTables
        invariant forall k :: 0 <= k < i ==> hashes[k] == shape.hash(key, k)
        invariant forall k :: 0 <= k < i ==> entries[k] == Candidate(shape, View(), key, k)
      {
        hashes[i] := shape.hash(key, i);
        entries[i] := tables[i, hashes[i]];
      }
    }

    /** Writes the entries back to where they were read. */
    method WriteBack(hashes: array<nat>, entries: array<Entry>)
      requires Valid() && hashes.Length == entries.Length == shape.numTables
      requires forall i :: 0 <= i < shape.numTables ==> hashes[i] < shape.size
      modifies tables
      ensures Valid()
      ensures forall r, c :: 0 <= r < shape.numTables && 0 <= c < shape.size ==>
                View()[r][c] == if c == hashes[r] then entries[r] else old(View())[r][c]
    {
      for i := 0 to shape.numTables
        invariant forall r, c :: 0 <= r < shape.numTables && 0 <= c < shape.size ==>
                    tables[r, c] == if r < i && c == hashes[r] then entries[r] else old(tables[r, c])
      {
        tables[i, hashes[i]] := entries[i];
      }
    }

    method LookUp(key: Key) returns (hit: bool, value: Value)
      requires Valid()
      ensures hit == Lookup(shape, View(), key).Some?
      ensures hit ==> value == Lookup(shape, View(), key).value
    {
      var hashes, entries := ReadCandidates(key);
      var slot := -1;
      for i := 0 to shape.numTables
        invariant slot == Find(shape, View(), key, i)
      {
        if entries[i].valid && entries[i].key == key {
          slot := i;
        }
      }
      hit, value := false, 0;
      if slot != -1 {
        hit, value := true, entries[slot].value;
      }
    }

    /** The last candidate that is free. */
    method LastFree(entries: array<Entry>, ghost key: Key) returns (slot: int)
      requires Valid() && entries.Length == shape.numTables
      requires forall i :: 0 <= i < shape.numTables ==> entries[i] == Candidate(shape, View(), key, i)
      ensures slot == FreeSlot(shape, View(), key, shape.numTables)
    {
      slot := -1;
      for i := 0 to shape.numTables
        invariant slot == FreeSlot(shape, View(), key, i)
      {
        if !entries[i].valid {
          slot := i;
        }
      }
    }

    /** The new entry takes the free slot, or that of the victim. */
    method Exchange(hashes: array<nat>, entries: array<Entry>, slot: int, current: Entry, victimIdx: nat)
      returns (target: nat, success: bool, left: Entry)
      requires Valid() && victimIdx < shape.numTables && -1 <= slot < shape.numTables
      requires hashes.Length == entries.Length == shape.numTables
      requires forall i :: 0 <= i < shape.numTables ==> hashes[i] == shape.hash(current.key, i)
      modifies entries
      ensures target == if slot != -1 then slot else Victim(shape, current.key, victimIdx, victimBit)
      ensures target < shape.numTables && success == (slot != -1)
      ensures left == if success then current else old(entries[target])
      ensures forall i :: 0 <= i < shape.numTables ==> entries[i] == if i == target then current else old(entries[i])
    {
      if slot != -1 {
        target, success, left := slot, true, current;
      } else {
        target := hashes[victimIdx] % (shape.numTables - 1) + victimBit;
        success, left := false, entries[target];
      }
      entries[target] := current;
    }

    /** One trial: into a free slot, or in exchange for a victim. */
    method Trial(current: Entry, victimIdx: nat) returns (success: bool, left: Entry)
      requires Valid() && victimIdx < shape.numTables
      modifies tables, `victimBit
      ensures Valid() && victimBit == 1 - old(victimBit)
      ensures var t, slot := old(View()), FreeSlot(shape, old(View()), current.key, shape.numTables);
              var i := if slot != -1 then slot else Victim(shape, current.key, victimIdx, old(victimBit));
              && success == (slot != -1)
              && View() == Put(t, i, shape.hash(current.key, i), current)
              && left == if success then current else Candidate(shape, t, current.key, i)
    {
      hide FreeSlot, Victim;
      var hashes, entries := ReadCandidates(current.key);
      var slot := LastFree(entries, current.key);
      ghost var t := View();
      var target: nat;
      target, success, left := Exchange(hashes, entries, slot, current, victimIdx);
      WriteBack(hashes, entries);
      victimBit := 1 - victimBit;
      SameRows(shape, View(), Put(t, target, shape.hash(current.key, target), current));
    }

    method Insert(key: Key, value: Value) returns (success: bool)
      requires Valid()
      modifies tables, `victimBit, `insertFailures
      ensures Valid()
      ensures var r := InsertChain(shape, old(View()), Entry(key, value, true), 0, old(victimBit), maxTrials);
              success == r.success && View() == r.tables && victimBit == r.victimBit
      ensures insertFailures == if success then old(insertFailures) else To16(old(insertFailures) + 1)
    {
      hide FreeSlot, Victim, To16, InsertChain, Put, Candidate;
      var current, victimIdx, j := Entry(key, value, true), 0, 0;
      ghost var whole := InsertChain(shape, View(), current, victimIdx, victimBit, maxTrials);
      success := false;
      while j < maxTrials && !success
        invariant 0 <= j <= maxTrials && victimIdx < shape.numTables
        invariant !success ==>
                    InsertChain(shape, View(), current, victimIdx, victimBit, maxTrials - j) == whole
        invariant success ==> whole.success && View() == whole.tables && victimBit == whole.victimBit
        invariant insertFailures == old(insertFailures)
      {
        InsertUnfold(shape, View(), current, victimIdx, victimBit, maxTrials - j);
        success, current := Trial(current, victimIdx);
        if !success {
          victimIdx := victimIdx + 1;
          if victimIdx == shape.numTables {
            victimIdx := 0;
          }
        }
        j := j + 1;
      }
      if !success {
        InsertStops(shape, View(), current, victimIdx, victimBit);
        insertFailures := To16(insertFailures + 1);
      }
    }

    /** Invalidates the entries that hold the key. */
    static method Invalidate(key: Key, entries: array<Entry>, ghost h: Shape, ghost t: Tables) returns (success: bool)
      requires h.Valid() && Fits(h, t) && entries.Length == h.numTables
      requires forall i :: 0 <= i < h.numTables ==> entries[i] == Candidate(h, t, key, i)
      modifies entries
      ensures success <==> Find(h, t, key, h.numTables) != -1
      ensures forall i :: 0 <= i < h.numTables ==>
                entries[i] == if Holds(h, t, key, i) then Candidate(h, t, key, i).(valid := false)
                              else Candidate(h, t, key, i)
    {
      success := false;
      for i := 0 to entries.Length
        invariant success <==> Find(h, t, key, i) != -1
        invariant forall k :: 0 <= k < h.numTables ==>
                    entries[k] == if k < i && Holds(h, t, key, k) then Candidate(h, t, key, k).(valid := false)
                                  else Candidate(h, t, key, k)
      {
        if entries[i].valid && entries[i].key == key {
          entries[i] := entries[i].(valid := false);
          success := true;
        }
      }
    }

    method Remove(key: Key) returns (success: bool)
      requires Valid()
      modifies tables
      ensures Valid()
      ensures View() == RemoveKey(shape, old(View()), key, shape.numTables)
      ensures success <==> Find(shape, old(View()), key, shape.numTables) != -1
    {
      hide RemoveKey, Find;
      var hashes, entries := ReadCandidates(key);
      ghost var t := View();
      success := Invalidate(key, entries, shape, t);
      WriteBack(hashes, entries);
      RemovedInPlace(shape, t, View(), key);
    }
  }

  lemma RemovedInPlace(h: Shape, t: Tables, r: Tables, k: Key)
    requires h.Valid() && Fits(h, t) && Fits(h, r)
    requires forall i: nat, j: nat :: i < h.numTables && j < h.size ==>
               r[i][j] == if j == h.hash(k, i) && Holds(h, t, k, i) then t[i][j].(valid := false) else t[i][j]
    ensures r == RemoveKey(h, t, k, h.numTables)
  {
    var r': Tables := RemoveKey(h, t, k, h.numTables);
    hide RemoveKey;
    forall i: nat, j: nat | i < h.numTables && j < h.size ensures r[i][j] == r'[i][j] {
      RemoveEntry(h, t, k, h.numTables, i, j);
    }
    SameRows(h, r, r');
  }

  lemma SameRows(h: Shape, a: Tables, b: Tables)
    requires Fits(h, a) && Fits(h, b)
    requires forall i, j :: 0 <= i < h.numTables && 0 <= j < h.size ==> a[i][j] == b[i][j]
    ensures a == b
  {
    assert forall i :: 0 <= i < h.numTables ==> a[i] == b[i];
  }
}
