/** The table from thread ids to implicit producers (get_or_add_implicit_producer in
    concurrentqueue.h): open addressing with linear probing, tables that are replaced by
    larger ones but never rehashed, and entries copied forward when they are next used.
    Each call is one atomic step here. */
module ProducerHash {
  import opened Common

  datatype Slot = Free | Used(key: int, value: int)

  /** The entries of one table; its capacity is their number. */
  type Table = seq<Slot>

  /** The slot d places behind slot h, round the end. */
  function Probe(h: nat, d: nat, cap: nat): (i: nat)
    requires h < cap && d < cap
    ensures i < cap
  {
    if h + d < cap then h + d else h + d - cap
  }

  /** How far behind slot h slot j is. */
  function Distance(h: nat, j: nat, cap: nat): (d: nat)
    requires h < cap && j < cap
    ensures d < cap && Probe(h, d, cap) == j
  {
    if j >= h then j - h else j + cap - h
  }

  function Home(id: int, hash: int -> nat, cap: nat): (h: nat)
    requires cap > 0
    ensures h < cap
  {
    hash(id) % cap
  }

  /** No free slot lies between a key's home and the key. */
  ghost predicate Reachable(t: Table, hash: int -> nat, j: nat) requires j < |t| && t[j].Used? {
    var h := Home(t[j].key, hash, |t|);
    forall d: nat :: d < Distance(h, j, |t|) ==> t[Probe(h, d, |t|)].Used?
  }

  ghost predicate WellPlaced(t: Table, hash: int -> nat) {
    && (forall j: nat :: j < |t| && t[j].Used? ==> Reachable(t, hash, j))
    && (forall i: nat, j: nat :: i < j < |t| && t[i].Used? && t[j].Used? ==> t[i].key != t[j].key)
  }

  ghost predicate HasFree(t: Table) { exists f: nat :: f < |t| && t[f].Free? }

  ghost predicate Contains(t: Table, id: int) { exists j: nat :: j < |t| && t[j].Used? && t[j].key == id }

  /** All entries are right. */
  ghost predicate Agrees(t: Table, known: map<int, int>) {
    forall j: nat :: j < |t| && t[j].Used? ==> t[j].key in known && known[t[j].key] == t[j].value
  }

  ghost predicate TableOk(t: Table, hash: int -> nat, known: map<int, int>) {
    WellPlaced(t, hash) && HasFree(t) && Agrees(t, known)
  }

  // ------------------------------------------------------------------ probing

  /** The slots passed by a search for id that has gone d places. */
  ghost predicate Passed(t: Table, hash: int -> nat, id: int, d: nat) requires |t| > 0 {
    forall e: nat :: e < d && e < |t| ==>
      var s := t[Probe(Home(id, hash, |t|), e, |t|)]; s.Used? && s.key != id
  }

  /** A search meets a free slot before it has been round. */
  lemma StopsInTime(t: Table, hash: int -> nat, id: int, d: nat)
    requires HasFree(t) && Passed(t, hash, id, d)
    ensures d < |t|
  {
    var f: nat :| f < |t| && t[f].Free?;
    var h := Home(id, hash, |t|);
    var e := Distance(h, f, |t|);
    assert t[Probe(h, e, |t|)].Free?;
    assert d <= e;
  }

  /** A free slot means the id is not in the table. */
  lemma NotBehindFree(t: Table, hash: int -> nat, id: int, d: nat)
    requires WellPlaced(t, hash) && d < |t| && Passed(t, hash, id, d) && t[Probe(Home(id, hash, |t|), d, |t|)].Free?
    ensures !Contains(t, id)
  {
  }

  /** One place further. */
  lemma PassOne(t: Table, hash: int -> nat, id: int, d: nat)
    requires HasFree(t) && d < |t| && Passed(t, hash, id, d)
    requires var s := t[Probe(Home(id, hash, |t|), d, |t|)]; s.Used? && s.key != id
    ensures d + 1 < |t| && Passed(t, hash, id, d + 1)
    ensures (Probe(Home(id, hash, |t|), d, |t|) + 1) % |t| == Probe(Home(id, hash, |t|), d + 1, |t|)
  {
    StopsInTime(t, hash, id, d + 1);
    var h := Home(id, hash, |t|);
    hide Home, Passed;
    Wraps(Probe(h, d, |t|), |t|);
  }

  lemma Wraps(i: nat, cap: nat)
    requires i < cap
    ensures (i + 1) % cap == if i + 1 == cap then 0 else i + 1
  {
  }

  /** Takes a free slot of the probe sequence. */
  lemma Placed(t: Table, hash: int -> nat, id: int, value: int, d: nat)
    requires WellPlaced(t, hash) && d < |t| && Passed(t, hash, id, d) && t[Probe(Home(id, hash, |t|), d, |t|)].Free?
    ensures WellPlaced(t[Probe(Home(id, hash, |t|), d, |t|) := Used(id, value)], hash)
  {
  }

  // -------------------------------------------------------------- room for all

  ghost function Keys(t: Table): set<int> { set j: nat | j < |t| && t[j].Used? :: t[j].key }

  /** A full table holds as many keys as slots. */
  lemma {:induction false} FullTable(t: Table)
    requires forall j: nat :: j < |t| ==> t[j].Used?
    requires forall i: nat, j: nat :: i < j < |t| ==> t[i].key != t[j].key
    ensures |Keys(t)| == |t|
  {
    if |t| == 0 {
      assert Keys(t) == {};
    } else {
      var n := |t| - 1;
      FullTable(t[..n]);
      assert Keys(t) == Keys(t[..n]) + {t[n].key};
      assert t[n].key !in Keys(t[..n]);
    }
  }

  /** A table larger than the number of ids has a free slot. */
  lemma RoomForAll(t: Table, hash: int -> nat, known: map<int, int>)
    requires WellPlaced(t, hash) && Agrees(t, known) && |known| < |t|
    ensures HasFree(t)
  {
    assert |known.Keys| == |known|;
    SubsetSize(Keys(t), known.Keys);
    if !HasFree(t) { FullTable(t); }
  }

  // ---------------------------------------------------------------- the tables

  ghost predicate TablesOk(tables: seq<Table>, hash: int -> nat, known: map<int, int>) {
    && |tables| > 0
    && (forall k :: 0 <= k < |tables| ==> TableOk(tables[k], hash, known))
    && (forall id :: id in known ==> Somewhere(tables, id))
    && |known| < |tables[0]|
  }

  ghost predicate Somewhere(tables: seq<Table>, id: int) { exists k :: 0 <= k < |tables| && Contains(tables[k], id) }

  /** No two ids have the same producer. */
  ghost predicate Injective(known: map<int, int>) {
    forall a, b :: a in known && b in known && known[a] == known[b] ==> a == b
  }

  /** Nobody has this producer yet. */
  ghost predicate IsNew(producer: int, known: map<int, int>) { forall a :: a in known ==> known[a] != producer }

  /** Filling a slot of the current table for an id that is, or becomes, known. */
  lemma TablesPlaced(tables: seq<Table>, hash: int -> nat, known: map<int, int>, known': map<int, int>, id: int, value: int, d: nat)
    requires TablesOk(tables, hash, known) && known' == known[id := value] && (id in known ==> known[id] == value) && |known'| < |tables[0]|
    requires d < |tables[0]| && Passed(tables[0], hash, id, d)
    requires tables[0][Probe(Home(id, hash, |tables[0]|), d, |tables[0]|)].Free?
    ensures var t := tables[0];
            TablesOk(tables[0 := t[Probe(Home(id, hash, |t|), d, |t|) := Used(id, value)]], hash, known')
  {
    var t := tables[0];
    var i := Probe(Home(id, hash, |t|), d, |t|);
    var t' := t[i := Used(id, value)];
    var tables' := tables[0 := t'];
    Placed(t, hash, id, value, d);
    RoomForAll(t', hash, known');
    hide WellPlaced, HasFree, Passed;
    forall k | 0 <= k < |tables'| ensures TableOk(tables'[k], hash, known') { assert TableOk(tables[k], hash, known); }
    forall a | a in known' ensures Somewhere(tables', a) {
      if a == id {
        assert t'[i].key == id && Contains(tables'[0], id);
      } else {
        var k :| 0 <= k < |tables| && Contains(tables[k], a);
        if k == 0 {
          var j: nat :| j < |t| && t[j].Used? && t[j].key == a;
          assert t'[j] == t[j];
        }
        assert Contains(tables'[k], a);
      }
    }
  }

  lemma EmptyTable(n: nat, hash: int -> nat, known: map<int, int>)
    requires n > 0
    ensures TableOk(seq(n, _ => Free), hash, known)
  {
    assert seq(n, _ => Free)[0].Free?;
  }

  /** A larger table in front of the others. */
  lemma TablesGrown(tables: seq<Table>, hash: int -> nat, known: map<int, int>, cap: nat)
    requires TablesOk(tables, hash, known) && cap > |known|
    ensures TablesOk([seq(cap, _ => Free)] + tables, hash, known)
  {
    var tables' := [seq(cap, _ => Free)] + tables;
    EmptyTable(cap, hash, known);
    forall id | id in known ensures Somewhere(tables', id) {
      var k :| 0 <= k < |tables| && Contains(tables[k], id);
      assert tables'[k + 1] == tables[k];
    }
  }

  class Producers {
    var tables: seq<Table>
    var count: nat

    const hash: int -> nat
    ghost var known: map<int, int>

    ghost predicate Valid() reads this {
      TablesOk(tables, hash, known) && count == |known| && Injective(known)
    }

    /** populate_initial_implicit_producer_hash; the initial size is a power of two. */
    constructor (size: nat, hash: int -> nat)
      requires size > 0
      ensures Valid() && known == map[] && this.hash == hash
    {
      tables := [seq(size, _ => Free)];
      count := 0;
      this.hash := hash;
      known := map[];
      new;
      EmptyTable(size, hash, known);
    }

    /** The search of one table. */
    method Search(t: Table, id: int) returns (r: Option<int>)
      requires TableOk(t, hash, known)
      ensures r.Some? <==> Contains(t, id)
      ensures r.Some? ==> id in known && known[id] == r.value
    {
      hide WellPlaced, HasFree, Passed, Probe;
      SearchStarts(t, hash, id);
      var index := hash(id);
      ghost var d := 0;
      while true
        invariant d < |t| && Passed(t, hash, id, d) && index % |t| == Probe(Home(id, hash, |t|), d, |t|)
        decreases |t| - d
      {
        index := index % |t|;
        match t[index] {
          case Used(key, value) =>
            if key == id { return Some(value); }
          case Free =>
            NotBehindFree(t, hash, id, d);
            return None;
        }
        PassOne(t, hash, id, d);
        d := d + 1;
        index := index + 1;
      }
    }

    /** The loop that looks for a slot of the current table to claim for id. */
    method FindFree(t: Table, id: int) returns (index: nat, ghost d: nat)
      requires HasFree(t) && !Contains(t, id)
      ensures index < |t| && t[index].Free?
      ensures d < |t| && Passed(t, hash, id, d) && index == Probe(Home(id, hash, |t|), d, |t|)
    {
      hide HasFree, Passed, Probe;
      SearchStarts(t, hash, id);
      index, d := hash(id), 0;
      while true
        invariant d < |t| && Passed(t, hash, id, d) && index % |t| == Probe(Home(id, hash, |t|), d, |t|)
        decreases |t| - d
      {
        index := index % |t|;
        if t[index].Free? { return; }
        PassOne(t, hash, id, d);
        d := d + 1;
        index := index + 1;
      }
    }

    /** Enters id in the current table. */
    method Claim(id: int, value: int, ghost known': map<int, int>)
      requires TablesOk(tables, hash, known) && !Contains(tables[0], id)
      requires known' == known[id := value] && (id in known ==> known[id] == value) && |known'| < |tables[0]|
      modifies this`tables, this`known
      ensures TablesOk(tables, hash, known) && known == known' && |tables[0]| == old(|tables[0]|)
    {
      hide WellPlaced, HasFree, Passed, Probe, TablesOk;
      AllOk(tables, hash, known);
      var t := tables[0];
      ghost var d;
      var index;
      index, d := FindFree(t, id);
      TablesPlaced(tables, hash, known, known', id, value, d);
      tables := tables[0 := t[index := Used(id, value)]];
      known := known';
    }

    /** The walk over the tables, the current one first. */
    method Find(id: int) returns (found: Option<int>, k: nat)
      requires Valid()
      ensures if found.Some? then id in known && found.value == known[id] && k < |tables| else id !in known
      ensures forall m :: 0 <= m < k && m < |tables| ==> !Contains(tables[m], id)
      ensures found.None? ==> k == |tables|
    {
      hide TablesOk, WellPlaced, HasFree, Contains;
      AllOk(tables, hash, known);
      k := 0;
      while k < |tables|
        invariant 0 <= k <= |tables| && forall m :: 0 <= m < k ==> !Contains(tables[m], id)
      {
        found := Search(tables[k], id);
        if found.Some? { return; }
        k := k + 1;
      }
      NotKnown(tables, hash, known, id);
      found := None;
    }

    /** get_or_add_implicit_producer.  `room` says whether the table allocation
        succeeds, `created` is the new producer or none when its allocation fails. */
    method GetOrAdd(id: int, room: bool, created: Option<int>) returns (r: Option<int>)
      requires Valid() && (created.Some? ==> IsNew(created.value, known))
      modifies this
      ensures Valid()
      ensures if id in old(known) then r == Some(old(known)[id]) && known == old(known)
              else if r.Some? then r == created && known == old(known)[id := r.value]
              else known == old(known) && (created.None? || !room)
    {
      hide TablesOk, WellPlaced, HasFree, Contains;
      var found, k := Find(id);
      AllOk(tables, hash, known);
      if found.Some? {
        if k > 0 {
          assert known[id := found.value] == known;
          Claim(id, found.value, known);
        }
        return found;
      }
      r := Insert(id, room, created);
    }

    /** Doubles the capacity until it is more than twice the count. */
    method Enough(newCount: nat, capacity: nat) returns (c: nat)
      requires capacity > 0
      ensures newCount < c / 2
    {
      c := capacity;
      while newCount >= c / 2
        invariant c > 0
        decreases 2 * newCount + 2 - c
      {
        c := c * 2;
      }
    }

    /** The second half: the id is new. */
    method Insert(id: int, room: bool, created: Option<int>) returns (r: Option<int>)
      requires Valid() && id !in known && !Contains(tables[0], id) && (created.Some? ==> IsNew(created.value, known))
      modifies this
      ensures Valid() && (r.Some? ==> r == created && known == old(known)[id := r.value])
      ensures r.None? ==> known == old(known) && (created.None? || !room)
    {
      hide TablesOk, WellPlaced, HasFree;
      AllOk(tables, hash, known);
      count := count + 1;
      var newCount := count;
      if newCount >= |tables[0]| / 2 {
        var capacity := |tables[0]| * 2;
        capacity := Enough(newCount, capacity);
        if !room {
          count := count - 1;
          return None;
        }
        TablesGrown(tables, hash, known, capacity);
        tables := [seq(capacity, _ => Free)] + tables;
      }
      assert newCount < |tables[0]| / 2 + |tables[0]| / 4;
      if created.None? {
        count := count - 1;
        return None;
      }
      OneMoreKey(known, id, created.value);
      Claim(id, created.value, known[id := created.value]);
      r := created;
    }
  }

  /** Any sequence of calls by any threads: a thread gets the same producer every time,
      and different threads get different ones. */
  method Serve(p: Producers, ids: seq<int>, room: seq<bool>, created: seq<int>) returns (rs: seq<Option<int>>)
    requires p.Valid() && |room| == |created| == |ids|
    requires forall i :: 0 <= i < |created| ==> IsNew(created[i], p.known) && forall j :: 0 <= j < i ==> created[i] != created[j]
    modifies p
    ensures p.Valid() && |rs| == |ids|
    ensures forall i, j :: 0 <= i < |rs| && 0 <= j < |rs| && rs[i].Some? && rs[j].Some? ==> (rs[i] == rs[j] <==> ids[i] == ids[j])
  {
    hide TablesOk;
    rs := [];
    var k := 0;
    while k < |ids|
      invariant 0 <= k <= |ids| && |rs| == k && p.Valid()
      invariant forall i :: 0 <= i < k && rs[i].Some? ==> ids[i] in p.known && p.known[ids[i]] == rs[i].value
      invariant forall m :: k <= m < |created| ==> IsNew(created[m], p.known)
    {
      var r := p.GetOrAdd(ids[k], room[k], Some(created[k]));
      rs := rs + [r];
      k := k + 1;
    }
    forall i, j | 0 <= i < |rs| && 0 <= j < |rs| && rs[i].Some? && rs[j].Some? ensures rs[i] == rs[j] <==> ids[i] == ids[j] {
      assert ids[i] in p.known && ids[j] in p.known;
    }
  }

  lemma SearchStarts(t: Table, hash: int -> nat, id: int)
    requires HasFree(t)
    ensures |t| > 0 && Passed(t, hash, id, 0) && hash(id) % |t| == Probe(Home(id, hash, |t|), 0, |t|)
  {
  }

  lemma AllOk(tables: seq<Table>, hash: int -> nat, known: map<int, int>)
    requires TablesOk(tables, hash, known)
    ensures |tables| > 0 && |known| < |tables[0]| && forall k :: 0 <= k < |tables| ==> TableOk(tables[k], hash, known)
  {
  }

  lemma NotKnown(tables: seq<Table>, hash: int -> nat, known: map<int, int>, id: int)
    requires TablesOk(tables, hash, known) && forall m :: 0 <= m < |tables| ==> !Contains(tables[m], id)
    ensures id !in known
  {
  }

  lemma OneMoreKey(known: map<int, int>, id: int, value: int)
    requires id !in known && Injective(known) && IsNew(value, known)
    ensures |known[id := value]| == |known| + 1 && Injective(known[id := value])
  {
  }
}
