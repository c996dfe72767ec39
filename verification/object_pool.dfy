/** The doubling slot pool and the tripling object manager. */
module ObjectPools {
  import opened Common

  predicate NoDuplicates<T(==)>(s: seq<T>) {
    forall i, j :: 0 <= i < j < |s| ==> s[i] != s[j]
  }

  lemma SnocNoDuplicates<T>(s: seq<T>, x: T)
    requires NoDuplicates(s) && x !in s
    ensures NoDuplicates(s + [x])
  {
  }

  // ---------------------------------------------------------------- the slot pool

  const INIT_SIZE: nat := 100

  /** An address: the block it was allocated in, and its place there. */
  datatype Slot = Slot(block: nat, index: nat)

  /** `blocks` allocations so far, the free list, and the slots handed out. */
  datatype Pool = Pool(blocks: nat, free: seq<Slot>, live: set<Slot>)

  const EMPTY_POOL := Pool(0, [], {})

  /** The size of each allocation is twice the one before. */
  function BlockSize(block: nat): nat { INIT_SIZE * Pow(2, block) }

  function SlotsOf(block: nat, n: nat): (r: seq<Slot>)
    ensures |r| == n && forall i :: 0 <= i < n ==> r[i] == Slot(block, i)
  {
    seq(n, i requires 0 <= i => Slot(block, i))
  }

  function Grow(p: Pool): Pool {
    if p.free != [] then p
    else p.(blocks := p.blocks + 1, free := SlotsOf(p.blocks, BlockSize(p.blocks)))
  }

  function Get(p: Pool): (Pool, Slot) {
    var g := Grow(p);
    if g.free == [] then (g, Slot(0, 0))
    else
      var slot := g.free[|g.free| - 1];
      (g.(free := g.free[..|g.free| - 1], live := g.live + {slot}), slot)
  }

  /** Only a slot that was handed out and not given back is given back. */
  function Put(p: Pool, slot: Slot): Pool {
    if slot in p.live then p.(free := p.free + [slot], live := p.live - {slot}) else p
  }

  predicate Allocated(p: Pool, s: Slot) { s.block < p.blocks && s.index < BlockSize(s.block) }

  /** Free and live slots partition all slots, and there are 100 * (2^k - 1) of them. */
  ghost predicate PoolInv(p: Pool) {
    && NoDuplicates(p.free)
    && (forall s :: s in p.free ==> s !in p.live)
    && (forall s :: Allocated(p, s) <==> s in p.free || s in p.live)
    && |p.free| + |p.live| == INIT_SIZE * (Pow(2, p.blocks) - 1)
  }

  lemma GrowKeeps(p: Pool)
    requires PoolInv(p)
    ensures PoolInv(Grow(p)) && Grow(p).live == p.live && Grow(p).free != []
  {
    if p.free == [] {
      var g, n := Grow(p), BlockSize(p.blocks);
      assert Pow(2, p.blocks + 1) == 2 * Pow(2, p.blocks);
      forall s ensures Allocated(g, s) <==> s in g.free || s in g.live {
        if s.block == p.blocks {
          assert s in g.free <==> s.index < n by { if s.index < n { assert g.free[s.index] == s; } }
          assert !Allocated(p, s);
        } else {
          assert Allocated(g, s) <==> Allocated(p, s);
          assert s !in g.free;
        }
      }
      assert forall s :: s in g.free ==> !Allocated(p, s);
    }
  }

  /** What is handed out was not in use, and now is. */
  lemma GetKeeps(p: Pool)
    requires PoolInv(p)
    ensures var (p', slot) := Get(p);
            PoolInv(p') && slot !in p.live && p'.live == p.live + {slot} && Allocated(p', slot)
  {
    GrowKeeps(p);
    var g := Grow(p);
    var (p', slot) := Get(p);
    assert g.free == p'.free + [slot];
    assert slot in g.free;
    assert slot !in p'.free;
    forall s ensures Allocated(p', s) <==> s in p'.free || s in p'.live {
      assert s in g.free <==> s in p'.free || s == slot;
      assert Allocated(p', s) <==> Allocated(g, s);
    }
  }

  /** The pool grows exactly when nothing is free, by a block twice the size of the last; otherwise the
      slot given back last is the one handed out. */
  lemma GetGrowsWhenEmpty(p: Pool)
    requires PoolInv(p)
    ensures var (p', slot) := Get(p);
            if p.free == [] then p'.blocks == p.blocks + 1 && |p'.free| + 1 == INIT_SIZE * Pow(2, p.blocks) && slot.block == p.blocks
            else p'.blocks == p.blocks && p.free == p'.free + [slot]
  {
    GrowKeeps(p);
  }

  /** What was given back last is handed out next. */
  lemma PutThenGet(p: Pool, slot: Slot)
    requires PoolInv(p) && slot in p.live
    ensures Get(Put(p, slot)) == (p, slot)
  {
    var q := Put(p, slot);
    assert q.free[|q.free| - 1] == slot && q.free[..|q.free| - 1] == p.free;
    assert (p.live - {slot}) + {slot} == p.live;
  }

  lemma PutKeeps(p: Pool, slot: Slot)
    requires PoolInv(p)
    ensures PoolInv(Put(p, slot))
  {
    if slot in p.live {
      var p' := Put(p, slot);
      SnocNoDuplicates(p.free, slot);
      forall s ensures Allocated(p', s) <==> s in p'.free || s in p'.live {
        assert Allocated(p', s) <==> Allocated(p, s);
      }
    }
  }

  datatype PoolCall = GetCall | PutCall(slot: Slot)

  function PoolStep(p: Pool, c: PoolCall): Pool {
    match c
    case GetCall => Get(p).0
    case PutCall(slot) => Put(p, slot)
  }

  function PoolRun(p: Pool, calls: seq<PoolCall>): Pool
    decreases |calls|
  {
    if calls == [] then p else PoolRun(PoolStep(p, calls[0]), calls[1..])
  }

  lemma {:induction false} PoolRunKeeps(p: Pool, calls: seq<PoolCall>)
    requires PoolInv(p)
    ensures PoolInv(PoolRun(p, calls))
    decreases |calls|
  {
    if calls != [] {
      match calls[0] {
        case GetCall => GetKeeps(p);
        case PutCall(slot) => PutKeeps(p, slot);
      }
      PoolRunKeeps(PoolStep(p, calls[0]), calls[1..]);
    }
  }

  /** After every run of gets and frees of live objects, free and live slots partition the slots
      allocated, these are 100 * (2^k - 1) after k growths, and the next get hands out none in use. */
  lemma PoolIsSafe(calls: seq<PoolCall>)
    ensures var p := PoolRun(EMPTY_POOL, calls);
            PoolInv(p) && Get(p).1 !in p.live
  {
    assert Pow(2, 0) == 1;
    PoolRunKeeps(EMPTY_POOL, calls);
    GetKeeps(PoolRun(EMPTY_POOL, calls));
  }

  class ObjectPool {
    var poolList: seq<nat>      // the size each block was allocated with
    var freeList: seq<Slot>
    var addBlockSize: nat
    ghost var live: set<Slot>

    ghost predicate Valid()
      reads this
    {
      && PoolInv(State()) && addBlockSize == BlockSize(|poolList|)
      && forall i :: 0 <= i < |poolList| ==> poolList[i] == BlockSize(i)
    }

    ghost function State(): Pool
      reads this
    {
      Pool(|poolList|, freeList, live)
    }

    constructor ()
      ensures Valid() && State() == EMPTY_POOL
    {
      poolList, freeList, addBlockSize, live := [], [], INIT_SIZE, {};
      assert Pow(2, 0) == 1;
    }

    /** Allocates a block and lists its slots in order. */
    method AddAlloc()
      requires Valid() && freeList == []
      modifies this
      ensures Valid() && State() == Grow(old(State()))
    {
      ghost var p := State();
      GrowKeeps(p);
      var block, n := |poolList|, addBlockSize;
      poolList := poolList + [n];
      var i := 0;
      while i < n
        invariant 0 <= i <= n && freeList == SlotsOf(block, i)
        modifies this`freeList
      {
        freeList := freeList + [Slot(block, i)];
        i := i + 1;
      }
      addBlockSize := addBlockSize * 2;
      assert Pow(2, block + 1) == 2 * Pow(2, block);
    }

    method TakeLast(ghost p: Pool) returns (slot: Slot)
      requires freeList != [] && State() == Grow(p)
      modifies this`freeList, this`live
      ensures (State(), slot) == Get(p)
    {
      slot := freeList[|freeList| - 1];
      freeList := freeList[..|freeList| - 1];
      live := live + {slot};
    }

    /** Hands out a slot that is not in use. */
    method GetFreeObjectPtr() returns (slot: Slot)
      requires Valid()
      modifies this
      ensures Valid() && (State(), slot) == Get(old(State())) && slot !in old(live)
    {
      ghost var p := State();
      assert Grow(p).free != [] by { GrowKeeps(p); }
      if freeList == [] {
        AddAlloc();
      }
      slot := TakeLast(p);
      GetKeeps(p);
    }

    method SetFreeObjectPtr(slot: Slot)
      requires Valid() && slot in live
      modifies this
      ensures Valid() && State() == Put(old(State()), slot)
    {
      PutKeeps(State(), slot);
      freeList := freeList + [slot];
      live := live - {slot};
    }

    /** The destructor's loop: every block goes back with the size it was allocated with. */
    method Destroy() returns (returned: seq<(nat, nat)>)
      requires Valid()
      modifies this`poolList
      ensures |returned| == old(|poolList|) && poolList == []
      ensures forall i :: 0 <= i < |returned| ==> returned[i] == (i, old(poolList)[i])
    {
      var chunkSize := INIT_SIZE;
      returned := [];
      var i := 0;
      assert Pow(2, 0) == 1;
      while i < |poolList|
        invariant 0 <= i <= |poolList| && |returned| == i && chunkSize == BlockSize(i)
        invariant forall j :: 0 <= j < i ==> returned[j] == (j, poolList[j])
      {
        returned := returned + [(i, chunkSize)];
        assert Pow(2, i + 1) == 2 * Pow(2, i);
        chunkSize := chunkSize * 2;
        i := i + 1;
      }
      poolList := [];
    }
  }

  // ---------------------------------------------------------------- the object manager

  type Object = nat

  /** `made` objects exist, numbered in the order they were made; a null pointer is `None`. */
  datatype Manager = Manager(pool: seq<Object>, free: seq<Object>, used: seq<Object>, poolCount: nat)

  function Numbers(from: nat, n: nat): (r: seq<Object>)
    ensures |r| == n && forall i :: 0 <= i < n ==> r[i] == from + i
  {
    seq(n, i => from + i)
  }

  function NewManager(initCount: int): Manager {
    var n := if initCount < 1 then 1 else initCount;
    Manager(Numbers(0, n), Numbers(0, n), [], n)
  }

  function Refill(m: Manager): Manager {
    var more := Numbers(|m.pool|, m.poolCount * 2);
    m.(pool := m.pool + more, free := m.free + more, poolCount := m.poolCount + m.poolCount * 2)
  }

  function GetFree(m: Manager): (Manager, Option<Object>) {
    var r := if m.free == [] then Refill(m) else m;
    if r.free == [] then (r, None)
    else (r.(free := r.free[1..], used := r.used + [r.free[0]]), Some(r.free[0]))
  }

  /** `list::remove`: all occurrences. */
  function Without<T(==)>(s: seq<T>, x: T): seq<T> {
    if s == [] then [] else (if s[0] == x then [] else [s[0]]) + Without(s[1..], x)
  }

  function SetFree(m: Manager, obj: Object): Manager {
    if obj in m.used then m.(used := Without(m.used, obj), free := [obj] + m.free) else m
  }

  /** The free and used lists are duplicate-free and partition the pool, whose size is counted right. */
  ghost predicate ManagerInv(m: Manager) {
    && m.pool == Numbers(0, |m.pool|) && |m.pool| == m.poolCount >= 1
    && NoDuplicates(m.free) && NoDuplicates(m.used)
    && (forall x :: x in m.free ==> x !in m.used)
    && (forall x :: 0 <= x < |m.pool| <==> x in m.free || x in m.used)
  }

  lemma {:induction false} WithoutKeeps<T>(s: seq<T>, x: T)
    requires NoDuplicates(s)
    ensures NoDuplicates(Without(s, x))
    ensures forall y :: y in Without(s, x) <==> y in s && y != x
  {
    if s != [] {
      WithoutKeeps(s[1..], x);
      assert s == [s[0]] + s[1..];
      assert s[0] !in s[1..];
    }
  }

  lemma RefillKeeps(m: Manager)
    requires ManagerInv(m)
    ensures ManagerInv(Refill(m)) && Refill(m).free != [] && Refill(m).poolCount == 3 * m.poolCount
  {
    var r, n := Refill(m), |m.pool|;
    var more := Numbers(n, m.poolCount * 2);
    assert r.pool == Numbers(0, |r.pool|);
    forall x ensures 0 <= x < |r.pool| <==> x in r.free || x in r.used {
      assert x in more <==> n <= x < |r.pool| by { if n <= x < |r.pool| { assert more[x - n] == x; } }
    }
    assert NoDuplicates(r.free) by { assert forall i :: 0 <= i < |m.free| ==> m.free[i] in m.free; }
  }

  /** The manager never hands out null, nor an object in use. */
  lemma GetFreeKeeps(m: Manager)
    requires ManagerInv(m)
    ensures var (m', r) := GetFree(m);
            && ManagerInv(m') && r.Some? && r.value !in m.used
            && (m'.poolCount == m.poolCount || m'.poolCount == 3 * m.poolCount)
  {
    RefillKeeps(m);
    var r := if m.free == [] then Refill(m) else m;
    var obj := r.free[0];
    assert r.free == [obj] + r.free[1..];
    assert obj in r.free && obj !in r.free[1..];
    SnocNoDuplicates(r.used, obj);
  }

  /** The manager grows exactly when its free list is empty, threefold; otherwise the front of the list is
      handed out, and joins the end of the used list. */
  lemma GetFreeGrowsWhenEmpty(m: Manager)
    requires ManagerInv(m)
    ensures var (m', r) := GetFree(m);
            && m'.used == m.used + [r.value]
            && if m.free == [] then m'.poolCount == 3 * m.poolCount && |m'.free| == 2 * m.poolCount - 1
               else m'.poolCount == m.poolCount && m'.pool == m.pool && m.free == [r.value] + m'.free
  {
    RefillKeeps(m);
  }

  /** What was freed last is handed out next, and nothing else moves. */
  lemma SetFreeThenGet(m: Manager, obj: Object)
    requires ManagerInv(m) && obj in m.used
    ensures var (m', r) := GetFree(SetFree(m, obj));
            r.value == obj && m'.free == m.free && m'.pool == m.pool && m'.poolCount == m.poolCount
  {
    var f := SetFree(m, obj);
    assert f.free[0] == obj && f.free[1..] == m.free;
  }

  /** Freeing twice, or something that is not the manager's, changes nothing. */
  lemma SetFreeKeeps(m: Manager, obj: Object)
    requires ManagerInv(m)
    ensures ManagerInv(SetFree(m, obj)) && SetFree(m, obj).poolCount == m.poolCount
    ensures obj !in m.used ==> SetFree(m, obj) == m
    ensures SetFree(SetFree(m, obj), obj) == SetFree(m, obj)
  {
    if obj in m.used {
      WithoutKeeps(m.used, obj);
    }
  }

  lemma NewManagerInv(initCount: int)
    ensures ManagerInv(NewManager(initCount))
  {
    var m := NewManager(initCount);
    forall x ensures 0 <= x < |m.pool| <==> x in m.free || x in m.used {
      if 0 <= x < |m.pool| { assert m.free[x] == x; }
    }
  }

  datatype ManagerCall = GetFreeCall | SetFreeCall(obj: Object)

  function ManagerStep(m: Manager, c: ManagerCall): Manager {
    match c
    case GetFreeCall => GetFree(m).0
    case SetFreeCall(obj) => SetFree(m, obj)
  }

  function ManagerRun(m: Manager, calls: seq<ManagerCall>): Manager
    decreases |calls|
  {
    if calls == [] then m else ManagerRun(ManagerStep(m, calls[0]), calls[1..])
  }

  lemma {:induction false} ManagerRunKeeps(m: Manager, calls: seq<ManagerCall>, n: nat, k: nat) returns (k': nat)
    requires ManagerInv(m) && m.poolCount == n * Pow(3, k)
    ensures ManagerInv(ManagerRun(m, calls)) && ManagerRun(m, calls).poolCount == n * Pow(3, k')
    decreases |calls|
  {
    if calls == [] {
      k' := k;
    } else {
      var m' := ManagerStep(m, calls[0]);
      var next := if m'.poolCount == m.poolCount then k else k + 1;
      match calls[0] {
        case GetFreeCall => GetFreeKeeps(m);
        case SetFreeCall(obj) => SetFreeKeeps(m, obj);
      }
      assert n * Pow(3, k + 1) == 3 * (n * Pow(3, k)) by { assert Pow(3, k + 1) == 3 * Pow(3, k); }
      k' := ManagerRunKeeps(m', calls[1..], n, next);
    }
  }

  /** After any call sequence, with repeated and foreign frees, the lists partition the pool, the count
      is its size and n0 * 3^k, and the next get returns an object that is not in use. */
  lemma ManagerConserves(initCount: int, calls: seq<ManagerCall>) returns (k: nat)
    ensures var m := ManagerRun(NewManager(initCount), calls);
            && ManagerInv(m) && m.poolCount == (if initCount < 1 then 1 else initCount) * Pow(3, k)
            && GetFree(m).1.Some? && GetFree(m).1.value !in m.used
  {
    var m := NewManager(initCount);
    NewManagerInv(initCount);
    assert m.poolCount == m.poolCount * Pow(3, 0);
    k := ManagerRunKeeps(m, calls, m.poolCount, 0);
    GetFreeKeeps(ManagerRun(m, calls));
  }

  class ObjectPoolMgr {
    var poolList: seq<Object>
    var freeList: seq<Object>
    var usedList: seq<Object>
    var poolCount: nat

    ghost function State(): Manager
      reads this
    {
      Manager(poolList, freeList, usedList, poolCount)
    }

    constructor (initCount: int)
      ensures State() == NewManager(initCount)
    {
      poolCount := if initCount < 1 then 1 else initCount;
      poolList, freeList, usedList := [], [], [];
      new;
      MakeObjects(poolCount);
    }

    /** The allocation loop: each new object joins the pool and the free list. */
    method MakeObjects(n: nat)
      modifies this`poolList, this`freeList
      ensures poolList == old(poolList) + Numbers(|old(poolList)|, n)
      ensures freeList == old(freeList) + Numbers(|old(poolList)|, n)
    {
      ghost var from := |poolList|;
      var i := 0;
      while i < n
        invariant 0 <= i <= n
        invariant poolList == old(poolList) + Numbers(from, i) && freeList == old(freeList) + Numbers(from, i)
      {
        var obj := |poolList|;
        assert Numbers(from, i + 1) == Numbers(from, i) + [obj];
        poolList := poolList + [obj];
        freeList := freeList + [obj];
        i := i + 1;
      }
    }

    method AddAlloc()
      modifies this
      ensures State() == Refill(old(State()))
    {
      var addPool := poolCount * 2;
      MakeObjects(addPool);
      poolCount := poolCount + addPool;
    }

    method GetFreeObject() returns (r: Option<Object>)
      modifies this
      ensures (State(), r) == GetFree(old(State()))
    {
      if freeList == [] {
        AddAlloc();
      }
      if freeList == [] {
        return None;
      }
      var obj := freeList[0];
      freeList := freeList[1..];
      usedList := usedList + [obj];
      return Some(obj);
    }

    method SetFreeObject(obj: Object)
      modifies this
      ensures State() == SetFree(old(State()), obj)
    {
      if obj in usedList {
        usedList := Without(usedList, obj);
        freeList := [obj] + freeList;
      }
    }
  }
}
