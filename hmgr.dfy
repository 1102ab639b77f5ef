/**
  The per-process handle table. Entries live in an array; the free entries form a list threaded
  through the array by their `next` indices, running from `head` to `tail`. A handle is allocated
  from the head of the list and a freed handle is linked in after the tail, so the list is a
  queue: a handle that is freed while the list holds at least `minFree` entries is handed out
  again only after `minFree` further allocations.

  The table's source file holds no implementation; the policy is the one its header describes.
*/
module Hmgr {
  import opened Wrappers

  // ---------------------------------------------------------------------------------------------
  // Entry types (enum hmgrentry_type)

  const HMGRENTRY_TYPE_BITS: nat := 5

  datatype HmgrEntryType =
    | Free | DxgAdapter | DxgSharedResource | DxgDevice | DxgResource | DxgAllocation
    | DxgOverlay | DxgContext | DxgSyncObject | DxgKeyedMutex | DxgPagingQueue
    | DxgDeviceSyncObject | DxgProcess | DxgSharedVmObject | DxgProtectedSession | DxgHwQueue
    | DxgRemoteBundleObject | DxgCompositionSurfaceObject | DxgCompositionSurfaceProxy
    | DxgTrackedWorkload | MonitoredFence

  /** HMGRENTRY_TYPE_LIMIT: the largest value of a five-bit tag. */
  const HMGRENTRY_TYPE_LIMIT: nat := 31

  /** The enumerator's value. */
  function Tag(t: HmgrEntryType): (n: nat)
    ensures t == Free <==> n == 0
    ensures t != MonitoredFence ==> n < HMGRENTRY_TYPE_LIMIT
  {
    match t
    case Free => 0
    case DxgAdapter => 1
    case DxgSharedResource => 2
    case DxgDevice => 3
    case DxgResource => 4
    case DxgAllocation => 5
    case DxgOverlay => 6
    case DxgContext => 7
    case DxgSyncObject => 8
    case DxgKeyedMutex => 9
    case DxgPagingQueue => 10
    case DxgDeviceSyncObject => 11
    case DxgProcess => 12
    case DxgSharedVmObject => 13
    case DxgProtectedSession => 14
    case DxgHwQueue => 15
    case DxgRemoteBundleObject => 16
    case DxgCompositionSurfaceObject => 17
    case DxgCompositionSurfaceProxy => 18
    case DxgTrackedWorkload => 19
    case MonitoredFence => HMGRENTRY_TYPE_LIMIT + 1
  }

  /** The entry type with a given value, if any. */
  function TypeOfTag(n: nat): (t: Option<HmgrEntryType>)
    ensures t.Some? ==> Tag(t.value) == n
  {
    if n == 0 then Some(Free)
    else if n == 1 then Some(DxgAdapter)
    else if n == 2 then Some(DxgSharedResource)
    else if n == 3 then Some(DxgDevice)
    else if n == 4 then Some(DxgResource)
    else if n == 5 then Some(DxgAllocation)
    else if n == 6 then Some(DxgOverlay)
    else if n == 7 then Some(DxgContext)
    else if n == 8 then Some(DxgSyncObject)
    else if n == 9 then Some(DxgKeyedMutex)
    else if n == 10 then Some(DxgPagingQueue)
    else if n == 11 then Some(DxgDeviceSyncObject)
    else if n == 12 then Some(DxgProcess)
    else if n == 13 then Some(DxgSharedVmObject)
    else if n == 14 then Some(DxgProtectedSession)
    else if n == 15 then Some(DxgHwQueue)
    else if n == 16 then Some(DxgRemoteBundleObject)
    else if n == 17 then Some(DxgCompositionSurfaceObject)
    else if n == 18 then Some(DxgCompositionSurfaceProxy)
    else if n == 19 then Some(DxgTrackedWorkload)
    else if n == HMGRENTRY_TYPE_LIMIT + 1 then Some(MonitoredFence)
    else None
  }

  /** Every enumerator is recovered from its value, so the values are pairwise distinct. */
  lemma TagRoundTrip(t: HmgrEntryType)
    ensures TypeOfTag(Tag(t)) == Some(t)
  {
  }

  /** The object tags fit the five-bit field; MONITOREDFENCE lies just outside it. */
  lemma TagRange(t: HmgrEntryType)
    ensures Tag(t) < 32 <==> t != MonitoredFence
    ensures HMGRENTRY_TYPE_LIMIT == 31 && Tag(MonitoredFence) == 32
  {
  }

  // ---------------------------------------------------------------------------------------------
  // The free list as a queue of entry indices

  /** A request made to the table: allocate a handle, or free the handle at an index. */
  datatype Request = Allocate | Release(index: nat)

  /**
    The indices that a run of requests allocates, starting from the free list q: an allocation
    takes the head when more than minFree entries are free (otherwise it gets nothing);
    a release of an index already on the list is refused, any other is appended after the tail.
  */
  function Allocated(q: seq<nat>, rs: seq<Request>, minFree: nat): (out: seq<nat>)
    ensures |out| <= |rs|
    ensures forall x :: x in out ==> x in q || Release(x) in rs
    decreases |rs|
  {
    if rs == [] then []
    else match rs[0]
      case Allocate =>
        if |q| > minFree then [q[0]] + Allocated(q[1..], rs[1..], minFree)
        else Allocated(q, rs[1..], minFree)
      case Release(i) =>
        if i in q then Allocated(q, rs[1..], minFree) else Allocated(q + [i], rs[1..], minFree)
  }

  /**
    An index at position p of the free list is not handed out by the first p allocations,
    whatever requests come in between, and it is the one handed out by allocation p + 1.
  */
  lemma {:induction false} FreeListIsFifo(q: seq<nat>, p: nat, rs: seq<Request>, minFree: nat)
    requires p < |q| && q[p] !in q[..p]
    ensures forall k :: 0 <= k < p && k < |Allocated(q, rs, minFree)| ==>
              Allocated(q, rs, minFree)[k] != q[p]
    ensures |Allocated(q, rs, minFree)| > p ==> Allocated(q, rs, minFree)[p] == q[p]
    decreases |rs|
  {
    if rs != [] {
      var out := Allocated(q, rs, minFree);
      match rs[0]
      case Allocate =>
        if |q| > minFree {
          var rest := Allocated(q[1..], rs[1..], minFree);
          assert out == [q[0]] + rest;
          if p > 0 {
            assert q[1..][p - 1] == q[p];
            assert q[1..][..p - 1] == q[1..p];
            assert q[0] in q[..p];
            FreeListIsFifo(q[1..], p - 1, rs[1..], minFree);
            assert forall k :: 1 <= k < |out| ==> out[k] == rest[k - 1];
          }
        } else {
          FreeListIsFifo(q, p, rs[1..], minFree);
        }
      case Release(i) =>
        if i in q {
          FreeListIsFifo(q, p, rs[1..], minFree);
        } else {
          assert (q + [i])[p] == q[p] && (q + [i])[..p] == q[..p];
          FreeListIsFifo(q + [i], p, rs[1..], minFree);
        }
    }
  }

  /**
    A handle freed onto a list of at least minFree entries (the table never lets it shrink
    below that) survives minFree further allocations.
  */
  lemma FreedHandleNotReusedEarly(q: seq<nat>, i: nat, rs: seq<Request>, minFree: nat)
    requires |q| >= minFree && i !in q
    ensures forall k :: 0 <= k < minFree && k < |Allocated(q + [i], rs, minFree)| ==>
              Allocated(q + [i], rs, minFree)[k] != i
  {
    assert (q + [i])[|q|] == i && (q + [i])[..|q|] == q;
    FreeListIsFifo(q + [i], |q|, rs, minFree);
  }

  // ---------------------------------------------------------------------------------------------
  // struct hmgrtable

  /** A table entry: its type, and for a free entry the index of the next free one. */
  datatype Entry = Entry(kind: HmgrEntryType, next: nat)

  /**
    The table invariant over the entries t: the free list fl holds freeCount distinct indices
    of t, chained through `next` from head to tail, and exactly its entries are free.
  */
  ghost predicate TableOk(t: seq<Entry>, fl: seq<nat>, freeCount: nat, head: nat, tail: nat, minFree: nat)
  {
    && |fl| == freeCount
    && freeCount >= minFree
    && (forall k :: 0 <= k < |fl| ==> fl[k] < |t|)
    && (forall k, l :: 0 <= k < l < |fl| ==> fl[k] != fl[l])
    && (forall k :: 0 <= k < |fl| - 1 ==> t[fl[k]].next == fl[k + 1])
    && (forall i :: 0 <= i < |t| ==> (t[i].kind == Free <==> i in fl))
    && (freeCount > 0 ==> head == fl[0] && tail == fl[freeCount - 1])
  }

  /** A single allocation request hands out the head of the list when more than minFree are free. */
  lemma AllocatedOne(q: seq<nat>, minFree: nat)
    ensures Allocated(q, [Allocate], minFree) == if |q| > minFree then [q[0]] else []
  {
    assert [Allocate][1..] == [];
  }

  /** Taking the head entry for `kind` keeps the invariant, with the rest of the list left free. */
  lemma AllocKeepsTable(t: seq<Entry>, fl: seq<nat>, freeCount: nat, head: nat, tail: nat, minFree: nat,
                        kind: HmgrEntryType)
    requires TableOk(t, fl, freeCount, head, tail, minFree) && freeCount > minFree && kind != Free
    ensures head < |t| && fl[0] == head
    ensures TableOk(t[head := Entry(kind, 0)], fl[1..], freeCount - 1,
                    if freeCount - 1 > 0 then t[head].next else head, tail, minFree)
  {
    var t' := t[head := Entry(kind, 0)];
    forall k | 0 <= k < |fl| - 2
      ensures t'[fl[1..][k]].next == fl[1..][k + 1]
    {
      assert fl[k + 1] != fl[0];
    }
    forall i | 0 <= i < |t'|
      ensures t'[i].kind == Free <==> i in fl[1..]
    {
      assert i in fl <==> i == fl[0] || i in fl[1..];
      if i == head {
        assert forall k :: 1 <= k < |fl| ==> fl[k] != fl[0];
      }
    }
    if freeCount - 1 > 0 {
      assert fl[1..][0] == fl[1] == t[fl[0]].next;
    }
  }

  /** Linking a valid, non-free entry i in after the tail keeps the invariant. */
  lemma FreeKeepsTable(t: seq<Entry>, fl: seq<nat>, freeCount: nat, head: nat, tail: nat, minFree: nat, i: nat)
    requires TableOk(t, fl, freeCount, head, tail, minFree) && i < |t| && t[i].kind != Free
    ensures i !in fl && (freeCount != 0 ==> tail < |t| && tail != i)
    ensures var t1 := t[i := Entry(Free, 0)];
            var t2 := if freeCount != 0 then t1[tail := Entry(Free, i)] else t1;
            TableOk(t2, fl + [i], freeCount + 1, if freeCount != 0 then head else i, i, minFree)
  {
    var t1 := t[i := Entry(Free, 0)];
    var t2 := if freeCount != 0 then t1[tail := Entry(Free, i)] else t1;
    var fl' := fl + [i];
    forall k | 0 <= k < |fl'| - 1
      ensures t2[fl'[k]].next == fl'[k + 1]
    {
      if k < |fl| - 1 {
        assert fl[k] != fl[|fl| - 1];
      }
    }
    forall j | 0 <= j < |t2|
      ensures t2[j].kind == Free <==> j in fl'
    {
      assert j in fl' <==> j in fl || j == i;
    }
  }

  class HandleTable {
    /** HMGRTABLE_MIN_FREE_ENTRIES; the constant's value is not part of this model. */
    const minFree: nat
    var entryTable: array<Entry>
    var head: nat
    var tail: nat
    var freeCount: nat
    /** The free list, head first. */
    ghost var FreeList: seq<nat>

    ghost predicate Valid()
      reads this, entryTable
    {
      TableOk(entryTable[..], FreeList, freeCount, head, tail, minFree)
    }

    /** A table of `size` entries, all free, listed in index order. */
    constructor (size: nat, minFree: nat)
      requires size >= minFree
      ensures Valid() && fresh(entryTable) && this.minFree == minFree
      ensures entryTable.Length == size && FreeList == Indices(size)
    {
      this.minFree := minFree;
      var table := new Entry[size];
      var i := 0;
      while i < size
        invariant 0 <= i <= size
        invariant forall j :: 0 <= j < i ==> table[j] == Entry(Free, j + 1)
      {
        table[i] := Entry(Free, i + 1);
        i := i + 1;
      }
      entryTable := table;
      head := 0;
      tail := if size > 0 then size - 1 else 0;
      freeCount := size;
      FreeList := Indices(size);
      new;
      assert forall j :: 0 <= j < size ==> FreeList[j] == j;
      forall j | 0 <= j < size
        ensures j in FreeList
      {
        assert FreeList[j] == j;
      }
    }

    /**
      Allocates the head entry for an object of type `kind`, when more than minFree entries
      are free; otherwise the table would have to grow and nothing changes.
    */
    method AllocHandle(kind: HmgrEntryType) returns (r: Option<nat>)
      requires Valid() && kind != Free
      modifies this, entryTable
      ensures Valid() && entryTable == old(entryTable)
      ensures r.Some? <==> old(freeCount) > minFree
      ensures r.Some? ==>
                r.value == old(FreeList)[0] && FreeList == old(FreeList)[1..]
                && entryTable[r.value].kind == kind
      ensures r.Some? ==> entryTable[..] == old(entryTable[..])[r.value := Entry(kind, 0)]
      ensures r.None? ==> FreeList == old(FreeList) && entryTable[..] == old(entryTable[..])
      ensures Allocated(old(FreeList), [Allocate], minFree) == if r.Some? then [r.value] else []
    {
      if freeCount <= minFree {
        AllocatedOne(FreeList, minFree);
        return None;
      }
      ghost var t0, fl0 := entryTable[..], FreeList;
      AllocKeepsTable(t0, FreeList, freeCount, head, tail, minFree, kind);
      AllocatedOne(FreeList, minFree);
      var i := head;
      var next := entryTable[i].next;
      var newHead := if freeCount - 1 > 0 then next else head;
      entryTable[i] := Entry(kind, 0);
      assert entryTable[..] == t0[i := Entry(kind, 0)];
      FreeList := FreeList[1..];
      freeCount := freeCount - 1;
      head := newHead;
      r := Some(i);
      assert i == fl0[0] && FreeList == fl0[1..] && entryTable[i].kind == kind;
      assert TableOk(entryTable[..], FreeList, freeCount, head, tail, minFree);
    }

    /**
      Frees the handle at index i when it holds an object of type `kind`, linking it in after
      the tail; a free, out-of-range or mistyped entry is refused.
    */
    method FreeHandle(kind: HmgrEntryType, i: nat) returns (ok: bool)
      requires Valid() && kind != Free
      modifies this, entryTable
      ensures Valid() && entryTable == old(entryTable)
      ensures ok <==> i < entryTable.Length && old(entryTable[..])[i].kind == kind
      ensures ok ==> FreeList == old(FreeList) + [i] && entryTable[i].kind == Free
      ensures ok ==> entryTable[..] == if old(freeCount) != 0
                                       then old(entryTable[..])[i := Entry(Free, 0)][old(tail) := Entry(Free, i)]
                                       else old(entryTable[..])[i := Entry(Free, 0)]
      ensures !ok ==> FreeList == old(FreeList) && entryTable[..] == old(entryTable[..])
      ensures ok ==> i !in old(FreeList)
    {
      if i >= entryTable.Length || entryTable[i].kind != kind {
        return false;
      }
      ghost var t0 := entryTable[..];
      FreeKeepsTable(t0, FreeList, freeCount, head, tail, minFree, i);
      ghost var t2 := if freeCount != 0 then t0[i := Entry(Free, 0)][tail := Entry(Free, i)]
                      else t0[i := Entry(Free, 0)];
      var newHead := if freeCount != 0 then head else i;
      entryTable[i] := Entry(Free, 0);
      if freeCount != 0 {
        entryTable[tail] := Entry(Free, i);
      }
      assert entryTable[..] == t2;
      head := newHead;
      tail := i;
      FreeList := FreeList + [i];
      freeCount := freeCount + 1;
      ok := true;
      assert TableOk(entryTable[..], FreeList, freeCount, head, tail, minFree);
    }
  }

  /** The indices 0 .. n-1 in order. */
  function Indices(n: nat): (s: seq<nat>)
    ensures |s| == n && forall k :: 0 <= k < n ==> s[k] == k
  {
    if n == 0 then [] else Indices(n - 1) + [n - 1]
  }
}
