/**
  The ioctl front end of `/dev/dxg` (`ioctl.c`): the table of registered ioctls and the chain
  of checks `dxgk_ioctl` makes before calling one, and the adapter ioctls it registers
  (open by LUID, enumerate, close, query).

  The adapter list, the adapter locks and the per-process adapter handles are outside this
  file: an adapter is seen as its LUID and whether its shared lock can be taken, and
  `dxgprocess_open_adapter` / `dxgprocess_close_adapter` as an open outcome per adapter and a
  log of the handles closed. Copies from and to user memory are outcomes that succeed or fail.
*/
module Ioctl {
  import opened Wrappers
  import opened BitFields
  import opened D3dkmthk
  import opened Misc
  import opened Errno

  // ---------------------------------------------------------------------------------------------
  // The ioctl table and dxgk_ioctl
  // ---------------------------------------------------------------------------------------------

  /** `LX_IO_MAX`: the largest ioctl number the table holds (not defined in the sources here). */
  const LX_IO_MAX: nat := 0x45

  /** The callbacks `init_ioctls` registers. */
  datatype Callback =
    | OpenAdapterFromLuidCb
    | QueryAdapterInfoCb
    | EnumAdapters2Cb
    | CloseAdapterCb
    | EnumAdapters3Cb

  /** `struct ioctl_desc`: the callback (NULL when absent) and the full ioctl word it answers. */
  datatype IoctlDesc = IoctlDesc(callback: Option<Callback>, ioctl: U32)

  /** A slot of the zero-initialised static table. */
  const EmptyDesc: IoctlDesc := IoctlDesc(None, 0)

  /** A table of `LX_IO_MAX + 1` slots, indexed by ioctl number. */
  predicate IsTable(t: seq<IoctlDesc>)
  {
    |t| == LX_IO_MAX + 1
  }

  /** `SET_IOCTL(cb, v)`: the slot numbered `_IOC_NR(v)` gets the callback and the word. */
  function SetIoctl(t: seq<IoctlDesc>, cb: Callback, v: U32): (r: seq<IoctlDesc>)
    requires IsTable(t) && IocNr(v) <= LX_IO_MAX
    ensures IsTable(r)
  {
    t[IocNr(v) := IoctlDesc(Some(cb), v)]
  }

  /** The five registered words have the numbers 0x1, 0x9, 0x14, 0x15 and 0x3e. */
  lemma RegisteredNumbers()
    ensures IocNr(LX_DXOPENADAPTERFROMLUID) == NrOpenAdapterFromLuid
    ensures IocNr(LX_DXQUERYADAPTERINFO) == NrQueryAdapterInfo
    ensures IocNr(LX_DXENUMADAPTERS2) == NrEnumAdapters2
    ensures IocNr(LX_DXCLOSEADAPTER) == NrCloseAdapter
    ensures IocNr(LX_DXENUMADAPTERS3) == NrEnumAdapters3
  {
    IoWRFields(LxMagic, NrOpenAdapterFromLuid, SizeOpenAdapterFromLuid);
    IoWRFields(LxMagic, NrQueryAdapterInfo, SizeQueryAdapterInfo);
    IoWRFields(LxMagic, NrEnumAdapters2, SizeEnumAdapters2);
    IoWRFields(LxMagic, NrCloseAdapter, SizeCloseAdapter);
    IoWRFields(LxMagic, NrEnumAdapters3, SizeEnumAdapters3);
  }

  /** The table after `init_ioctls`, started from t. */
  function Registered(t: seq<IoctlDesc>): (r: seq<IoctlDesc>)
    requires IsTable(t)
    ensures IsTable(r)
  {
    RegisteredNumbers();
    var t1 := SetIoctl(t, OpenAdapterFromLuidCb, LX_DXOPENADAPTERFROMLUID);
    var t2 := SetIoctl(t1, QueryAdapterInfoCb, LX_DXQUERYADAPTERINFO);
    var t3 := SetIoctl(t2, EnumAdapters2Cb, LX_DXENUMADAPTERS2);
    var t4 := SetIoctl(t3, CloseAdapterCb, LX_DXCLOSEADAPTER);
    SetIoctl(t4, EnumAdapters3Cb, LX_DXENUMADAPTERS3)
  }

  /** The callback registered for an ioctl word, if it is one of the five. */
  function CallbackOf(p1: U32): Option<Callback>
  {
    if p1 == LX_DXOPENADAPTERFROMLUID then Some(OpenAdapterFromLuidCb)
    else if p1 == LX_DXQUERYADAPTERINFO then Some(QueryAdapterInfoCb)
    else if p1 == LX_DXENUMADAPTERS2 then Some(EnumAdapters2Cb)
    else if p1 == LX_DXCLOSEADAPTER then Some(CloseAdapterCb)
    else if p1 == LX_DXENUMADAPTERS3 then Some(EnumAdapters3Cb)
    else None
  }

  /**
    `init_ioctls` fills exactly the slots 0x1, 0x9, 0x14, 0x15 and 0x3e, each with the word whose
    number indexes it; every other slot keeps what it held.
  */
  lemma RegisteredSlots(t: seq<IoctlDesc>)
    requires IsTable(t)
    ensures forall i :: 0 <= i < |t| && i !in {0x1, 0x9, 0x14, 0x15, 0x3e} ==> Registered(t)[i] == t[i]
    ensures forall i :: 0 <= i < |t| && i in {0x1, 0x9, 0x14, 0x15, 0x3e} ==>
      var d := Registered(t)[i];
      d.callback.Some? && IocNr(d.ioctl) == i && CallbackOf(d.ioctl) == d.callback
  {
    RegisteredNumbers();
    LxIoctlsDistinct(NrOpenAdapterFromLuid, SizeOpenAdapterFromLuid, NrQueryAdapterInfo, SizeQueryAdapterInfo);
    LxIoctlsDistinct(NrOpenAdapterFromLuid, SizeOpenAdapterFromLuid, NrEnumAdapters2, SizeEnumAdapters2);
    LxIoctlsDistinct(NrOpenAdapterFromLuid, SizeOpenAdapterFromLuid, NrCloseAdapter, SizeCloseAdapter);
    LxIoctlsDistinct(NrOpenAdapterFromLuid, SizeOpenAdapterFromLuid, NrEnumAdapters3, SizeEnumAdapters3);
    LxIoctlsDistinct(NrQueryAdapterInfo, SizeQueryAdapterInfo, NrEnumAdapters2, SizeEnumAdapters2);
    LxIoctlsDistinct(NrQueryAdapterInfo, SizeQueryAdapterInfo, NrCloseAdapter, SizeCloseAdapter);
    LxIoctlsDistinct(NrQueryAdapterInfo, SizeQueryAdapterInfo, NrEnumAdapters3, SizeEnumAdapters3);
    LxIoctlsDistinct(NrEnumAdapters2, SizeEnumAdapters2, NrCloseAdapter, SizeCloseAdapter);
    LxIoctlsDistinct(NrEnumAdapters2, SizeEnumAdapters2, NrEnumAdapters3, SizeEnumAdapters3);
    LxIoctlsDistinct(NrCloseAdapter, SizeCloseAdapter, NrEnumAdapters3, SizeEnumAdapters3);
  }

  /** What `dxgk_ioctl` does with a request: reject it with -ENOTTY, or call a callback. */
  datatype Decision = Rejected | Invoke(callback: Callback)

  /**
    The chain of checks of `dxgk_ioctl`: the number must lie in 1..`LX_IO_MAX`, its slot must
    hold a callback, the slot's word must be the whole of p1, and the caller must be the
    process that opened the device.
  */
  function Dispatch(t: seq<IoctlDesc>, p1: U32, processTgid: int, currentTgid: int): (d: Decision)
    requires IsTable(t)
    ensures d.Invoke? ==>
      1 <= IocNr(p1) <= LX_IO_MAX && t[IocNr(p1)].callback == Some(d.callback) && t[IocNr(p1)].ioctl == p1
      && processTgid == currentTgid
  {
    var code := IocNr(p1);
    if code < 1 || code > LX_IO_MAX then Rejected
    else if t[code].callback.None? then Rejected
    else if t[code].ioctl != p1 then Rejected
    else if processTgid != currentTgid then Rejected
    else Invoke(t[code].callback.value)
  }

  /** The value `dxgk_ioctl` returns: -ENOTTY for a rejection, the callback's status unchanged otherwise. */
  function IoctlReturn(d: Decision, status: Callback -> int): (ret: int)
    ensures d.Rejected? ==> ret == -ENOTTY
    ensures d.Invoke? ==> ret == status(d.callback)
  {
    match d
    case Rejected => -ENOTTY
    case Invoke(cb) => status(cb)
  }

  /** A callback runs iff the number is in range, its slot is filled with exactly p1, and the tgids agree. */
  lemma DispatchMeaning(t: seq<IoctlDesc>, p1: U32, processTgid: int, currentTgid: int)
    requires IsTable(t)
    ensures Dispatch(t, p1, processTgid, currentTgid).Invoke? <==>
      1 <= IocNr(p1) <= LX_IO_MAX && t[IocNr(p1)].callback.Some? && t[IocNr(p1)].ioctl == p1
      && processTgid == currentTgid
    ensures Dispatch(t, p1, processTgid, currentTgid).Invoke? ==>
      Some(Dispatch(t, p1, processTgid, currentTgid).callback) == t[IocNr(p1)].callback
  {
  }

  /**
    After `init_ioctls` on the zeroed table, exactly the five registered words reach a callback,
    each its own, and only from the owning process.
  */
  lemma DispatchAfterInit(p1: U32, processTgid: int, currentTgid: int)
    ensures var t := Registered(seq(LX_IO_MAX + 1, _ => EmptyDesc));
      Dispatch(t, p1, processTgid, currentTgid) ==
        if processTgid == currentTgid && CallbackOf(p1).Some? then Invoke(CallbackOf(p1).value)
        else Rejected
  {
    var t0 := seq(LX_IO_MAX + 1, _ => EmptyDesc);
    var t := Registered(t0);
    RegisteredSlots(t0);
    RegisteredNumbers();
    var code := IocNr(p1);
    if 1 <= code <= LX_IO_MAX && t[code].callback.Some? && t[code].ioctl == p1 {
      assert code in {0x1, 0x9, 0x14, 0x15, 0x3e};
    }
  }

  /** The static `ioctls[]` table. */
  class IoctlTable {
    var ioctls: array<IoctlDesc>

    /** The zero-initialised table. */
    constructor ()
      ensures fresh(ioctls) && IsTable(ioctls[..])
      ensures forall i :: 0 <= i < ioctls.Length ==> ioctls[i] == EmptyDesc
    {
      ioctls := new IoctlDesc[LX_IO_MAX + 1](_ => EmptyDesc);
    }

    /** `init_ioctls`: SET_IOCTL for the five adapter callbacks. */
    method InitIoctls()
      requires IsTable(ioctls[..])
      modifies ioctls
      ensures ioctls[..] == Registered(old(ioctls[..]))
    {
      RegisteredNumbers();
      ioctls[IocNr(LX_DXOPENADAPTERFROMLUID)] := IoctlDesc(Some(OpenAdapterFromLuidCb), LX_DXOPENADAPTERFROMLUID);
      ioctls[IocNr(LX_DXQUERYADAPTERINFO)] := IoctlDesc(Some(QueryAdapterInfoCb), LX_DXQUERYADAPTERINFO);
      ioctls[IocNr(LX_DXENUMADAPTERS2)] := IoctlDesc(Some(EnumAdapters2Cb), LX_DXENUMADAPTERS2);
      ioctls[IocNr(LX_DXCLOSEADAPTER)] := IoctlDesc(Some(CloseAdapterCb), LX_DXCLOSEADAPTER);
      ioctls[IocNr(LX_DXENUMADAPTERS3)] := IoctlDesc(Some(EnumAdapters3Cb), LX_DXENUMADAPTERS3);
    }

    /**
      `dxgk_ioctl`: the callback of the slot runs, and its status is returned, iff the number is
      in range, the slot holds a callback registered for exactly p1 and the caller is the
      process's own thread group; otherwise -ENOTTY.
    */
    function DxgkIoctl(p1: U32, processTgid: int, currentTgid: int, status: Callback -> int): (ret: int)
      requires IsTable(ioctls[..])
      reads this, ioctls
      ensures var code := IocNr(p1);
        if 1 <= code <= LX_IO_MAX && ioctls[code].callback.Some? && ioctls[code].ioctl == p1
           && processTgid == currentTgid
        then ret == status(ioctls[code].callback.value)
        else ret == -ENOTTY
    {
      DispatchMeaning(ioctls[..], p1, processTgid, currentTgid);
      IoctlReturn(Dispatch(ioctls[..], p1, processTgid, currentTgid), status)
    }
  }

  // ---------------------------------------------------------------------------------------------
  // Adapters as the ioctls see them
  // ---------------------------------------------------------------------------------------------

  /** `D3DKMT_ADAPTERS_MAX`. */
  const D3DKMT_ADAPTERS_MAX: nat := 64

  /** An adapter on the global list: its LUID, and whether `dxgadapter_acquire_lock_shared` succeeds. */
  datatype AdapterEntry = AdapterEntry(luid: WinLuid, active: bool)

  /** The outcome of `dxgprocess_open_adapter`: a status and the handle it stores. */
  datatype OpenResult = OpenResult(ret: int, handle: U32)

  /** The part of `struct d3dkmt_adapterinfo` the driver fills: the handle and the LUID. */
  datatype AdapterInfo = AdapterInfo(handle: U32, luid: WinLuid)

  /** The zeroed entry of a freshly allocated info buffer. */
  const ZeroInfo: AdapterInfo := AdapterInfo(0, WinLuid(0, 0))

  /** The handles of a run of adapter infos, in order. */
  function Handles(infos: seq<AdapterInfo>): (hs: seq<U32>)
    ensures |hs| == |infos| && forall i :: 0 <= i < |infos| ==> hs[i] == infos[i].handle
  {
    if infos == [] then [] else [infos[0].handle] + Handles(infos[1..])
  }

  /**
    The enumeration loop from list position k on: each active adapter is opened in turn and
    recorded with its LUID when the open succeeds; a failed open ends the loop.
  */
  function Enumerate(list: seq<AdapterEntry>, open: nat -> OpenResult, k: nat): (infos: seq<AdapterInfo>)
    ensures k <= |list| ==> |infos| <= |list| - k
    decreases |list| - k
  {
    if k >= |list| then []
    else if !list[k].active then Enumerate(list, open, k + 1)
    else if open(k).ret < 0 then []
    else [AdapterInfo(open(k).handle, list[k].luid)] + Enumerate(list, open, k + 1)
  }

  /** Whether the open at position p succeeds and is reached: every active adapter before it opened. */
  predicate OpenedAt(list: seq<AdapterEntry>, open: nat -> OpenResult, k: nat, p: nat)
  {
    k <= p < |list| && list[p].active && open(p).ret >= 0
    && forall q :: k <= q < p && list[q].active ==> open(q).ret >= 0
  }

  /** Whether `info` is the handle and LUID of an adapter from k on whose successful open was reached. */
  ghost predicate RecordedFrom(list: seq<AdapterEntry>, open: nat -> OpenResult, k: nat, info: AdapterInfo)
  {
    exists p: nat :: OpenedAt(list, open, k, p) && info == AdapterInfo(open(p).handle, list[p].luid)
  }

  /**
    What the enumeration records: no more infos than there are adapters from k on, each the
    handle and LUID of an adapter whose successful open was reached.
  */
  lemma {:induction false} EnumerateMeaning(list: seq<AdapterEntry>, open: nat -> OpenResult, k: nat)
    requires k <= |list|
    ensures |Enumerate(list, open, k)| <= |list| - k
    ensures forall i :: 0 <= i < |Enumerate(list, open, k)| ==>
      RecordedFrom(list, open, k, Enumerate(list, open, k)[i])
    decreases |list| - k
  {
    if k < |list| {
      EnumerateMeaning(list, open, k + 1);
      var e := Enumerate(list, open, k);
      var rest := Enumerate(list, open, k + 1);
      if !list[k].active {
        assert e == rest;
        assert |e| <= |list| - k;
        forall i | 0 <= i < |e|
          ensures RecordedFrom(list, open, k, e[i])
        {
          assert e[i] == rest[i];
          assert RecordedFrom(list, open, k + 1, rest[i]);
          var p: nat :| OpenedAt(list, open, k + 1, p) && rest[i] == AdapterInfo(open(p).handle, list[p].luid);
          assert OpenedAt(list, open, k, p);
        }
      } else if open(k).ret >= 0 {
        assert e == [AdapterInfo(open(k).handle, list[k].luid)] + rest;
        forall i | 0 <= i < |e|
          ensures RecordedFrom(list, open, k, e[i])
        {
          if i == 0 {
            assert OpenedAt(list, open, k, k);
          } else {
            assert e[i] == rest[i - 1];
            assert RecordedFrom(list, open, k + 1, rest[i - 1]);
            var p: nat :| OpenedAt(list, open, k + 1, p) && rest[i - 1] == AdapterInfo(open(p).handle, list[p].luid);
            assert OpenedAt(list, open, k, p);
          }
        }
      }
    }
  }

  /** The number of active adapters from list position k on. */
  function ActiveCount(list: seq<AdapterEntry>, k: nat): nat
    decreases |list| - k
  {
    if k >= |list| then 0
    else (if list[k].active then 1 else 0) + ActiveCount(list, k + 1)
  }

  /**
    The enumeration records no more entries than there are active adapters, and exactly as
    many when every open succeeds.
  */
  lemma {:induction false} EnumerateCount(list: seq<AdapterEntry>, open: nat -> OpenResult, k: nat)
    ensures |Enumerate(list, open, k)| <= ActiveCount(list, k)
    ensures (forall p :: k <= p < |list| && list[p].active ==> open(p).ret >= 0) ==>
      |Enumerate(list, open, k)| == ActiveCount(list, k)
    decreases |list| - k
  {
    if k < |list| {
      EnumerateCount(list, open, k + 1);
    }
  }

  /** The outcomes of the user-memory copies and buffer allocations of an enumeration. */
  datatype EnumOutcome = EnumOutcome(
    argsIn: bool,        // copy_from_user of the ioctl arguments
    infoAlloc: bool,     // vzalloc of the info buffer
    adaptersAlloc: bool, // vzalloc of the adapter pointer buffer
    countOut: bool,      // copy_to_user of the adapter count
    infoOut: bool        // copy_to_user of the info buffer
  )

  /**
    The observable result of an enumeration: the return value, the count written back to the
    caller (if the copy was made and succeeded), the infos copied to the caller, the adapters
    opened and the handles closed again, in order.
  */
  datatype EnumResult = EnumResult(
    ret: int,
    reported: Option<nat>,
    copied: seq<AdapterInfo>,
    recorded: seq<AdapterInfo>,
    closed: seq<U32>
  )

  /**
    `dxgk_enum_adapters` (LX_DXENUMADAPTERS2) as written, with a caller buffer of `capacity`
    entries (none when bufferNull). `num` is `dxgglobal->num_adapters`, which the size check
    compares with the buffer before the adapter list is locked; no code in these sources writes
    it. The loop then stores an info for every successful open without a bound, so `recorded`
    is also what it writes into the `capacity`-entry buffer.
  */
  function EnumAdapters2AsWritten(list: seq<AdapterEntry>, bufferNull: bool, capacity: nat, num: nat,
                                  open: nat -> OpenResult, o: EnumOutcome): (r: EnumResult)
    ensures r.recorded != [] ==> !bufferNull && num <= capacity <= D3DKMT_ADAPTERS_MAX
    ensures r.ret >= 0 ==> r.closed == []
  {
    if !o.argsIn then EnumResult(-EINVAL, None, [], [], [])
    else if bufferNull then
      if o.countOut then EnumResult(0, Some(num), [], [], [])
      else EnumResult(-EINVAL, None, [], [], [])
    else if capacity < num then EnumResult(-EOVERFLOW, None, [], [], [])
    else if capacity > D3DKMT_ADAPTERS_MAX then EnumResult(-EINVAL, None, [], [], [])
    else if !o.infoAlloc then EnumResult(-ENOMEM, None, [], [], [])
    // The zeroed info buffer is rolled back over all of its `capacity` entries.
    else if !o.adaptersAlloc then EnumResult(-ENOMEM, None, [], [], seq(capacity, _ => 0))
    else
      var recorded := Enumerate(list, open, 0);
      if !o.countOut then EnumResult(-EINVAL, None, [], recorded, Handles(recorded))
      else if !o.infoOut then EnumResult(-EINVAL, Some(|recorded|), [], recorded, Handles(recorded))
      else EnumResult(0, Some(|recorded|), recorded, recorded, [])
  }

  /**
    `dxgk_enum_adapters` never leaves an opened adapter behind: a failure closes every handle it
    opened, and a success closes nothing and hands every opened adapter to the caller.
  */
  lemma EnumAdapters2NoLeak(list: seq<AdapterEntry>, bufferNull: bool, capacity: nat, num: nat,
                            open: nat -> OpenResult, o: EnumOutcome)
    ensures var r := EnumAdapters2AsWritten(list, bufferNull, capacity, num, open, o);
      && (r.ret < 0 ==> forall i :: 0 <= i < |r.recorded| ==> r.recorded[i].handle in r.closed)
      && (r.ret >= 0 ==>
            r.closed == []
            && ((r.copied == r.recorded && r.reported == Some(|r.recorded|))
                || (r.recorded == [] && r.reported == Some(num))))
  {
  }

  /**
    The early exits of `dxgk_enum_adapters`: no buffer reports the adapter count and opens
    nothing; a buffer smaller than the count gives -EOVERFLOW and one above
    `D3DKMT_ADAPTERS_MAX` gives -EINVAL, both without opening anything.
  */
  lemma EnumAdapters2Rejections(list: seq<AdapterEntry>, bufferNull: bool, capacity: nat, num: nat,
                                open: nat -> OpenResult, o: EnumOutcome)
    requires o.argsIn
    ensures var r := EnumAdapters2AsWritten(list, bufferNull, capacity, num, open, o);
      && (bufferNull ==>
            r.recorded == [] && r.closed == [] && (o.countOut ==> r.ret == 0 && r.reported == Some(num)))
      && (!bufferNull && capacity < num ==> r.ret == -EOVERFLOW && r.recorded == [])
      && (!bufferNull && num <= capacity && capacity > D3DKMT_ADAPTERS_MAX ==>
          r.ret == -EINVAL && r.recorded == [])
  {
  }

  /**
    With the adapter count at 0, two active adapters that open and room for one, the code as
    written stores a second info past the end of the buffer and returns success.
  */
  lemma EnumAdapters2Overflow()
    ensures var r := EnumAdapters2AsWritten(TwoAdapters(), false, 1, 0, OpenAll, EnumOutcome(true, true, true, true, true));
      r.ret == 0 && |r.recorded| == 2 && |r.recorded| > 1
  {
    var list := TwoAdapters();
    assert Enumerate(list, OpenAll, 2) == [];
    assert Enumerate(list, OpenAll, 1) == [AdapterInfo(2, WinLuid(2, 0))];
    assert Enumerate(list, OpenAll, 0) == [AdapterInfo(1, WinLuid(1, 0)), AdapterInfo(2, WinLuid(2, 0))];
  }

  /**
    Past the checks, the code as written stores within the `capacity`-entry buffer whenever
    every active adapter is counted in `num`; and when every open succeeds, it stays within the
    buffer exactly when the buffer holds every active adapter.
  */
  lemma EnumAdapters2StoresInBounds(list: seq<AdapterEntry>, capacity: nat, num: nat,
                                    open: nat -> OpenResult, o: EnumOutcome)
    requires o.argsIn && o.infoAlloc && o.adaptersAlloc && num <= capacity <= D3DKMT_ADAPTERS_MAX
    ensures ActiveCount(list, 0) <= num ==>
      |EnumAdapters2AsWritten(list, false, capacity, num, open, o).recorded| <= capacity
    ensures (forall p :: 0 <= p < |list| && list[p].active ==> open(p).ret >= 0) ==>
      (|EnumAdapters2AsWritten(list, false, capacity, num, open, o).recorded| <= capacity
       <==> ActiveCount(list, 0) <= capacity)
  {
    EnumerateCount(list, open, 0);
  }

  /**
    `dxgk_enum_adapters` with the bound in the loop: an active adapter found with the buffer
    full ends the enumeration with -EOVERFLOW before it is opened, and the rollback closes what
    was opened. The checks before the loop are those of the code as written.
  */
  function EnumAdapters2Spec(list: seq<AdapterEntry>, bufferNull: bool, capacity: nat, num: nat,
                             open: nat -> OpenResult, o: EnumOutcome): (r: EnumResult)
    ensures |r.recorded| <= capacity
  {
    if !o.argsIn || bufferNull || capacity < num || capacity > D3DKMT_ADAPTERS_MAX
       || !o.infoAlloc || !o.adaptersAlloc
    then EnumAdapters2AsWritten(list, bufferNull, capacity, num, open, o)
    else
      var b := EnumerateUpTo(list, open, 0, capacity);
      if b.tooSmall then EnumResult(-EOVERFLOW, None, [], b.infos, Handles(b.infos))
      else if !o.countOut then EnumResult(-EINVAL, None, [], b.infos, Handles(b.infos))
      else if !o.infoOut then EnumResult(-EINVAL, Some(|b.infos|), [], b.infos, Handles(b.infos))
      else EnumResult(0, Some(|b.infos|), b.infos, b.infos, [])
  }

  /**
    The bounded `dxgk_enum_adapters` leaks nothing either: a failure closes every handle it
    opened, "too small" included, and a success closes nothing and hands every opened adapter
    to the caller (or reports the count with no buffer).
  */
  lemma EnumAdapters2SpecNoLeak(list: seq<AdapterEntry>, bufferNull: bool, capacity: nat, num: nat,
                                open: nat -> OpenResult, o: EnumOutcome)
    ensures var r := EnumAdapters2Spec(list, bufferNull, capacity, num, open, o);
      && (r.ret < 0 ==> forall i :: 0 <= i < |r.recorded| ==> r.recorded[i].handle in r.closed)
      && (r.ret >= 0 ==>
            r.closed == []
            && ((r.copied == r.recorded && r.reported == Some(|r.recorded|))
                || (r.recorded == [] && r.reported == Some(num))))
  {
    EnumAdapters2NoLeak(list, bufferNull, capacity, num, open, o);
  }

  /**
    Where the adapter count covers every active adapter, the bound never fires and the bounded
    enumeration is the code as written.
  */
  lemma EnumAdapters2AgreesWhenCounted(list: seq<AdapterEntry>, bufferNull: bool, capacity: nat, num: nat,
                                       open: nat -> OpenResult, o: EnumOutcome)
    requires ActiveCount(list, 0) <= num
    ensures EnumAdapters2Spec(list, bufferNull, capacity, num, open, o)
      == EnumAdapters2AsWritten(list, bufferNull, capacity, num, open, o)
  {
    if o.argsIn && !bufferNull && num <= capacity <= D3DKMT_ADAPTERS_MAX && o.infoAlloc && o.adaptersAlloc {
      EnumerateCount(list, open, 0);
      EnumerateUpToAgrees(list, open, 0, capacity);
      RoomMeansNotTooSmall(list, open, 0, capacity);
    }
  }

  /**
    When every copy and allocation succeeds, every adapter opens and the buffer holds every
    active adapter, every active adapter is reported.
  */
  lemma EnumAdapters2Complete(list: seq<AdapterEntry>, capacity: nat, num: nat, open: nat -> OpenResult)
    requires num <= capacity <= D3DKMT_ADAPTERS_MAX && ActiveCount(list, 0) <= capacity
    requires forall p :: 0 <= p < |list| && list[p].active ==> open(p).ret >= 0
    ensures var r := EnumAdapters2Spec(list, false, capacity, num, open, EnumOutcome(true, true, true, true, true));
      r.ret == 0 && |r.copied| == ActiveCount(list, 0)
  {
    EnumerateCount(list, open, 0);
    EnumerateUpToAgrees(list, open, 0, capacity);
    RoomMeansNotTooSmall(list, open, 0, capacity);
  }

  /** The rollback loop: the handles of the first n entries of the info buffer, in order. */
  method CloseInfos(info: array<AdapterInfo>, n: nat) returns (closed: seq<U32>)
    requires n <= info.Length
    ensures closed == Handles(info[..n])
  {
    closed := [];
    var i := 0;
    while i < n
      invariant 0 <= i <= n && closed == Handles(info[..i])
    {
      assert info[..i + 1] == info[..i] + [info[i]];
      HandlesAppend(info[..i], [info[i]]);
      closed := closed + [info[i].handle];
      i := i + 1;
    }
  }

  lemma {:induction false} HandlesAppend(xs: seq<AdapterInfo>, ys: seq<AdapterInfo>)
    ensures Handles(xs + ys) == Handles(xs) + Handles(ys)
  {
  }

  /**
    The enumeration loop as written, over an info buffer that holds what it records: fills the
    buffer from its first entry and returns how many entries it filled.
  */
  method FillInfos(info: array<AdapterInfo>, list: seq<AdapterEntry>, open: nat -> OpenResult)
    returns (count: nat)
    requires |Enumerate(list, open, 0)| <= info.Length
    modifies info
    ensures count <= info.Length && info[..count] == Enumerate(list, open, 0)
  {
    count := 0;
    var k := 0;
    while k < |list|
      invariant 0 <= k <= |list| && count <= k && count <= info.Length
      invariant Enumerate(list, open, 0) == info[..count] + Enumerate(list, open, k)
    {
      if list[k].active {
        var r := open(k);
        if r.ret < 0 {
          assert Enumerate(list, open, k) == [];
          break;
        }
        assert Enumerate(list, open, k) == [AdapterInfo(r.handle, list[k].luid)] + Enumerate(list, open, k + 1);
        info[count] := AdapterInfo(r.handle, list[k].luid);
        assert info[..count + 1] == info[..count] + [info[count]];
        count := count + 1;
      }
      k := k + 1;
    }
  }

  /**
    `dxgk_enum_adapters` with the bound corrected (see `EnumAdapters2AsWritten`): checks the
    caller's buffer against the adapter count and `D3DKMT_ADAPTERS_MAX`, opens the active
    adapters into a zeroed buffer, copies the count and the buffer out, and closes what it
    recorded when anything fails.
  */
  method EnumAdapters2(list: seq<AdapterEntry>, bufferNull: bool, capacity: nat, num: nat,
                       open: nat -> OpenResult, o: EnumOutcome) returns (r: EnumResult)
    ensures r == EnumAdapters2Spec(list, bufferNull, capacity, num, open, o)
  {
    if !o.argsIn {
      return EnumResult(-EINVAL, None, [], [], []);
    }
    if bufferNull {
      if o.countOut {
        return EnumResult(0, Some(num), [], [], []);
      }
      return EnumResult(-EINVAL, None, [], [], []);
    }
    if capacity < num {
      return EnumResult(-EOVERFLOW, None, [], [], []);
    }
    if capacity > D3DKMT_ADAPTERS_MAX {
      return EnumResult(-EINVAL, None, [], [], []);
    }
    if !o.infoAlloc {
      return EnumResult(-ENOMEM, None, [], [], []);
    }
    var info := new AdapterInfo[capacity](_ => ZeroInfo);
    var entries := capacity;
    var ret := 0;
    var reported := None;
    var copied := [];
    var recorded := [];
    if !o.adaptersAlloc {
      ret := -ENOMEM;
    } else {
      var count, tooSmall := FillInfosUpTo(info, list, open);
      recorded := info[..count];
      entries := count;
      if tooSmall {
        ret := -EOVERFLOW;
      } else if !o.countOut {
        ret := -EINVAL;
      } else {
        reported := Some(count);
        if !o.infoOut {
          ret := -EINVAL;
        } else {
          copied := info[..count];
        }
      }
    }
    var closed := [];
    if ret < 0 {
      closed := CloseInfos(info, entries);
      assert !o.adaptersAlloc ==> info[..entries] == seq(capacity, _ => ZeroInfo);
    }
    return EnumResult(ret, reported, copied, recorded, closed);
  }

  // ---------------------------------------------------------------------------------------------
  // dxgkp_enum_adapters
  // ---------------------------------------------------------------------------------------------

  /** `dxgkp_enum_adapters`' largest accepted buffer. */
  const ENUM_ADAPTERS_MAX: nat := 0xFFFF

  /** What `dxgkp_enum_adapters` does as written, with the number of info entries it writes. */
  datatype EnumAsWritten = EnumAsWritten(result: EnumResult, written: nat)

  /**
    `dxgkp_enum_adapters` as written: the loop stores into `info[adapter_count]` for every
    successful open without comparing the count with `adapter_count_max`, and the later "too
    many adapters" branch overwrites its status with the result of copying the count out.
    `num` is `dxgglobal->num_adapters`, the count copied out with no buffer and with too many
    adapters.
  */
  function EnumAdaptersAsWritten(list: seq<AdapterEntry>, infoNull: bool, countMax: nat, num: nat,
                                 open: nat -> OpenResult, o: EnumOutcome): (w: EnumAsWritten)
    ensures w.written == |w.result.recorded|
    ensures w.result.recorded != [] ==> !infoNull && 0 < countMax <= ENUM_ADAPTERS_MAX
  {
    if infoNull || countMax == 0 then
      EnumAsWritten(if o.countOut then EnumResult(0, Some(num), [], [], [])
        else EnumResult(-EINVAL, None, [], [], []), 0)
    else if countMax > ENUM_ADAPTERS_MAX then EnumAsWritten(EnumResult(-EINVAL, None, [], [], []), 0)
    else if !o.infoAlloc || !o.adaptersAlloc then EnumAsWritten(EnumResult(-ENOMEM, None, [], [], []), 0)
    else
      var recorded := Enumerate(list, open, 0);
      var written := |recorded|;
      if |recorded| > countMax then
        EnumAsWritten(if o.countOut then EnumResult(0, Some(num), [], recorded, [])
          else EnumResult(-EINVAL, None, [], recorded, Handles(recorded)), written)
      else if !o.countOut then EnumAsWritten(EnumResult(-EINVAL, None, [], recorded, Handles(recorded)), written)
      else if !o.infoOut then EnumAsWritten(EnumResult(-EINVAL, Some(|recorded|), [], recorded, Handles(recorded)), written)
      else EnumAsWritten(EnumResult(0, Some(|recorded|), recorded, recorded, []), written)
  }

  /** Two active adapters that both open. */
  function TwoAdapters(): seq<AdapterEntry>
  {
    [AdapterEntry(WinLuid(1, 0), true), AdapterEntry(WinLuid(2, 0), true)]
  }

  function OpenAll(p: nat): OpenResult
  {
    OpenResult(0, if p < 0xFFFF then p + 1 else 1)
  }

  /**
    With two active adapters and room for one, the code as written stores a second info entry
    past the end of its one-entry buffer, and then returns success with neither handle
    reported to the caller nor closed.
  */
  lemma EnumAdaptersOverflow()
    ensures var w := EnumAdaptersAsWritten(TwoAdapters(), false, 1, 2, OpenAll, EnumOutcome(true, true, true, true, true));
      && w.written == 2 && w.written > 1
      && w.result.ret == 0 && |w.result.recorded| == 2 && w.result.copied == [] && w.result.closed == []
  {
    var list := TwoAdapters();
    assert Enumerate(list, OpenAll, 2) == [];
    assert Enumerate(list, OpenAll, 1) == [AdapterInfo(2, WinLuid(2, 0))];
    assert Enumerate(list, OpenAll, 0) == [AdapterInfo(1, WinLuid(1, 0)), AdapterInfo(2, WinLuid(2, 0))];
  }

  /** The result of an enumeration into a buffer of `room` entries: what it recorded and whether it ran out of room. */
  datatype Bounded = Bounded(infos: seq<AdapterInfo>, tooSmall: bool)

  /**
    The enumeration loop with the bound check: an active adapter found with no room left ends
    the loop as "too small" before it is opened.
  */
  function EnumerateUpTo(list: seq<AdapterEntry>, open: nat -> OpenResult, k: nat, room: nat): (b: Bounded)
    ensures |b.infos| <= room
    decreases |list| - k
  {
    if k >= |list| then Bounded([], false)
    else if !list[k].active then EnumerateUpTo(list, open, k + 1, room)
    else if room == 0 then Bounded([], true)
    else if open(k).ret < 0 then Bounded([], false)
    else
      var rest := EnumerateUpTo(list, open, k + 1, room - 1);
      Bounded([AdapterInfo(open(k).handle, list[k].luid)] + rest.infos, rest.tooSmall)
  }

  /** With enough room the bounded loop records what the unbounded one does. */
  lemma {:induction false} EnumerateUpToAgrees(list: seq<AdapterEntry>, open: nat -> OpenResult, k: nat, room: nat)
    requires |Enumerate(list, open, k)| <= room
    ensures EnumerateUpTo(list, open, k, room).infos == Enumerate(list, open, k)
    decreases |list| - k
  {
    if k < |list| {
      if !list[k].active {
        EnumerateUpToAgrees(list, open, k + 1, room);
      } else if open(k).ret >= 0 {
        assert room > 0;
        EnumerateUpToAgrees(list, open, k + 1, room - 1);
      }
    }
  }

  /**
    `dxgkp_enum_adapters` with the bound check in the loop and the "too small" status kept:
    `STATUS_BUFFER_TOO_SMALL` after the adapter count is copied out, so the rollback closes
    the handles the call opened.
  */
  function EnumAdaptersSpec(list: seq<AdapterEntry>, infoNull: bool, countMax: nat, num: nat,
                            open: nat -> OpenResult, o: EnumOutcome): (r: EnumResult)
    ensures |r.recorded| <= countMax
  {
    if infoNull || countMax == 0 then
      if o.countOut then EnumResult(0, Some(num), [], [], []) else EnumResult(-EINVAL, None, [], [], [])
    else if countMax > ENUM_ADAPTERS_MAX then EnumResult(-EINVAL, None, [], [], [])
    else if !o.infoAlloc || !o.adaptersAlloc then EnumResult(-ENOMEM, None, [], [], [])
    else
      var b := EnumerateUpTo(list, open, 0, countMax);
      if b.tooSmall then
        if o.countOut then EnumResult(STATUS_BUFFER_TOO_SMALL, Some(num), [], b.infos, Handles(b.infos))
        else EnumResult(-EINVAL, None, [], b.infos, Handles(b.infos))
      else if !o.countOut then EnumResult(-EINVAL, None, [], b.infos, Handles(b.infos))
      else if !o.infoOut then EnumResult(-EINVAL, Some(|b.infos|), [], b.infos, Handles(b.infos))
      else EnumResult(0, Some(|b.infos|), b.infos, b.infos, [])
  }

  /**
    The corrected enumeration leaks nothing: any failure, "too small" included, closes every
    handle it opened, and a success hands every opened adapter to the caller; it never records
    more adapters than the caller has room for.
  */
  lemma EnumAdaptersNoLeak(list: seq<AdapterEntry>, infoNull: bool, countMax: nat, num: nat,
                           open: nat -> OpenResult, o: EnumOutcome)
    ensures var r := EnumAdaptersSpec(list, infoNull, countMax, num, open, o);
      && |r.recorded| <= countMax
      && (r.ret < 0 ==> Handles(r.recorded) == r.closed)
      && (r.ret >= 0 ==> r.closed == [] && (r.copied == r.recorded || r.recorded == []))
  {
    NegativeStatus();
  }

  lemma NegativeStatus()
    ensures STATUS_BUFFER_TOO_SMALL < 0
  {
    ErrorCodeSeverity(0xC000_0023);
  }

  /** Where the buffer has room for every active adapter the corrected enumeration agrees with the code as written. */
  lemma EnumAdaptersAgreesWhenRoom(list: seq<AdapterEntry>, infoNull: bool, countMax: nat, num: nat,
                                    open: nat -> OpenResult, o: EnumOutcome)
    requires ActiveCount(list, 0) <= countMax
    ensures EnumAdaptersSpec(list, infoNull, countMax, num, open, o)
      == EnumAdaptersAsWritten(list, infoNull, countMax, num, open, o).result
  {
    EnumerateCount(list, open, 0);
    EnumerateUpToAgrees(list, open, 0, countMax);
    if !(infoNull || countMax == 0) && countMax <= ENUM_ADAPTERS_MAX && o.infoAlloc && o.adaptersAlloc {
      RoomMeansNotTooSmall(list, open, 0, countMax);
    }
  }

  /** With room for every active adapter the bounded loop never runs out of room. */
  lemma {:induction false} RoomMeansNotTooSmall(list: seq<AdapterEntry>, open: nat -> OpenResult, k: nat, room: nat)
    requires ActiveCount(list, k) <= room
    ensures !EnumerateUpTo(list, open, k, room).tooSmall
    decreases |list| - k
  {
    if k < |list| {
      if !list[k].active {
        RoomMeansNotTooSmall(list, open, k + 1, room);
      } else if open(k).ret >= 0 {
        RoomMeansNotTooSmall(list, open, k + 1, room - 1);
      }
    }
  }

  /** The bounded enumeration loop over an info buffer of `countMax` entries. */
  method FillInfosUpTo(info: array<AdapterInfo>, list: seq<AdapterEntry>, open: nat -> OpenResult)
    returns (count: nat, tooSmall: bool)
    modifies info
    ensures count <= info.Length
    ensures Bounded(info[..count], tooSmall) == EnumerateUpTo(list, open, 0, info.Length)
  {
    count := 0;
    tooSmall := false;
    var k := 0;
    while k < |list|
      invariant 0 <= k <= |list| && count <= info.Length
      invariant var rest := EnumerateUpTo(list, open, k, info.Length - count);
        EnumerateUpTo(list, open, 0, info.Length) == Bounded(info[..count] + rest.infos, rest.tooSmall)
    {
      if list[k].active {
        if count == info.Length {
          tooSmall := true;
          assert info[..count] + [] == info[..count];
          return;
        }
        var r := open(k);
        if r.ret < 0 {
          assert info[..count] + [] == info[..count];
          return;
        }
        info[count] := AdapterInfo(r.handle, list[k].luid);
        assert info[..count + 1] == info[..count] + [info[count]];
        count := count + 1;
      }
      k := k + 1;
    }
    assert info[..count] + [] == info[..count];
  }

  /**
    `dxgkp_enum_adapters` with the bound corrected (see `EnumAdaptersAsWritten`): reports the
    count when there is no buffer, rejects more than 0xFFFF entries, opens the active adapters
    into a buffer of `countMax` entries and, on any failure, closes what it opened.
  */
  method EnumAdapters(list: seq<AdapterEntry>, infoNull: bool, countMax: nat, num: nat,
                      open: nat -> OpenResult, o: EnumOutcome) returns (r: EnumResult)
    ensures r == EnumAdaptersSpec(list, infoNull, countMax, num, open, o)
  {
    if infoNull || countMax == 0 {
      if o.countOut {
        return EnumResult(0, Some(num), [], [], []);
      }
      return EnumResult(-EINVAL, None, [], [], []);
    }
    if countMax > ENUM_ADAPTERS_MAX {
      return EnumResult(-EINVAL, None, [], [], []);
    }
    if !o.infoAlloc || !o.adaptersAlloc {
      return EnumResult(-ENOMEM, None, [], [], []);
    }
    var info := new AdapterInfo[countMax](_ => ZeroInfo);
    var count, tooSmall := FillInfosUpTo(info, list, open);
    var recorded := info[..count];
    var ret := 0;
    var reported := None;
    var copied := [];
    if tooSmall {
      if o.countOut {
        ret := STATUS_BUFFER_TOO_SMALL;
        reported := Some(num);
      } else {
        ret := -EINVAL;
      }
    } else if !o.countOut {
      ret := -EINVAL;
    } else {
      reported := Some(count);
      if !o.infoOut {
        ret := -EINVAL;
      } else {
        copied := recorded;
      }
    }
    NegativeStatus();
    var closed := [];
    if ret < 0 {
      closed := CloseInfos(info, count);
    }
    return EnumResult(ret, reported, copied, recorded, closed);
  }

  /** `dxgk_enum_adapters3` (LX_DXENUMADAPTERS3): copies its arguments in and forwards them. */
  method EnumAdapters3(list: seq<AdapterEntry>, argsIn: bool, infoNull: bool, countMax: nat, num: nat,
                       open: nat -> OpenResult, o: EnumOutcome) returns (r: EnumResult)
    ensures !argsIn ==> r == EnumResult(-EINVAL, None, [], [], [])
    ensures argsIn ==> r == EnumAdaptersSpec(list, infoNull, countMax, num, open, o)
  {
    if !argsIn {
      return EnumResult(-EINVAL, None, [], [], []);
    }
    r := EnumAdapters(list, infoNull, countMax, num, open, o);
  }

  // ---------------------------------------------------------------------------------------------
  // dxgk_open_adapter_from_luid
  // ---------------------------------------------------------------------------------------------

  /** The outcome of opening an adapter by LUID: the return value, the position opened, the handles closed. */
  datatype OpenByLuid = OpenByLuid(ret: int, matched: Option<nat>, handle: U32, closed: seq<U32>)

  /** The first position from k on of an active adapter with the LUID, compared as one 64-bit word. */
  function FindLuid(list: seq<AdapterEntry>, luid: WinLuid, k: nat): (p: Option<nat>)
    ensures p.Some? ==>
      && k <= p.value < |list| && list[p.value].active
      && Luid64(list[p.value].luid) == Luid64(luid)
      && forall q :: k <= q < p.value && list[q].active ==> Luid64(list[q].luid) != Luid64(luid)
    ensures p.None? ==> forall q :: k <= q < |list| && list[q].active ==> Luid64(list[q].luid) != Luid64(luid)
    decreases |list| - k
  {
    if k >= |list| then None
    else if list[k].active && Luid64(list[k].luid) == Luid64(luid) then Some(k)
    else FindLuid(list, luid, k + 1)
  }

  /** Comparing LUIDs as 64-bit words matches exactly the equal LUIDs. */
  lemma FindLuidIsEquality(list: seq<AdapterEntry>, luid: WinLuid)
    ensures var p := FindLuid(list, luid, 0);
      && (p.Some? ==> list[p.value].luid == luid)
      && (p.None? ==> forall q :: 0 <= q < |list| && list[q].active ==> list[q].luid != luid)
  {
    var p := FindLuid(list, luid, 0);
    if p.Some? {
      Luid64Injective(list[p.value].luid, luid);
    }
  }

  /**
    `dxgk_open_adapter_from_luid` as written: the first active adapter with the LUID is opened
    and the handle copied out; a zero handle in the arguments then gives -EINVAL, and any
    negative result closes the handle in the arguments. With no matching adapter the handle the
    caller passed in is left as it is.
  */
  function OpenFromLuidSpec(list: seq<AdapterEntry>, argsIn: bool, luid: WinLuid, userHandle: U32,
                            open: nat -> OpenResult, handleOut: bool): (r: OpenByLuid)
    ensures r.matched.Some? ==>
      argsIn && r.matched.value < |list| && list[r.matched.value].active
      && Luid64(list[r.matched.value].luid) == Luid64(luid)
    ensures r.closed == [] || r.closed == [r.handle]
  {
    if !argsIn then OpenByLuid(-EINVAL, None, userHandle, [userHandle])
    else
      var p := FindLuid(list, luid, 0);
      var handle := if p.None? then userHandle else open(p.value).handle;
      var ret0 :=
        if p.None? then 0
        else if open(p.value).ret < 0 then open(p.value).ret
        else if handleOut then 0
        else -EINVAL;
      var ret := if handle == 0 then -EINVAL else ret0;
      OpenByLuid(ret, p, handle, if ret < 0 then [handle] else [])
  }

  /**
    `dxgk_open_adapter_from_luid` with the missing-adapter case corrected (see
    `OpenFromLuidChecked`): walks the adapter list, opens the first active adapter whose LUID
    matches and copies the handle out; with no match it fails and closes nothing.
  */
  method OpenAdapterFromLuid(list: seq<AdapterEntry>, argsIn: bool, luid: WinLuid, userHandle: U32,
                             open: nat -> OpenResult, handleOut: bool) returns (r: OpenByLuid)
    ensures r == OpenFromLuidChecked(list, argsIn, luid, userHandle, open, handleOut)
  {
    if !argsIn {
      return OpenByLuid(-EINVAL, None, userHandle, [userHandle]);
    }
    var ret := 0;
    var handle := userHandle;
    var adapter: Option<nat> := None;
    var k := 0;
    while k < |list|
      invariant 0 <= k <= |list| && adapter.None? && ret == 0 && handle == userHandle
      invariant FindLuid(list, luid, 0) == FindLuid(list, luid, k)
    {
      if list[k].active {
        if Luid64(list[k].luid) == Luid64(luid) {
          var o := open(k);
          ret := o.ret;
          handle := o.handle;
          if ret >= 0 {
            ret := if handleOut then 0 else -EINVAL;
          }
          adapter := Some(k);
          break;
        }
      }
      k := k + 1;
    }
    if adapter.None? {
      return OpenByLuid(-EINVAL, None, userHandle, []);
    }
    if handle == 0 {
      ret := -EINVAL;
    }
    var closed := [];
    if ret < 0 {
      closed := [handle];
    }
    return OpenByLuid(ret, adapter, handle, closed);
  }

  /** A zero handle gives -EINVAL, and every failure closes the handle in the arguments. */
  lemma OpenFromLuidFailures(list: seq<AdapterEntry>, argsIn: bool, luid: WinLuid, userHandle: U32,
                             open: nat -> OpenResult, handleOut: bool)
    ensures var r := OpenFromLuidSpec(list, argsIn, luid, userHandle, open, handleOut);
      && (r.handle == 0 ==> r.ret == -EINVAL)
      && (r.ret < 0 <==> r.closed == [r.handle])
      && (r.ret >= 0 ==> r.closed == [])
  {
  }

  /**
    With no adapter of the LUID, a caller that passes a nonzero handle gets success although
    nothing was opened.
  */
  lemma OpenFromLuidNoMatchSucceeds()
    ensures var r := OpenFromLuidSpec([], true, WinLuid(1, 0), 7, OpenAll, true);
      r.ret == 0 && r.matched == None
  {
  }

  /**
    `dxgk_open_adapter_from_luid` with the missing-adapter case handled: no matching adapter
    gives -EINVAL and closes nothing, since nothing was opened.
  */
  function OpenFromLuidChecked(list: seq<AdapterEntry>, argsIn: bool, luid: WinLuid, userHandle: U32,
                               open: nat -> OpenResult, handleOut: bool): (r: OpenByLuid)
    ensures r.ret >= 0 ==> r.matched.Some?
    ensures argsIn && r.matched.None? ==> r.ret < 0 && r.closed == []
  {
    if argsIn && FindLuid(list, luid, 0).None? then OpenByLuid(-EINVAL, None, userHandle, [])
    else OpenFromLuidSpec(list, argsIn, luid, userHandle, open, handleOut)
  }

  /**
    The checked open succeeds exactly when an adapter of the LUID was opened with a nonzero
    handle that reached the caller, and then it is the first active adapter of that LUID.
  */
  lemma OpenFromLuidCheckedMeaning(list: seq<AdapterEntry>, argsIn: bool, luid: WinLuid, userHandle: U32,
                                   open: nat -> OpenResult, handleOut: bool)
    ensures var r := OpenFromLuidChecked(list, argsIn, luid, userHandle, open, handleOut);
      && (r.ret >= 0 <==>
            argsIn && r.matched.Some? && open(r.matched.value).ret >= 0
            && open(r.matched.value).handle != 0 && handleOut)
      && (r.ret >= 0 ==>
            r.ret == 0 && r.handle == open(r.matched.value).handle
            && list[r.matched.value].luid == luid && r.closed == [])
  {
    FindLuidIsEquality(list, luid);
  }

  // ---------------------------------------------------------------------------------------------
  // dxgk_query_adapter_info
  // ---------------------------------------------------------------------------------------------

  /** `DXG_MAX_VM_BUS_PACKET_SIZE`: the largest private data a query may carry. */
  const DXG_MAX_VM_BUS_PACKET_SIZE: nat := 1024 * 128

  /** The outcome of a query: the return value and whether the adapter reference taken was dropped. */
  datatype QueryResult = QueryResult(ret: int, sent: bool, referenceDropped: bool)

  /**
    `dxgk_query_adapter_info`: private data must be 1 to `DXG_MAX_VM_BUS_PACKET_SIZE` bytes, the
    handle must name an adapter of the process and the adapter must be active; the query goes to
    the host, and the reference the lookup took is dropped on every path that found the adapter.
  */
  function QueryAdapterInfo(argsIn: bool, privateDataSize: nat, found: bool, active: bool,
                            sendRet: int): (r: QueryResult)
    ensures r.sent <==> argsIn && 0 < privateDataSize <= DXG_MAX_VM_BUS_PACKET_SIZE && found && active
    ensures r.sent ==> r.ret == sendRet
    ensures !r.sent ==> r.ret < 0
    ensures r.referenceDropped <==> argsIn && 0 < privateDataSize <= DXG_MAX_VM_BUS_PACKET_SIZE && found
  {
    if !argsIn then QueryResult(-EINVAL, false, false)
    else if privateDataSize > DXG_MAX_VM_BUS_PACKET_SIZE || privateDataSize == 0 then QueryResult(-EINVAL, false, false)
    else if !found then QueryResult(-EINVAL, false, false)
    else if !active then QueryResult(-ENODEV, false, true)
    else QueryResult(sendRet, true, true)
  }
}
