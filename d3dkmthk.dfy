/**
  The user-mode interface definitions of the dxgkrnl driver: the bit-field unions over a 32-bit
  word (`d3dkmthandle`, `ntstatus`, the flag groups), the locally unique identifier `winluid`,
  and the `LX_DX*` ioctl numbers. Every union is read through the layout of `BitFields`.
*/
module D3dkmthk {
  import opened BitFields

  // ---------------------------------------------------------------------------------------------
  // struct d3dkmthandle: instance:6, index:24, unique:2 over __u32 v

  const HandleLayout: seq<nat> := [6, 24, 2]

  /** The three bit-fields of a kernel handle. */
  datatype D3dkmtHandle = D3dkmtHandle(instance: nat, index: nat, unique: nat)
  {
    /** Each field fits in its declared width. */
    predicate Valid()
    {
      instance < 64 && index < 0x100_0000 && unique < 4
    }

    function Fields(): seq<nat>
    {
      [instance, index, unique]
    }
  }

  lemma HandleLayoutIsWord()
    ensures Width(HandleLayout) == 32
    ensures forall h: D3dkmtHandle :: h.Valid() ==> Fits(HandleLayout, h.Fields())
  {
    Pow2Table();
    assert HandleLayout[1..] == [24, 2] && [24, 2][1..] == [2] && [2][1..] == [];
  }

  lemma HandleOffsets()
    ensures Offset(HandleLayout, 1) == 6 && Offset(HandleLayout, 2) == 30
  {
    assert HandleLayout[..1] == [6] && [6][1..] == [];
    assert HandleLayout[..2] == [6, 24] && [6, 24][1..] == [24] && [24][1..] == [];
  }

  /** The value `v` of a handle whose bit-fields are h's: instance in bits 0..5, index in
      bits 6..29, unique in bits 30..31. */
  function HandleValue(h: D3dkmtHandle): (v: U32)
    requires h.Valid()
    ensures v % 64 == h.instance && (v / 64) % 0x100_0000 == h.index && v / 0x4000_0000 == h.unique
  {
    HandleLayoutIsWord();
    HandleOffsets();
    Pow2Table();
    var v := Pack(HandleLayout, h.Fields());
    UnpackPack(HandleLayout, h.Fields());
    FieldIsShiftMask(HandleLayout, v, 0);
    FieldIsShiftMask(HandleLayout, v, 1);
    FieldIsShiftMask(HandleLayout, v, 2);
    DivBound(v, 0x4000_0000, 4);
    v
  }

  /** The bit-fields of the handle whose value is v; they give v back. */
  function HandleOfValue(v: U32): (h: D3dkmtHandle)
    ensures h.Valid() && HandleValue(h) == v
  {
    HandleLayoutIsWord();
    Pow2Table();
    var fs := Unpack(HandleLayout, v);
    var h := D3dkmtHandle(fs[0], fs[1], fs[2]);
    assert h.Fields() == fs;
    h
  }

  /** Reading the fields of a handle's value gives the same fields back. */
  lemma HandleRoundTrip(h: D3dkmtHandle)
    requires h.Valid()
    ensures HandleOfValue(HandleValue(h)) == h
  {
    HandleLayoutIsWord();
    UnpackPack(HandleLayout, h.Fields());
  }

  // ---------------------------------------------------------------------------------------------
  // struct ntstatus: int code:16, facility:13, customer:1, severity:2 over int v

  const StatusLayout: seq<nat> := [16, 13, 1, 2]

  /** A signed 32-bit `int`. */
  type Int32 = x: int | -0x8000_0000 <= x < 0x8000_0000

  /** The bit pattern of a two's-complement `int`. */
  function Bits(v: Int32): (u: U32)
    ensures v >= 0 ==> u == v
    ensures v < 0 ==> u == v + 0x1_0000_0000
  {
    if v < 0 then v + 0x1_0000_0000 else v
  }

  /** A signed (`int`) bit-field of width w holding raw bits u reads as a two's-complement value. */
  function SignedField(u: nat, w: nat): int
    requires w > 0
  {
    if u >= Pow2(w - 1) then u - Pow2(w) else u
  }

  /** The four signed bit-fields of an NTSTATUS word. */
  datatype NtStatusFields = NtStatusFields(code: int, facility: int, customer: int, severity: int)

  lemma StatusLayoutIsWord()
    ensures Width(StatusLayout) == 32 && Offset(StatusLayout, 3) == 30
  {
    assert StatusLayout[1..] == [13, 1, 2] && [13, 1, 2][1..] == [1, 2];
    assert [1, 2][1..] == [2] && [2][1..] == [];
    assert StatusLayout[..3] == [16, 13, 1] && [16, 13, 1][1..] == [13, 1];
    assert [13, 1][1..] == [1] && [1][1..] == [];
  }

  /** The bit-fields a status value shows through the union. */
  function StatusFields(v: Int32): (f: NtStatusFields)
    ensures -0x8000 <= f.code < 0x8000 && -0x1000 <= f.facility < 0x1000
    ensures -1 <= f.customer <= 0 && -2 <= f.severity < 2
  {
    StatusLayoutIsWord();
    Pow2Table();
    var fs := Unpack(StatusLayout, Bits(v));
    NtStatusFields(SignedField(fs[0], 16), SignedField(fs[1], 13),
                   SignedField(fs[2], 1), SignedField(fs[3], 2))
  }

  /** A status is negative exactly when its severity field reads negative (severity 2 or 3). */
  lemma NegativeIffSeverityNegative(v: Int32)
    ensures v < 0 <==> StatusFields(v).severity < 0
  {
    StatusLayoutIsWord();
    Pow2Table();
    var u := Bits(v);
    FieldIsShiftMask(StatusLayout, u, 3);
    DivBound(u, 0x4000_0000, 4);
    var s := u / 0x4000_0000;
    assert Unpack(StatusLayout, u)[3] == s;
    assert s >= 2 <==> u >= 0x8000_0000;
  }

  // ---------------------------------------------------------------------------------------------
  // Flag groups: bit-field structs over a 32-bit `value`

  /** d3dddi_allocationlist: write_operation, do_not_retire_instance, offer_priority:3, reserved:27. */
  const AllocationListFlagsLayout: seq<nat> := [1, 1, 3, 27]
  /** d3dddi_patchlocationlist: slot_id:24, reserved:8. */
  const PatchLocationLayout: seq<nat> := [24, 8]
  /** d3dkmt_createdeviceflags: four one-bit flags and reserved:28. */
  const CreateDeviceFlagsLayout: seq<nat> := [1, 1, 1, 1, 28]
  /** d3dddi_createcontextflags: five one-bit flags and reserved:27. */
  const CreateContextFlagsLayout: seq<nat> := [1, 1, 1, 1, 1, 27]
  /** d3dkmt_createallocationflags: eighteen one-bit flags and reserved:14. */
  const CreateAllocationFlagsLayout: seq<nat> := Ones(18) + [14]
  /** d3dddicb_signalflags: three one-bit flags, reserved:28 and DXGK_SIGNAL_FLAG_INTERNAL0:1. */
  const SignalFlagsLayout: seq<nat> := [1, 1, 1, 28, 1]
  /** d3dddi_createhwqueueflags: disable_gpu_timeout:1, reserved:31. */
  const CreateHwQueueFlagsLayout: seq<nat> := [1, 31]
  /** d3dddi_synchronizationobject_flags: eight one-bit flags and reserved:23. */
  const SyncObjectFlagsLayout: seq<nat> := Ones(8) + [23]
  /** d3dddi_waitforsynchronizationobjectfromcpu_flags: wait_any:1, reserved:31. */
  const WaitFromCpuFlagsLayout: seq<nat> := [1, 31]
  /** d3dkmt_submitcommandflags: null_rendering:1, present_redirected:1, reserved:30. */
  const SubmitCommandFlagsLayout: seq<nat> := [1, 1, 30]
  /** d3dkmt_createstandardallocationflags: reserved:32. */
  const CreateStandardAllocationFlagsLayout: seq<nat> := [32]
  /** d3dddicb_destroyallocation2flags: two one-bit flags, reserved:29 and system_use_only:1. */
  const DestroyAllocation2FlagsLayout: seq<nat> := [1, 1, 29, 1]
  /** The flags of d3dddi_allocationinfo2: primary:1, stereo:1, override_priority:1, reserved:29. */
  const AllocationInfo2FlagsLayout: seq<nat> := [1, 1, 1, 29]
  /** d3dkmt_adaptertype: thirteen one-bit flags and reserved:19. */
  const AdapterTypeLayout: seq<nat> := Ones(13) + [19]
  /** d3dkmt_enumadapters_filter, a 64-bit union: two one-bit flags and reserved:62. */
  const EnumAdaptersFilterLayout: seq<nat> := [1, 1, 62]

  lemma AllocationListFlagsWidth()
    ensures Width(AllocationListFlagsLayout) == 32
  {
    assert [1, 1, 3, 27][1..] == [1, 3, 27] && [1, 3, 27][1..] == [3, 27];
    assert [3, 27][1..] == [27] && [27][1..] == [];
  }

  lemma CreateDeviceFlagsWidth()
    ensures Width(CreateDeviceFlagsLayout) == 32
  {
    assert [1, 1, 1, 1, 28][1..] == [1, 1, 1, 28] && [1, 1, 1, 28][1..] == [1, 1, 28];
    assert [1, 1, 28][1..] == [1, 28] && [1, 28][1..] == [28] && [28][1..] == [];
  }

  lemma CreateContextFlagsWidth()
    ensures Width(CreateContextFlagsLayout) == 32
  {
    assert [1, 1, 1, 1, 1, 27][1..] == [1, 1, 1, 1, 27] && [1, 1, 1, 1, 27][1..] == [1, 1, 1, 27];
    assert [1, 1, 1, 27][1..] == [1, 1, 27] && [1, 1, 27][1..] == [1, 27];
    assert [1, 27][1..] == [27] && [27][1..] == [];
  }

  lemma SignalFlagsWidth()
    ensures Width(SignalFlagsLayout) == 32
  {
    assert [1, 1, 1, 28, 1][1..] == [1, 1, 28, 1] && [1, 1, 28, 1][1..] == [1, 28, 1];
    assert [1, 28, 1][1..] == [28, 1] && [28, 1][1..] == [1] && [1][1..] == [];
  }

  lemma PatchLocationWidth()
    ensures Width(PatchLocationLayout) == 32
  {
    assert [24, 8][1..] == [8] && [8][1..] == [];
  }

  lemma CreateAllocationFlagsWidth()
    ensures Width(CreateAllocationFlagsLayout) == 32
  {
    WidthOnes(18);
    WidthAppend(Ones(18), [14]);
    assert [14][1..] == [];
  }

  lemma CreateHwQueueAndWaitFlagsWidth()
    ensures Width(CreateHwQueueFlagsLayout) == 32 && Width(WaitFromCpuFlagsLayout) == 32
  {
    assert [1, 31][1..] == [31] && [31][1..] == [];
  }

  /** The synchronization object flags declare only 31 bits: bit 31 of `value` has no field. */
  lemma SyncObjectFlagsWidth()
    ensures Width(SyncObjectFlagsLayout) == 31
  {
    WidthOnes(8);
    WidthAppend(Ones(8), [23]);
    assert [23][1..] == [];
  }

  lemma SubmitCommandFlagsWidth()
    ensures Width(SubmitCommandFlagsLayout) == 32
  {
    assert [1, 1, 30][1..] == [1, 30] && [1, 30][1..] == [30] && [30][1..] == [];
  }

  lemma StandardAndDestroy2FlagsWidth()
    ensures Width(CreateStandardAllocationFlagsLayout) == 32
    ensures Width(DestroyAllocation2FlagsLayout) == 32
  {
    assert [32][1..] == [];
    assert [1, 1, 29, 1][1..] == [1, 29, 1] && [1, 29, 1][1..] == [29, 1];
    assert [29, 1][1..] == [1] && [1][1..] == [];
  }

  lemma AllocationInfo2FlagsWidth()
    ensures Width(AllocationInfo2FlagsLayout) == 32
  {
    assert [1, 1, 1, 29][1..] == [1, 1, 29] && [1, 1, 29][1..] == [1, 29];
    assert [1, 29][1..] == [29] && [29][1..] == [];
  }

  lemma AdapterTypeWidth()
    ensures Width(AdapterTypeLayout) == 32
  {
    WidthOnes(13);
    WidthAppend(Ones(13), [19]);
    assert [19][1..] == [];
  }

  /** The enumeration filter is the one flag group declared over a 64-bit word. */
  lemma EnumAdaptersFilterWidth()
    ensures Width(EnumAdaptersFilterLayout) == 64
  {
    assert [1, 1, 62][1..] == [1, 62] && [1, 62][1..] == [62] && [62][1..] == [];
  }

  /**
    The fifteen bit-field groups of the header fit their word. Thirteen fill a 32-bit word
    exactly: allocation list, patch location, create device, create context, create allocation,
    signal, create hardware queue, wait from CPU, submit command, create standard allocation,
    destroy allocation 2, allocation info 2 and adapter type. The enumeration filter fills its
    64-bit word. The synchronization object flags stop one bit short, leaving bit 31 unnamed.
  */
  lemma FlagLayoutsAreWords()
    ensures Width(AllocationListFlagsLayout) == 32
    ensures Width(PatchLocationLayout) == 32
    ensures Width(CreateDeviceFlagsLayout) == 32
    ensures Width(CreateContextFlagsLayout) == 32
    ensures Width(CreateAllocationFlagsLayout) == 32
    ensures Width(SignalFlagsLayout) == 32
    ensures Width(CreateHwQueueFlagsLayout) == 32 && Width(WaitFromCpuFlagsLayout) == 32
    ensures Width(SyncObjectFlagsLayout) == 31
    ensures Width(SubmitCommandFlagsLayout) == 32
    ensures Width(CreateStandardAllocationFlagsLayout) == 32
    ensures Width(DestroyAllocation2FlagsLayout) == 32
    ensures Width(AllocationInfo2FlagsLayout) == 32
    ensures Width(AdapterTypeLayout) == 32
    ensures Width(EnumAdaptersFilterLayout) == 64
  {
    AllocationListFlagsWidth();
    PatchLocationWidth();
    CreateDeviceFlagsWidth();
    CreateContextFlagsWidth();
    CreateAllocationFlagsWidth();
    SignalFlagsWidth();
    CreateHwQueueAndWaitFlagsWidth();
    SyncObjectFlagsWidth();
    SubmitCommandFlagsWidth();
    StandardAndDestroy2FlagsWidth();
    AllocationInfo2FlagsWidth();
    AdapterTypeWidth();
    EnumAdaptersFilterWidth();
  }

  /**
    The internal signal flag and system_use_only are the top bits of their words; offer_priority
    sits in bits 2..4.
  */
  lemma FlagPositions()
    ensures Offset(SignalFlagsLayout, 4) == 31
    ensures Offset(DestroyAllocation2FlagsLayout, 3) == 31
    ensures Offset(AllocationListFlagsLayout, 2) == 2 && AllocationListFlagsLayout[2] == 3
  {
    assert SignalFlagsLayout[..4] == [1, 1, 1, 28] && [1, 1, 1, 28][1..] == [1, 1, 28];
    assert [1, 1, 28][1..] == [1, 28] && [1, 28][1..] == [28] && [28][1..] == [];
    assert DestroyAllocation2FlagsLayout[..3] == [1, 1, 29] && [1, 1, 29][1..] == [1, 29];
    assert [1, 29][1..] == [29] && [29][1..] == [];
    assert AllocationListFlagsLayout[..2] == [1, 1] && [1, 1][1..] == [1] && [1][1..] == [];
  }

  // ---------------------------------------------------------------------------------------------
  // struct winluid { __u32 a; __u32 b; }

  datatype WinLuid = WinLuid(a: U32, b: U32)

  /** The 64-bit value `*(u64 *)&luid` of a LUID on a little-endian machine: a is the low half. */
  function Luid64(l: WinLuid): (v: nat)
    ensures v < 0x1_0000_0000 * 0x1_0000_0000
  {
    MulBound(l.a, 0x1_0000_0000, l.b, 0x1_0000_0000);
    l.a + 0x1_0000_0000 * l.b
  }

  /** The 64-bit comparison the driver uses tells LUIDs apart exactly when a field differs. */
  lemma Luid64Injective(x: WinLuid, y: WinLuid)
    ensures Luid64(x) == Luid64(y) <==> x == y
  {
    DivModOfPacked(x.a, 0x1_0000_0000, x.b);
    DivModOfPacked(y.a, 0x1_0000_0000, y.b);
  }

  // ---------------------------------------------------------------------------------------------
  // ioctl numbers: _IOC(dir, type, nr, size) = nr | type << 8 | size << 16 | dir << 30

  const IocLayout: seq<nat> := [8, 8, 14, 2]
  const IocReadWrite: nat := 3
  /** The ioctl magic (type) of the driver. */
  const LxMagic: nat := 0x47

  lemma IocLayoutIsWord()
    ensures Width(IocLayout) == 32 && Offset(IocLayout, 1) == 8
  {
    assert IocLayout[1..] == [8, 14, 2] && [8, 14, 2][1..] == [14, 2];
    assert [14, 2][1..] == [2] && [2][1..] == [];
    assert IocLayout[..1] == [8] && [8][1..] == [];
  }

  /** _IOWR(type, nr, size). */
  function IoWR(ty: nat, nr: nat, size: nat): (v: U32)
    requires ty < 0x100 && nr < 0x100 && size < 0x4000
    ensures v % 0x100 == nr
  {
    Pow2Table();
    IocLayoutIsWord();
    var v := Pack(IocLayout, [nr, ty, size, IocReadWrite]);
    FieldIsShiftMask(IocLayout, v, 0);
    UnpackPack(IocLayout, [nr, ty, size, IocReadWrite]);
    v
  }

  /** _IOC_NR(v): the command number in the low byte. */
  function IocNr(v: U32): (nr: nat)
    ensures nr < 0x100
  {
    v % 0x100
  }

  /** _IOC_TYPE(v): the magic in the second byte. */
  function IocType(v: U32): (ty: nat)
    ensures ty < 0x100
  {
    (v / 0x100) % 0x100
  }

  /** The number and the magic of an `_IOWR` word read back from it. */
  lemma IoWRFields(ty: nat, nr: nat, size: nat)
    requires ty < 0x100 && nr < 0x100 && size < 0x4000
    ensures IocNr(IoWR(ty, nr, size)) == nr && IocType(IoWR(ty, nr, size)) == ty
  {
    Pow2Table();
    IocLayoutIsWord();
    var v := IoWR(ty, nr, size);
    UnpackPack(IocLayout, [nr, ty, size, IocReadWrite]);
    FieldIsShiftMask(IocLayout, v, 1);
  }

  /** An `LX_DX*` ioctl with command number nr and an argument struct of the given size. */
  function LxIoctl(nr: nat, argSize: nat): U32
    requires nr < 0x100 && argSize < 0x4000
  {
    IoWR(LxMagic, nr, argSize)
  }

  /** The command numbers of the `LX_DX*` definitions, in declaration order. */
  const LxCommandNumbers: seq<nat> := LxCommandNumbersLow + LxCommandNumbersHigh
  /** The numbers up to 0x1c, in header order. */
  const LxCommandNumbersLow: seq<nat> := [
    0x01, 0x02, 0x04, 0x05, 0x06, 0x07, 0x09, 0x0f, 0x10, 0x11, 0x12, 0x13, 0x14, 0x15, 0x18,
    0x1b, 0x1c]
  /** The numbers from 0x19 on, in header order. */
  const LxCommandNumbersHigh: seq<nat> := [
    0x19, 0x1d, 0x31, 0x32, 0x33, 0x34, 0x35, 0x36, 0x3a, 0x3b, 0x3e, 0x3f, 0x40, 0x41, 0x42, 0x44]

  /** Command numbers of the ioctls the driver registers. */
  const NrOpenAdapterFromLuid: nat := 0x01
  const NrQueryAdapterInfo: nat := 0x09
  const NrEnumAdapters2: nat := 0x14
  const NrCloseAdapter: nat := 0x15
  const NrEnumAdapters3: nat := 0x3e

  /** Sizes of their argument structs on a 64-bit target. */
  const SizeOpenAdapterFromLuid: nat := 12   // winluid + d3dkmthandle
  const SizeQueryAdapterInfo: nat := 24      // handle, enum, pointer, u32, padded to 8
  const SizeEnumAdapters2: nat := 16         // u32, u32, pointer
  const SizeCloseAdapter: nat := 4           // d3dkmthandle
  const SizeEnumAdapters3: nat := 24         // u64 filter, u32, u32, pointer

  const LX_DXOPENADAPTERFROMLUID: U32 := LxIoctl(NrOpenAdapterFromLuid, SizeOpenAdapterFromLuid)
  const LX_DXQUERYADAPTERINFO: U32 := LxIoctl(NrQueryAdapterInfo, SizeQueryAdapterInfo)
  const LX_DXENUMADAPTERS2: U32 := LxIoctl(NrEnumAdapters2, SizeEnumAdapters2)
  const LX_DXCLOSEADAPTER: U32 := LxIoctl(NrCloseAdapter, SizeCloseAdapter)
  const LX_DXENUMADAPTERS3: U32 := LxIoctl(NrEnumAdapters3, SizeEnumAdapters3)

  /** Each element is below the next. */
  predicate Ascending(s: seq<nat>)
  {
    forall k :: 0 <= k < |s| - 1 ==> s[k] < s[k + 1]
  }

  /** An ascending run is strictly increasing between any two positions. */
  lemma {:induction false} AscendingIncreasing(s: seq<nat>)
    requires Ascending(s)
    ensures forall i, j :: 0 <= i < j < |s| ==> s[i] < s[j]
  {
    if |s| > 1 {
      var init := s[..|s| - 1];
      assert Ascending(init) by {
        forall k | 0 <= k < |init| - 1
          ensures init[k] < init[k + 1]
        {
          assert init[k] == s[k] && init[k + 1] == s[k + 1];
        }
      }
      AscendingIncreasing(init);
      forall i, j | 0 <= i < j < |s|
        ensures s[i] < s[j]
      {
        if j < |s| - 1 {
          assert s[i] == init[i] && s[j] == init[j];
        } else if i < j - 1 {
          assert s[i] == init[i] && s[j - 1] == init[j - 1];
        }
      }
    }
  }

  /**
    Two ascending runs a and b make a list without repeats when b's head falls strictly between
    a[m - 1] and a[m], and the rest of b lies above all of a; b's last element is the largest.
  */
  lemma TwoRunsDistinct(a: seq<nat>, b: seq<nat>, m: nat)
    requires Ascending(a) && Ascending(b) && 0 < m < |a| && |b| > 1
    requires a[m - 1] < b[0] < a[m] && a[|a| - 1] < b[1]
    ensures forall i, j :: 0 <= i < j < |a + b| ==> (a + b)[i] != (a + b)[j]
    ensures forall i :: 0 <= i < |a + b| ==> (a + b)[i] <= b[|b| - 1]
  {
    AscendingIncreasing(a);
    AscendingIncreasing(b);
    var s := a + b;
    forall i, j | 0 <= i < j < |s|
      ensures s[i] != s[j]
    {
      if j < |a| {
        assert s[i] == a[i] && s[j] == a[j];
      } else if |a| <= i {
        assert s[i] == b[i - |a|] && s[j] == b[j - |a|];
      } else if j == |a| {
        assert s[i] == a[i] && s[j] == b[0];
        if i < m {
          assert a[i] <= a[m - 1];
        } else {
          assert a[m] <= a[i];
        }
      } else {
        assert a[i] <= a[|a| - 1];
        assert s[i] == a[i] && s[j] == b[j - |a|] >= b[1];
      }
    }
    forall i | 0 <= i < |s|
      ensures s[i] <= b[|b| - 1]
    {
      if i < |a| {
        assert s[i] == a[i] <= a[|a| - 1] < b[1] <= b[|b| - 1];
      } else {
        assert s[i] == b[i - |a|] <= b[|b| - 1];
      }
    }
  }

  /** The two runs of command numbers as the header lists them. */
  lemma LxCommandRuns(a: seq<nat>, b: seq<nat>)
    requires a == LxCommandNumbersLow && b == LxCommandNumbersHigh
    ensures Ascending(a) && Ascending(b) && |a| == 17 && |b| == 16
    ensures a[14] < b[0] < a[15] && a[16] < b[1] && b[15] < 0x100
  {
  }

  /**
    All command numbers are pairwise distinct and fit the 8-bit number field. The header lists
    them in ascending order except for 0x19, which follows 0x1c.
  */
  lemma LxCommandNumbersDistinct()
    ensures forall i, j :: 0 <= i < j < |LxCommandNumbers| ==> LxCommandNumbers[i] != LxCommandNumbers[j]
    ensures forall i :: 0 <= i < |LxCommandNumbers| ==> LxCommandNumbers[i] < 0x100
  {
    LxCommandRuns(LxCommandNumbersLow, LxCommandNumbersHigh);
    TwoRunsDistinct(LxCommandNumbersLow, LxCommandNumbersHigh, 15);
  }

  /** Every `LX_DX*` word carries the magic 0x47, and distinct command numbers give distinct words. */
  lemma LxIoctlsDistinct(nr1: nat, size1: nat, nr2: nat, size2: nat)
    requires nr1 < 0x100 && size1 < 0x4000 && nr2 < 0x100 && size2 < 0x4000
    ensures IocType(LxIoctl(nr1, size1)) == LxMagic
    ensures nr1 != nr2 ==> LxIoctl(nr1, size1) != LxIoctl(nr2, size2)
  {
    IoWRFields(LxMagic, nr1, size1);
    IoWRFields(LxMagic, nr2, size2);
  }
}
