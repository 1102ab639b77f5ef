/**
  The driver's global state (`struct dxgglobal`) and the parts of `dxgmodule.c` that change it:
  the VM-bus interface version negotiation over PCI config space, the registry of offered vGPU
  channels with its single global channel, and the set-up and tear-down of the global channel.
*/
module DxgModule {
  import opened Wrappers
  import opened BitFields
  import opened D3dkmthk
  import opened Dxgkrnl
  import opened Errno

  // ---------------------------------------------------------------------------------------------
  // PCI config space
  // ---------------------------------------------------------------------------------------------

  /** `DXGK_VMBUS_CHANNEL_ID_OFFSET`: the 16-byte instance id of the vGPU channel. */
  const CHANNEL_ID_OFFSET: nat := 192
  /** `DXGK_VMBUS_VERSION_OFFSET`: right after the channel id. */
  const VERSION_OFFSET: nat := CHANNEL_ID_OFFSET + 16
  /** `DXGK_VMBUS_VGPU_LUID_OFFSET`: right after the version word. */
  const VGPU_LUID_OFFSET: nat := VERSION_OFFSET + 4
  /** `DXGK_VMBUS_GUESTCAPS_OFFSET`: the same address as the LUID; the guest writes it. */
  const GUESTCAPS_OFFSET: nat := VERSION_OFFSET + 4
  /** `struct dxgk_vmbus_guestcaps` with only `wsl2 = 1` set: bit 0 of the word. */
  const GUEST_CAPS_WSL2: U32 := 1

  /** The outcome of one `pci_read_config_dword`: its return code and the dword read. */
  datatype PciRead = PciRead(ret: int, value: U32)

  /**
    The host side of the vGPU's config space, as the guest sees it: what a dword read at an
    offset yields, and what a dword write of a value at an offset returns.
  */
  datatype PciDevice = PciDevice(read: nat -> PciRead, write: (nat, U32) -> int)

  /** One config-space access made by the guest, in the order made. */
  datatype PciAccess = ReadAt(offset: nat) | WriteAt(offset: nat, value: U32)

  /** The reads `dxg_pci_read_dwords` makes: n dwords from offset on, 4 bytes apart. */
  function DwordReads(offset: nat, n: nat): (acc: seq<PciAccess>)
    ensures |acc| == n
    ensures forall k :: 0 <= k < n ==> acc[k] == ReadAt(offset + 4 * k)
    decreases n
  {
    if n == 0 then [] else [ReadAt(offset)] + DwordReads(offset + 4, n - 1)
  }

  /** The outcome of reading several dwords: the return code and the dwords stored before it. */
  datatype DwordsRead = DwordsRead(ret: int, values: seq<U32>)
  {
    /** The reads made: one per stored dword, and the failing one if there was a failure. */
    function Accesses(offset: nat): seq<PciAccess>
    {
      DwordReads(offset, |values| + (if ret != 0 then 1 else 0))
    }
  }

  /** Reading n dwords from offset on, stopping at the first failing read. */
  function ReadDwordsSpec(dev: PciDevice, offset: nat, n: nat): (r: DwordsRead)
    ensures |r.values| <= n
    ensures r.ret == 0 ==> |r.values| == n
    decreases n
  {
    if n == 0 then DwordsRead(0, [])
    else
      var r := dev.read(offset);
      if r.ret != 0 then DwordsRead(r.ret, [])
      else
        var rest := ReadDwordsSpec(dev, offset + 4, n - 1);
        DwordsRead(rest.ret, [r.value] + rest.values)
  }

  /**
    What reading n dwords means: it succeeds iff every one of the n reads succeeds; each stored
    dword is the one read at its offset; a failure returns the code of the first failing read,
    which is the read just after the stored dwords.
  */
  lemma ReadDwordsMeaning(dev: PciDevice, offset: nat, n: nat)
    ensures var r := ReadDwordsSpec(dev, offset, n);
      && (r.ret == 0 <==> forall k :: 0 <= k < n ==> dev.read(offset + 4 * k).ret == 0)
      && (r.ret == 0 ==> |r.values| == n)
      && (r.ret != 0 ==> |r.values| < n && dev.read(offset + 4 * |r.values|).ret == r.ret)
      && (forall k :: 0 <= k < |r.values| ==> dev.read(offset + 4 * k) == PciRead(0, r.values[k]))
  {
    ReadDwordsOutcome(dev, offset, n);
    ReadDwordsValues(dev, offset, n);
  }

  /** The return code of reading n dwords: 0 iff every read succeeds, else the first failure's. */
  lemma {:induction false} ReadDwordsOutcome(dev: PciDevice, offset: nat, n: nat)
    ensures var r := ReadDwordsSpec(dev, offset, n);
      && (r.ret == 0 <==> forall k :: 0 <= k < n ==> dev.read(offset + 4 * k).ret == 0)
      && (r.ret != 0 ==> |r.values| < n && dev.read(offset + 4 * |r.values|).ret == r.ret)
    decreases n
  {
    if n > 0 && dev.read(offset).ret == 0 {
      ReadDwordsOutcome(dev, offset + 4, n - 1);
      var rest := ReadDwordsSpec(dev, offset + 4, n - 1);
      if rest.ret == 0 {
        forall k | 0 <= k < n ensures dev.read(offset + 4 * k).ret == 0 {
          if k > 0 {
            assert offset + 4 * k == offset + 4 + 4 * (k - 1);
          }
        }
      } else {
        var k :| 0 <= k < n - 1 && dev.read(offset + 4 + 4 * k).ret != 0;
        assert offset + 4 + 4 * k == offset + 4 * (k + 1);
        assert offset + 4 * (1 + |rest.values|) == offset + 4 + 4 * |rest.values|;
      }
    }
  }

  /** Each dword stored by reading n dwords is the one read at its offset. */
  lemma {:induction false} ReadDwordsValues(dev: PciDevice, offset: nat, n: nat)
    ensures forall k :: 0 <= k < |ReadDwordsSpec(dev, offset, n).values| ==>
      dev.read(offset + 4 * k) == PciRead(0, ReadDwordsSpec(dev, offset, n).values[k])
    decreases n
  {
    if n > 0 && dev.read(offset).ret == 0 {
      ReadDwordsValues(dev, offset + 4, n - 1);
      var rest := ReadDwordsSpec(dev, offset + 4, n - 1);
      var r := ReadDwordsSpec(dev, offset, n);
      assert r.values == [dev.read(offset).value] + rest.values;
      forall k | 0 <= k < |r.values|
        ensures dev.read(offset + 4 * k) == PciRead(0, r.values[k])
      {
        if k == 0 {
          assert offset + 4 * k == offset && r.values[0] == dev.read(offset).value;
          assert dev.read(offset) == PciRead(0, dev.read(offset).value);
        } else {
          assert r.values[k] == rest.values[k - 1];
          assert dev.read(offset + 4 + 4 * (k - 1)) == PciRead(0, rest.values[k - 1]);
          assert offset + 4 * k == offset + 4 + 4 * (k - 1);
        }
      }
    }
  }

  // ---------------------------------------------------------------------------------------------
  // The global state
  // ---------------------------------------------------------------------------------------------

  /** How the VM bus classifies a device, by comparing its `dev_type` with the driver's id table. */
  datatype DeviceClass = VgpuClass | GlobalClass | UnknownClass

  /** A VM-bus device: its identity, its class and its channel's offered instance id. */
  datatype HvDevice = HvDevice(id: nat, devType: DeviceClass, instance: seq<Byte>)
  {
    predicate Valid() { |instance| == 16 }
  }

  /** `struct dxgvgpuchannel`: an offered vGPU channel and the LUID of its adapter. */
  datatype VgpuChannel = VgpuChannel(adapterLuid: WinLuid, hdev: HvDevice)

  /** The effects of the calls `dxgglobal_init_global_channel` makes, as their return codes. */
  datatype ChannelInitOutcome = ChannelInitOutcome(
    channelInit: int,    // dxgvmbuschannel_init
    mmioMegabytes: nat,  // the mmio size the host offers with the channel
    allocMmio: int,      // vmbus_allocate_mmio
    setIospace: int,     // dxgvmb_send_set_iospace_region
    miscRegister: int    // misc_register
  )

  /** The outcome of `dxg_pci_probe_device`: its return code, the version and the accesses made. */
  datatype ProbeResult = ProbeResult(ret: int, ver: U32, accesses: seq<PciAccess>)

  /** The channel-id and LUID reads, starting at `read_channel_id` with the version ver set. */
  function ProbeChannel(dev: PciDevice, ver: U32, acc: seq<PciAccess>): (r: ProbeResult)
    ensures r.ver == ver
    ensures |acc| <= |r.accesses| && r.accesses[..|acc|] == acc
  {
    var ch := ReadDwordsSpec(dev, CHANNEL_ID_OFFSET, 4);
    var acc1 := acc + ch.Accesses(CHANNEL_ID_OFFSET);
    if ch.ret != 0 then ProbeResult(ch.ret, ver, acc1)
    else if ver >= DXGK_VMBUS_INTERFACE_VERSION then
      var lu := ReadDwordsSpec(dev, VGPU_LUID_OFFSET, 2);
      ProbeResult(lu.ret, ver, acc1 + lu.Accesses(VGPU_LUID_OFFSET))
    else ProbeResult(0, ver, acc1)
  }

  /** `dxg_pci_probe_device` started with `vmbus_ver == ver0`. */
  function Probe(dev: PciDevice, ver0: U32): (r: ProbeResult)
    ensures ver0 != 0 ==> r.ver == ver0
    ensures r.ret == 0 ==> r.ver != 0
  {
    if ver0 != 0 then ProbeChannel(dev, ver0, [])
    else
      var capsRet := dev.write(GUESTCAPS_OFFSET, GUEST_CAPS_WSL2);
      var acc0 := [WriteAt(GUESTCAPS_OFFSET, GUEST_CAPS_WSL2)];
      if capsRet != 0 then ProbeResult(capsRet, 0, acc0)
      else
        var host := dev.read(VERSION_OFFSET);
        var acc1 := acc0 + [ReadAt(VERSION_OFFSET)];
        var ver: U32 := if host.ret == 0 && host.value != 0 then host.value
          else DXGK_VMBUS_INTERFACE_VERSION_OLD;
        if ver < DXGK_VMBUS_INTERFACE_VERSION then ProbeChannel(dev, ver, acc1)
        else
          var wr := dev.write(VERSION_OFFSET, DXGK_VMBUS_INTERFACE_VERSION);
          var acc2 := acc1 + [WriteAt(VERSION_OFFSET, DXGK_VMBUS_INTERFACE_VERSION)];
          if wr != 0 then ProbeResult(wr, ver, acc2)
          else ProbeChannel(dev, DXGK_VMBUS_INTERFACE_VERSION, acc2)
  }

  /** The channel-id stage keeps the version and only reads. */
  lemma ProbeChannelReadsOnly(dev: PciDevice, ver: U32, acc: seq<PciAccess>)
    ensures var r := ProbeChannel(dev, ver, acc);
      r.ver == ver && acc <= r.accesses
      && forall k :: |acc| <= k < |r.accesses| ==> r.accesses[k].ReadAt?
  {
    var ch := ReadDwordsSpec(dev, CHANNEL_ID_OFFSET, 4);
    var acc1 := acc + ch.Accesses(CHANNEL_ID_OFFSET);
    var lu := ReadDwordsSpec(dev, VGPU_LUID_OFFSET, 2);
    assert acc1 <= acc1 + lu.Accesses(VGPU_LUID_OFFSET);
  }

  /** The LUID is read iff the channel id was read in full and the version is at least 40. */
  lemma {:induction false} ProbeChannelLuidRead(dev: PciDevice, ver: U32, acc: seq<PciAccess>)
    requires forall k :: 0 <= k < |acc| ==> acc[k] != ReadAt(VGPU_LUID_OFFSET)
    ensures var r := ProbeChannel(dev, ver, acc);
      ReadAt(VGPU_LUID_OFFSET) in r.accesses <==>
        ReadDwordsSpec(dev, CHANNEL_ID_OFFSET, 4).ret == 0 && ver >= DXGK_VMBUS_INTERFACE_VERSION
  {
    var ch := ReadDwordsSpec(dev, CHANNEL_ID_OFFSET, 4);
    var chAcc := ch.Accesses(CHANNEL_ID_OFFSET);
    var acc1 := acc + chAcc;
    assert forall k :: 0 <= k < |chAcc| ==> chAcc[k] == ReadAt(CHANNEL_ID_OFFSET + 4 * k);
    assert forall k :: 0 <= k < |acc1| ==> acc1[k] != ReadAt(VGPU_LUID_OFFSET) by {
      forall k | 0 <= k < |acc1| ensures acc1[k] != ReadAt(VGPU_LUID_OFFSET) {
        if k >= |acc| {
          ReadDwordsMeaning(dev, CHANNEL_ID_OFFSET, 4);
          assert acc1[k] == chAcc[k - |acc|];
        }
      }
    }
    if ch.ret == 0 && ver >= DXGK_VMBUS_INTERFACE_VERSION {
      var lu := ReadDwordsSpec(dev, VGPU_LUID_OFFSET, 2);
      var luAcc := lu.Accesses(VGPU_LUID_OFFSET);
      var n := |lu.values| + (if lu.ret != 0 then 1 else 0);
      assert n >= 1 by {
        ReadDwordsMeaning(dev, VGPU_LUID_OFFSET, 2);
        if lu.ret == 0 {
          assert dev.read(VGPU_LUID_OFFSET + 4 * 0).ret == 0;
        }
      }
      assert luAcc[0] == ReadAt(VGPU_LUID_OFFSET);
      assert (acc1 + luAcc)[|acc1|] == ReadAt(VGPU_LUID_OFFSET);
    }
  }

  /** Negotiation runs only while `vmbus_ver` is 0: otherwise the version stays and nothing is written. */
  lemma NoNegotiationOnceSet(dev: PciDevice, ver0: U32)
    requires ver0 != 0
    ensures var r := Probe(dev, ver0);
      r.ver == ver0 && forall k :: 0 <= k < |r.accesses| ==> r.accesses[k].ReadAt?
  {
    ProbeChannelReadsOnly(dev, ver0, []);
  }

  /** A failed guest-caps write returns its error with the version still 0 and nothing else done. */
  lemma CapsWriteFailure(dev: PciDevice)
    requires dev.write(GUESTCAPS_OFFSET, GUEST_CAPS_WSL2) != 0
    ensures Probe(dev, 0) == ProbeResult(dev.write(GUESTCAPS_OFFSET, GUEST_CAPS_WSL2), 0,
      [WriteAt(GUESTCAPS_OFFSET, GUEST_CAPS_WSL2)])
  {
  }

  /** A failed or zero host version read falls back to the old interface version, 27, and 40 is not written. */
  lemma OldVersionFallback(dev: PciDevice)
    requires dev.write(GUESTCAPS_OFFSET, GUEST_CAPS_WSL2) == 0
    requires dev.read(VERSION_OFFSET).ret != 0 || dev.read(VERSION_OFFSET).value == 0
    ensures var r := Probe(dev, 0);
      r.ver == DXGK_VMBUS_INTERFACE_VERSION_OLD
      && WriteAt(VERSION_OFFSET, DXGK_VMBUS_INTERFACE_VERSION) !in r.accesses
  {
    var acc1 := [WriteAt(GUESTCAPS_OFFSET, GUEST_CAPS_WSL2), ReadAt(VERSION_OFFSET)];
    ProbeChannelReadsOnly(dev, DXGK_VMBUS_INTERFACE_VERSION_OLD, acc1);
  }

  /**
    A nonzero host version whose write-back, if needed, succeeds ends as the smaller of the host's
    version and 40. Version 40 is written back iff the host offers at least 40.
  */
  lemma {:induction false} NegotiatedVersion(dev: PciDevice)
    requires dev.write(GUESTCAPS_OFFSET, GUEST_CAPS_WSL2) == 0
    requires dev.read(VERSION_OFFSET).ret == 0 && dev.read(VERSION_OFFSET).value != 0
    ensures var host := dev.read(VERSION_OFFSET).value;
      var r := Probe(dev, 0);
      && (WriteAt(VERSION_OFFSET, DXGK_VMBUS_INTERFACE_VERSION) in r.accesses
          <==> host >= DXGK_VMBUS_INTERFACE_VERSION)
      && (host < DXGK_VMBUS_INTERFACE_VERSION
          || dev.write(VERSION_OFFSET, DXGK_VMBUS_INTERFACE_VERSION) == 0 ==>
          r.ver == if host < DXGK_VMBUS_INTERFACE_VERSION then host else DXGK_VMBUS_INTERFACE_VERSION)
  {
    var host := dev.read(VERSION_OFFSET).value;
    var acc1 := [WriteAt(GUESTCAPS_OFFSET, GUEST_CAPS_WSL2), ReadAt(VERSION_OFFSET)];
    if host < DXGK_VMBUS_INTERFACE_VERSION {
      ProbeChannelReadsOnly(dev, host, acc1);
      var r := ProbeChannel(dev, host, acc1);
      forall k | 0 <= k < |r.accesses|
        ensures r.accesses[k] != WriteAt(VERSION_OFFSET, DXGK_VMBUS_INTERFACE_VERSION)
      {
        if k < |acc1| {
          assert r.accesses[k] == acc1[k];
        }
      }
    } else {
      var acc2 := acc1 + [WriteAt(VERSION_OFFSET, DXGK_VMBUS_INTERFACE_VERSION)];
      if dev.write(VERSION_OFFSET, DXGK_VMBUS_INTERFACE_VERSION) == 0 {
        ProbeChannelReadsOnly(dev, DXGK_VMBUS_INTERFACE_VERSION, acc2);
        var r := ProbeChannel(dev, DXGK_VMBUS_INTERFACE_VERSION, acc2);
        assert r.accesses[2] == acc2[2];
      } else {
        assert acc2[2] == WriteAt(VERSION_OFFSET, DXGK_VMBUS_INTERFACE_VERSION);
      }
    }
  }

  /** The vGPU LUID is read only after the channel id was read in full, with a version of at least 40. */
  lemma LuidReadOnlyFromVersion40(dev: PciDevice, ver0: U32)
    ensures var r := Probe(dev, ver0);
      ReadAt(VGPU_LUID_OFFSET) in r.accesses ==>
        r.ver >= DXGK_VMBUS_INTERFACE_VERSION && ReadDwordsSpec(dev, CHANNEL_ID_OFFSET, 4).ret == 0
  {
    var r := Probe(dev, ver0);
    if ver0 != 0 {
      ProbeChannelLuidRead(dev, ver0, []);
      ProbeChannelReadsOnly(dev, ver0, []);
    } else if dev.write(GUESTCAPS_OFFSET, GUEST_CAPS_WSL2) == 0 {
      var host := dev.read(VERSION_OFFSET);
      var acc1 := [WriteAt(GUESTCAPS_OFFSET, GUEST_CAPS_WSL2), ReadAt(VERSION_OFFSET)];
      var ver: U32 := if host.ret == 0 && host.value != 0 then host.value
        else DXGK_VMBUS_INTERFACE_VERSION_OLD;
      if ver < DXGK_VMBUS_INTERFACE_VERSION {
        ProbeChannelLuidRead(dev, ver, acc1);
        ProbeChannelReadsOnly(dev, ver, acc1);
      } else if dev.write(VERSION_OFFSET, DXGK_VMBUS_INTERFACE_VERSION) == 0 {
        var acc2 := acc1 + [WriteAt(VERSION_OFFSET, DXGK_VMBUS_INTERFACE_VERSION)];
        ProbeChannelLuidRead(dev, DXGK_VMBUS_INTERFACE_VERSION, acc2);
        ProbeChannelReadsOnly(dev, DXGK_VMBUS_INTERFACE_VERSION, acc2);
      }
    }
  }

  /** The first vGPU channel entry of hdev removed; the list unchanged if there is none. */
  function RemoveChannel(chs: seq<VgpuChannel>, hdev: HvDevice): (r: seq<VgpuChannel>)
    ensures |r| <= |chs| <= |r| + 1
    ensures forall i :: 0 <= i < |r| ==> r[i] in chs
  {
    if chs == [] then []
    else if chs[0].hdev == hdev then chs[1..]
    else [chs[0]] + RemoveChannel(chs[1..], hdev)
  }

  /** Only the first entry of hdev is removed: those before it stay, in order, and so do those after it. */
  lemma {:induction false} RemoveChannelFirstOnly(chs: seq<VgpuChannel>, hdev: HvDevice, k: nat)
    requires k < |chs| && chs[k].hdev == hdev
    requires forall j :: 0 <= j < k ==> chs[j].hdev != hdev
    ensures RemoveChannel(chs, hdev) == chs[..k] + chs[k + 1..]
  {
    if k > 0 {
      RemoveChannelFirstOnly(chs[1..], hdev, k - 1);
      assert chs[1..][..k - 1] == chs[1..k];
      assert chs[1..][k..] == chs[k + 1..];
      assert chs[..k] == [chs[0]] + chs[1..k];
    }
  }

  /** Without an entry of hdev the list is unchanged. */
  lemma {:induction false} RemoveChannelAbsent(chs: seq<VgpuChannel>, hdev: HvDevice)
    requires forall j :: 0 <= j < |chs| ==> chs[j].hdev != hdev
    ensures RemoveChannel(chs, hdev) == chs
  {
    if chs != [] {
      RemoveChannelAbsent(chs[1..], hdev);
    }
  }

  /** `struct dxgglobal`, with the fields the modelled operations use. */
  class DxgGlobal {
    /** `vmbus_ver`: the negotiated interface version; 0 until negotiated. */
    var vmbusVer: U32
    /** `hdev`: the global channel's device, once probed. */
    var hdev: Option<HvDevice>
    /** `vgpu_ch_list_head`: the offered vGPU channels, in the order offered. */
    var vgpuChannels: seq<VgpuChannel>
    /** `channel.channel != NULL`: the global channel is open. */
    var channelOpen: bool
    /** `mem != NULL`: the mmio space is allocated. */
    var memAllocated: bool
    /** `dxg_dev_initialized`: /dev/dxg is registered. */
    var dxgDevInitialized: bool
    /** `global_channel_initialized`. */
    var globalChannelInitialized: bool

    /** `dxgglobal_create`: all fields zero, the lists empty. */
    constructor ()
      ensures vmbusVer == 0 && hdev == None && vgpuChannels == []
      ensures !channelOpen && !memAllocated && !dxgDevInitialized && !globalChannelInitialized
    {
      vmbusVer := 0;
      hdev := None;
      vgpuChannels := [];
      channelOpen := false;
      memAllocated := false;
      dxgDevInitialized := false;
      globalChannelInitialized := false;
    }

    /** `dxgglobal_acquire_channel_lock`: 0 iff the global channel is open, -ENODEV otherwise. */
    function AcquireChannelLock(): (ret: int)
      reads this
      ensures ret == 0 <==> channelOpen
      ensures ret != 0 ==> ret == -ENODEV
    {
      if channelOpen then 0 else -ENODEV
    }

    /** `dxg_pci_read_dwords`: size/4 dwords read from offset on, 4 bytes apart, stopping at a failure. */
    static method ReadDwords(dev: PciDevice, offset: nat, size: nat)
      returns (ret: int, values: seq<U32>, accesses: seq<PciAccess>)
      ensures DwordsRead(ret, values) == ReadDwordsSpec(dev, offset, size / 4)
      ensures accesses == DwordsRead(ret, values).Accesses(offset)
    {
      var n := size / 4;
      var off := offset;
      var i := 0;
      values := [];
      while i < n
        invariant 0 <= i <= n && off == offset + 4 * i && |values| == i
        invariant forall k :: 0 <= k < i ==> dev.read(offset + 4 * k) == PciRead(0, values[k])
        invariant var rest := ReadDwordsSpec(dev, off, n - i);
          ReadDwordsSpec(dev, offset, n) == DwordsRead(rest.ret, values + rest.values)
      {
        var r := dev.read(off);
        if r.ret != 0 {
          ret := r.ret;
          accesses := DwordReads(offset, i + 1);
          return;
        }
        values := values + [r.value];
        off := off + 4;
        i := i + 1;
      }
      ret := 0;
      accesses := DwordReads(offset, n);
    }

    /** `dxg_pci_probe_device`: negotiates the version while it is 0, then reads the channel id and LUID. */
    method ProbeDevice(dev: PciDevice) returns (ret: int, accesses: seq<PciAccess>)
      modifies this`vmbusVer
      ensures ProbeResult(ret, vmbusVer, accesses) == Probe(dev, old(vmbusVer))
    {
      accesses := [];
      if vmbusVer == 0 {
        ret := dev.write(GUESTCAPS_OFFSET, GUEST_CAPS_WSL2);
        accesses := [WriteAt(GUESTCAPS_OFFSET, GUEST_CAPS_WSL2)];
        if ret != 0 {
          return;
        }
        var host := dev.read(VERSION_OFFSET);
        accesses := accesses + [ReadAt(VERSION_OFFSET)];
        if host.ret == 0 && host.value != 0 {
          vmbusVer := host.value;
        } else {
          vmbusVer := DXGK_VMBUS_INTERFACE_VERSION_OLD;
        }
        if vmbusVer >= DXGK_VMBUS_INTERFACE_VERSION {
          ret := dev.write(VERSION_OFFSET, DXGK_VMBUS_INTERFACE_VERSION);
          accesses := accesses + [WriteAt(VERSION_OFFSET, DXGK_VMBUS_INTERFACE_VERSION)];
          if ret != 0 {
            return;
          }
          if vmbusVer > DXGK_VMBUS_INTERFACE_VERSION {
            vmbusVer := DXGK_VMBUS_INTERFACE_VERSION;
          }
        }
      }
      // read_channel_id:
      var guid, acc;
      ret, guid, acc := ReadDwords(dev, CHANNEL_ID_OFFSET, 16);
      accesses := accesses + acc;
      if ret != 0 {
        return;
      }
      if vmbusVer >= DXGK_VMBUS_INTERFACE_VERSION {
        var luid;
        ret, luid, acc := ReadDwords(dev, VGPU_LUID_OFFSET, 8);
        accesses := accesses + acc;
      }
    }

    /**
      `dxg_probe_vmbus`: a vGPU device adds a channel entry with the LUID of its instance id
      (-ENOMEM when the entry cannot be allocated); the global device is taken once; any other
      device, or a second global device, gives -EBADE.
    */
    method ProbeVmbus(dev: HvDevice, allocOk: bool) returns (ret: int)
      requires dev.Valid()
      modifies this`vgpuChannels, this`hdev
      ensures dev.devType == VgpuClass ==>
        && ret == (if allocOk then 0 else -ENOMEM)
        && hdev == old(hdev)
        && vgpuChannels == old(vgpuChannels)
             + (if allocOk then [VgpuChannel(GuidToLuid(dev.instance), dev)] else [])
      ensures dev.devType == GlobalClass ==>
        && vgpuChannels == old(vgpuChannels)
        && (old(hdev).None? ==> ret == 0 && hdev == Some(dev))
        && (old(hdev).Some? ==> ret == -EBADE && hdev == old(hdev))
      ensures dev.devType == UnknownClass ==>
        ret == -EBADE && hdev == old(hdev) && vgpuChannels == old(vgpuChannels)
    {
      ret := 0;
      match dev.devType {
        case VgpuClass =>
          var luid := GuidToLuid(dev.instance);
          if !allocOk {
            ret := -ENOMEM;
            return;
          }
          vgpuChannels := vgpuChannels + [VgpuChannel(luid, dev)];
        case GlobalClass =>
          if hdev.Some? {
            ret := -EBADE;
            return;
          }
          hdev := Some(dev);
        case UnknownClass =>
          ret := -EBADE;
      }
    }

    /**
      `dxgglobal_destroy_global_channel`: deregisters /dev/dxg, frees the mmio space, closes the
      channel and forgets the device. The resulting state does not depend on the state before,
      so a second call changes nothing.
    */
    method DestroyGlobalChannel()
      modifies this
      ensures !globalChannelInitialized && !dxgDevInitialized && !memAllocated && !channelOpen
      ensures hdev == None
      ensures vmbusVer == old(vmbusVer) && vgpuChannels == old(vgpuChannels)
    {
      globalChannelInitialized := false;
      if dxgDevInitialized {
        dxgDevInitialized := false;
      }
      if memAllocated {
        memAllocated := false;
      }
      if channelOpen {
        channelOpen := false;
      }
      if hdev.Some? {
        hdev := None;
      }
    }

    /**
      `dxg_remove_vmbus`: a vGPU device's first channel entry is removed; the global device
      destroys the global channel; any other device gives -EBADE.
    */
    method RemoveVmbus(dev: HvDevice) returns (ret: int)
      modifies this
      ensures dev.devType == VgpuClass ==>
        ret == 0 && vgpuChannels == RemoveChannel(old(vgpuChannels), dev)
        && hdev == old(hdev) && vmbusVer == old(vmbusVer) && channelOpen == old(channelOpen)
        && globalChannelInitialized == old(globalChannelInitialized)
        && dxgDevInitialized == old(dxgDevInitialized) && memAllocated == old(memAllocated)
      ensures dev.devType == GlobalClass ==>
        ret == 0 && hdev == None && !channelOpen && !globalChannelInitialized
        && !dxgDevInitialized && !memAllocated && vgpuChannels == old(vgpuChannels)
        && vmbusVer == old(vmbusVer)
      ensures dev.devType == UnknownClass ==> ret == -EBADE && unchanged(this)
    {
      ret := 0;
      match dev.devType {
        case VgpuClass =>
          var i := 0;
          while i < |vgpuChannels|
            invariant 0 <= i <= |vgpuChannels|
            invariant forall j :: 0 <= j < i ==> vgpuChannels[j].hdev != dev
          {
            if vgpuChannels[i].hdev == dev {
              RemoveChannelFirstOnly(vgpuChannels, dev, i);
              vgpuChannels := vgpuChannels[..i] + vgpuChannels[i + 1..];
              return;
            }
            i := i + 1;
          }
          RemoveChannelAbsent(vgpuChannels, dev);
        case GlobalClass =>
          DestroyGlobalChannel();
        case UnknownClass =>
          ret := -EBADE;
      }
    }

    /**
      `dxgglobal_init_global_channel`: opens the channel, allocates the offered mmio space
      (-ENOMEM when none is offered), tells the host about it and registers /dev/dxg, stopping
      at the first failure with its code.
    */
    method InitGlobalChannel(o: ChannelInitOutcome) returns (ret: int)
      requires hdev.Some?
      modifies this`channelOpen, this`memAllocated, this`dxgDevInitialized
      ensures ret == 0 <==>
        o.channelInit == 0 && o.mmioMegabytes != 0 && o.allocMmio == 0 && o.setIospace >= 0
        && o.miscRegister == 0
      ensures ret != 0 ==>
        ret == (if o.channelInit != 0 then o.channelInit
          else if o.mmioMegabytes == 0 then -ENOMEM
          else if o.allocMmio != 0 then o.allocMmio
          else if o.setIospace < 0 then o.setIospace
          else o.miscRegister)
      ensures channelOpen == (old(channelOpen) || o.channelInit == 0)
      ensures memAllocated ==
        (old(memAllocated) || (o.channelInit == 0 && o.mmioMegabytes != 0 && o.allocMmio == 0))
      ensures dxgDevInitialized == (old(dxgDevInitialized) || ret == 0)
    {
      ret := o.channelInit;
      if ret != 0 {
        return;
      }
      channelOpen := true;
      // dxgglobal_getiospace
      if o.mmioMegabytes == 0 {
        ret := -ENOMEM;
        return;
      }
      ret := o.allocMmio;
      if ret != 0 {
        return;
      }
      memAllocated := true;
      ret := o.setIospace;
      if ret < 0 {
        return;
      }
      ret := o.miscRegister;
      if ret != 0 {
        return;
      }
      dxgDevInitialized := true;
    }
  }
}
