/**
  The guest-side object graph of the driver (`dxgadapter.c`): adapters, the binding of a process
  to an adapter (`struct dxgprocess_adapter`), and the devices, resources, allocations and
  contexts a process creates on an adapter.

  Each kernel object whose fields the driver updates in place is a class. An intrusive list the
  driver threads through its members is a `seq` field on the list head; `entry.next != NULL`
  (the test the remove helpers make) is a `linked` flag on the member. Reference counts are
  plain integers; `kfree` is not modelled.

  The handle table and the host are outside this file: a process records, in order, every
  handle the graph frees from its table (`freed`) and every message the graph sends to the host
  on its behalf (`sent`); an adapter records the messages it sends for itself. The results of
  the host calls an operation makes (channel set-up, open adapter, ...) are its parameters.
  Locks are state checks; there is no concurrency.
*/
module DxgAdapter {
  import opened Wrappers
  import opened BitFields
  import opened D3dkmthk
  import opened Dxgkrnl
  import opened Errno
  import opened Lists
  import Hmgr
  import DxgModule

  /** `enum dxgobjectstate` as far as the graph uses it. */
  datatype ObjectState = ObjectCreated | ObjectActive | ObjectDestroyed

  /** `enum dxgadapter_state`. */
  datatype AdapterState = AdapterActive | AdapterStopped | AdapterWaitingVmbus

  /** A handle removed from a process's handle table, with the type it was registered under. */
  datatype FreedHandle = FreedHandle(kind: Hmgr.HmgrEntryType, handle: U32)

  /** The host messages the graph sends (`dxgvmb_send_*`), with the handles they carry. */
  datatype HostMessage =
    | DestroyAllocationMsg(device: U32, resource: U32, alloc: U32)
    | DestroyDeviceMsg(device: U32)
    | FlushDeviceMsg(device: U32)
    | CloseAdapterMsg

  /**
    The owner union of an allocation: the device or the resource whose list it was added to.
    Which member is meant is told apart by the allocation's `resourceOwner` flag.
  */
  datatype Owner = NoOwner | OwnedByDevice(device: Device) | OwnedByResource(resource: Resource)

  /** The part of `struct dxgprocess` the graph touches. */
  class Process {
    const tgid: nat
    /** process_adapter_list_head */
    var adapterList: seq<ProcessAdapter>
    /** The handles freed from the process's handle table, in order. */
    var freed: seq<FreedHandle>
    /** The messages sent to the host on behalf of the process, in order. */
    var sent: seq<HostMessage>

    constructor (tgid: nat)
      ensures this.tgid == tgid && adapterList == [] && freed == [] && sent == []
    {
      this.tgid := tgid;
      adapterList := [];
      freed := [];
      sent := [];
    }
  }

  /** `struct dxgadapter`. */
  class Adapter {
    var luid: WinLuid
    var state: AdapterState
    var stoppingAdapter: bool
    var kref: int
    /** adapter_process_list_head: the bindings of processes to this adapter. */
    var processList: seq<ProcessAdapter>
    /** Whether the adapter's vm bus channel is open (`channel.channel != NULL`). */
    var channelOpen: bool
    var hvDev: Option<DxgModule.HvDevice>
    /** The messages the adapter sends to the host for itself, in order. */
    var sent: seq<HostMessage>

    /** A freshly created adapter waits for its vm bus channel; its creator holds one reference. */
    constructor (luid: WinLuid)
      ensures this.luid == luid && state == AdapterWaitingVmbus && !stoppingAdapter && kref == 1
      ensures processList == [] && !channelOpen && hvDev == None && sent == []
    {
      this.luid := luid;
      state := AdapterWaitingVmbus;
      stoppingAdapter := false;
      kref := 1;
      processList := [];
      channelOpen := false;
      hvDev := None;
      sent := [];
    }

    predicate IsActive()
      reads this`state
    {
      state == AdapterActive
    }

    /** `dxgadapter_acquire_lock_exclusive`: 0 with the lock held, or -ENODEV with it released. */
    function AcquireLockExclusive(): (r: int)
      reads this
      ensures r == 0 <==> IsActive()
      ensures r != 0 ==> r == -ENODEV
    {
      if state != AdapterActive then -ENODEV else 0
    }

    /** `dxgadapter_acquire_lock_shared`: the same test under the shared lock. */
    function AcquireLockShared(): (r: int)
      reads this
      ensures r == 0 <==> IsActive()
      ensures r != 0 ==> r == -ENODEV
    {
      if state == AdapterActive then 0 else -ENODEV
    }

    /**
      `dxgadapter_set_vmbus`: takes the LUID from the channel's offered instance id, opens the
      adapter's vm bus channel, then opens the adapter on the host and reads its information,
      stopping at the first failure. Its result is `VmbusResult(o)`.
    */
    method SetVmbus(hdev: DxgModule.HvDevice, o: VmbusOutcome) returns (ret: int)
      requires hdev.Valid()
      modifies this`luid, this`channelOpen, this`hvDev
      ensures luid == GuidToLuid(hdev.instance) && ret == VmbusResult(o)
      ensures channelOpen == (old(channelOpen) || o.channelInit == 0)
      ensures hvDev == if o.channelInit == 0 then Some(hdev) else old(hvDev)
    {
      luid := GuidToLuid(hdev.instance);
      ret := o.channelInit;
      if ret != 0 {
        return;
      }
      channelOpen := true;
      hvDev := Some(hdev);
      ret := o.openAdapter;
      if ret < 0 {
        return;
      }
      ret := o.adapterInfo;
    }

    /**
      `dxgadapter_start`: with no offered vGPU channel of the adapter's LUID nothing happens.
      Otherwise the global channel is set up if no adapter has done it yet (a failure there
      tears it down again and leaves the adapter as it was; once it is set up, a start leaves
      it alone), and the vm bus channel of the adapter is set up: the adapter becomes active,
      or stopped if that fails, keeping the channel and device set_vmbus reached.
    */
    method Start(g: DxgModule.DxgGlobal, go: DxgModule.ChannelInitOutcome, o: VmbusOutcome)
      requires !g.globalChannelInitialized ==> g.hdev.Some?
      requires forall j | 0 <= j < |g.vgpuChannels| :: g.vgpuChannels[j].hdev.Valid()
      modifies this`luid, this`channelOpen, this`hvDev, this`state, g
      ensures g.vgpuChannels == old(g.vgpuChannels) && g.vmbusVer == old(g.vmbusVer)
      ensures ChannelIndex(old(g.vgpuChannels), old(luid)).None? ==> unchanged(this, g)
      ensures ChannelIndex(old(g.vgpuChannels), old(luid)).Some? && old(g.globalChannelInitialized) ==>
        unchanged(g)
      ensures ChannelIndex(old(g.vgpuChannels), old(luid)).Some? && !old(g.globalChannelInitialized) ==>
        if GlobalChannelStarts(go) then
          g.globalChannelInitialized && g.channelOpen && g.memAllocated && g.dxgDevInitialized
          && g.hdev == old(g.hdev)
        else
          unchanged(this) && !g.globalChannelInitialized && g.hdev == None && !g.channelOpen
          && !g.memAllocated && !g.dxgDevInitialized
      ensures ChannelIndex(old(g.vgpuChannels), old(luid)).Some?
              && (old(g.globalChannelInitialized) || GlobalChannelStarts(go)) ==>
        var ch := old(g.vgpuChannels)[ChannelIndex(old(g.vgpuChannels), old(luid)).value];
        ch.hdev.Valid() && luid == GuidToLuid(ch.hdev.instance)
        && state == (if VmbusResult(o) == 0 then AdapterActive else AdapterStopped)
        && channelOpen == (old(channelOpen) || o.channelInit == 0)
        && hvDev == (if o.channelInit == 0 then Some(ch.hdev) else old(hvDev))
    {
      var i := 0;
      while i < |g.vgpuChannels|
        invariant 0 <= i <= |g.vgpuChannels|
        invariant forall j | 0 <= j < i :: g.vgpuChannels[j].adapterLuid != luid
      {
        if g.vgpuChannels[i].adapterLuid == luid {
          break;
        }
        i := i + 1;
      }
      if i == |g.vgpuChannels| {
        return;
      }
      ChannelIndexFirst(g.vgpuChannels, luid, i);
      var ch := g.vgpuChannels[i];
      var ready := StartGlobalChannel(g, go);
      if !ready {
        return;
      }
      var ret := SetVmbus(ch.hdev, o);
      if ret != 0 {
        state := AdapterStopped;
        return;
      }
      state := AdapterActive;
    }

    /**
      `dxgadapter_stop`: runs once; later calls change nothing. The devices of every process
      bound to the adapter are stopped (none is destroyed), the adapter is closed on the host
      while it is active, its channel is closed and it becomes stopped.
    */
    method Stop()
      modifies this`stoppingAdapter, this`sent, this`channelOpen, this`state
      modifies (set b, d, a | b in processList && d in b.deviceList && a in d.allocList :: a)`pages
      ensures stoppingAdapter
      ensures old(stoppingAdapter) ==>
        unchanged(this)
        && forall b, d, a | b in processList && d in b.deviceList && a in d.allocList :: a.pages == old(a.pages)
      ensures !old(stoppingAdapter) ==>
        state == AdapterStopped && !channelOpen
        && sent == old(sent) + (if old(IsActive()) then [CloseAdapterMsg] else [])
        && forall b, d, a | b in processList && d in b.deviceList && a in d.allocList :: !a.pages
    {
      if stoppingAdapter {
        return;
      }
      stoppingAdapter := true;
      var i := 0;
      while i < |processList|
        invariant 0 <= i <= |processList| && stoppingAdapter && sent == old(sent) && state == old(state)
        invariant forall j, d, a | 0 <= j < i && d in processList[j].deviceList && a in d.allocList :: !a.pages
      {
        processList[i].Stop();
        i := i + 1;
      }
      forall b, d, a | b in processList && d in b.deviceList && a in d.allocList
        ensures !a.pages
      {
        var j :| 0 <= j < |processList| && processList[j] == b;
      }
      if AcquireLockExclusive() == 0 {
        sent := sent + [CloseAdapterMsg];
      }
      channelOpen := false;
      state := AdapterStopped;
    }
  }

  /** `struct dxgallocation`. */
  class Allocation {
    const process: Process
    /** Whether the allocation holds pinned pages (`pages != NULL`). */
    var pages: bool
    var handleValid: bool
    var allocHandle: U32
    var resourceOwner: bool
    var owner: Owner
    /** alloc_list_entry.next != NULL */
    var linked: bool

    /** The zeroed allocation of `dxgallocation_create`. */
    constructor (process: Process)
      ensures this.process == process && !pages && !handleValid && allocHandle == 0
      ensures !resourceOwner && owner == NoOwner && !linked
    {
      this.process := process;
      pages := false;
      handleValid := false;
      allocHandle := 0;
      resourceOwner := false;
      owner := NoOwner;
      linked := false;
    }

    /** `dxgallocation_create`: a zeroed allocation of the process, or null. */
    static method Create(process: Process, allocOk: bool) returns (a: Allocation?)
      ensures allocOk <==> a != null
      ensures a != null ==>
        fresh(a) && a.process == process && !a.pages && !a.handleValid && a.allocHandle == 0
        && !a.resourceOwner && a.owner == NoOwner && !a.linked
    {
      if allocOk {
        a := new Allocation(process);
      } else {
        a := null;
      }
    }

    /** The device owning this allocation, as a set of at most one. */
    function OwnerDevices(): set<Device>
      reads this`resourceOwner, this`owner
    {
      if !resourceOwner && owner.OwnedByDevice? then {owner.device} else {}
    }

    /** The resource owning this allocation, as a set of at most one. */
    function OwnerResources(): set<Resource>
      reads this`resourceOwner, this`owner
    {
      if resourceOwner && owner.OwnedByResource? then {owner.resource} else {}
    }

    /**
      What `dxgallocation_destroy` relies on: the owner flag matches the owner union, a linked
      allocation sits in its owner's list, and a host handle to destroy comes with a device.
    */
    predicate Consistent()
      reads this`resourceOwner, this`owner, this`linked, this`allocHandle
      reads OwnerDevices()`allocList, OwnerResources()`allocList
    {
      (resourceOwner ==> !owner.OwnedByDevice?)
      && (!resourceOwner ==> !owner.OwnedByResource?)
      && (linked ==>
            match owner
            case NoOwner => false
            case OwnedByDevice(d) => this in d.allocList
            case OwnedByResource(r) => this in r.allocList)
      && (!resourceOwner && allocHandle != 0 ==> owner.OwnedByDevice?)
    }

    /** The state `dxgallocation_destroy` leaves: no pages, unlinked, handle freed. */
    predicate Released()
      reads this`pages, this`linked, this`handleValid
    {
      !pages && !linked && !handleValid
    }

    /** `dxgallocation_stop`: the pages are released. */
    method Stop()
      modifies this`pages
      ensures !pages
    {
      if pages {
        pages := false;
      }
    }

    /** The handle-table entry `dxgallocation_free_handle` removes, if any. */
    function HandleToFree(): seq<FreedHandle>
      reads this`handleValid, this`allocHandle
    {
      if handleValid then [FreedHandle(Hmgr.DxgAllocation, allocHandle)] else []
    }

    /** `dxgallocation_free_handle`: a valid handle is freed once and then marked invalid. */
    method FreeHandle()
      modifies this`handleValid, process`freed
      ensures !handleValid
      ensures process.freed == old(process.freed) + old(HandleToFree())
    {
      if handleValid {
        process.freed := process.freed + [FreedHandle(Hmgr.DxgAllocation, allocHandle)];
        handleValid := false;
      }
    }

    /** The host message `dxgallocation_destroy` sends, if any. */
    function MessageToSend(): seq<HostMessage>
      requires !resourceOwner && allocHandle != 0 ==> owner.OwnedByDevice?
      reads this`allocHandle, this`resourceOwner, this`owner, OwnerDevices()`handle
    {
      if allocHandle != 0 && !resourceOwner then
        [DestroyAllocationMsg(owner.device.handle, 0, allocHandle)]
      else []
    }

    /**
      `dxgallocation_destroy`: the pages are released, the allocation leaves its owner's list
      (dropping the device reference a device list holds), its handle is freed, and a
      device-owned allocation with a host handle is destroyed on the host.
    */
    method Destroy()
      requires Consistent()
      modifies this`pages, this`linked, this`handleValid, process`freed, process`sent
      modifies OwnerDevices()`allocList, OwnerDevices()`kref, OwnerResources()`allocList
      ensures !pages && !linked && !handleValid
      ensures process.freed == old(process.freed) + old(HandleToFree())
      ensures process.sent == old(process.sent) + old(MessageToSend())
      ensures forall d | d in old(OwnerDevices()) ::
        if old(linked) then d.allocList == Remove(old(d.allocList), this) && d.kref == old(d.kref) - 1
        else d.allocList == old(d.allocList) && d.kref == old(d.kref)
      ensures forall r | r in old(OwnerResources()) ::
        r.allocList == if old(linked) then Remove(old(r.allocList), this) else old(r.allocList)
    {
      Stop();
      if resourceOwner {
        if linked {
          owner.resource.RemoveAlloc(this);
        }
      } else if owner.OwnedByDevice? {
        owner.device.RemoveAlloc(this);
      }
      FreeHandle();
      if allocHandle != 0 && !resourceOwner {
        process.sent := process.sent + [DestroyAllocationMsg(owner.device.handle, 0, allocHandle)];
      }
    }
  }

  /** `struct dxgresource`. */
  class Resource {
    const device: Device
    var objectState: ObjectState
    /** Bit 0 of `flags`: set by the first `dxgresource_destroy`. */
    var destroyFlag: bool
    var handleValid: bool
    var handle: U32
    var allocList: seq<Allocation>
    /** resource_list_entry.next != NULL */
    var linked: bool
    var kref: int

    constructor (device: Device)
      ensures this.device == device && objectState == ObjectActive && !destroyFlag
      ensures !handleValid && handle == 0 && allocList == [] && !linked && kref == 1
    {
      this.device := device;
      objectState := ObjectActive;
      destroyFlag := false;
      handleValid := false;
      handle := 0;
      allocList := [];
      linked := false;
      kref := 1;
    }

    /**
      `dxgresource_create`: a new active resource holding one reference, linked into its
      device's resource list (which takes a device reference); null when the allocation fails.
    */
    static method Create(device: Device, allocOk: bool) returns (r: Resource?)
      modifies device`kref, device`resourceList
      ensures allocOk <==> r != null
      ensures r == null ==> device.kref == old(device.kref) && device.resourceList == old(device.resourceList)
      ensures r != null ==>
        fresh(r) && r.device == device && r.objectState == ObjectActive && r.linked && r.kref == 1
        && !r.destroyFlag && r.allocList == []
        && device.kref == old(device.kref) + 1 && device.resourceList == old(device.resourceList) + [r]
    {
      if !allocOk {
        return null;
      }
      r := new Resource(device);
      device.AddResource(r);
    }

    /**
      The allocations of the resource are distinct, linked, owned by it, and belong to its
      device's process.
    */
    predicate AllocsWf()
      reads this`allocList, (set a | a in allocList)`linked, (set a | a in allocList)`resourceOwner
      reads (set a | a in allocList)`owner
    {
      Distinct(allocList)
      && forall a | a in allocList ::
           a.linked && a.resourceOwner && a.owner == OwnedByResource(this) && a.process == device.process
    }

    /** The handles `dxgresource_free_handle` frees: the resource's own, then its allocations'. */
    function HandlesToFree(): seq<FreedHandle>
      reads this`handleValid, this`handle, this`allocList
      reads (set a | a in allocList)`handleValid, (set a | a in allocList)`allocHandle
    {
      (if handleValid then [FreedHandle(Hmgr.DxgResource, handle)] else []) + AllocHandles(allocList)
    }

    /** The host message `dxgresource_destroy` sends for the resource's host handle, if any. */
    function MessageToSend(): seq<HostMessage>
      reads this`handle, device`handle
    {
      if handle != 0 then [DestroyAllocationMsg(device.handle, handle, 0)] else []
    }

    /** The state a first `dxgresource_destroy` leaves: flagged, unlinked, emptied, handle freed. */
    predicate Gone()
      reads this`destroyFlag, this`linked, this`allocList, this`handleValid
    {
      destroyFlag && !linked && allocList == [] && !handleValid
    }

    /** `dxgresource_free_handle`: frees the resource's handle, then each allocation's. */
    method FreeHandle()
      requires Distinct(allocList) && forall a | a in allocList :: a.process == device.process
      modifies this`handleValid, device.process`freed, set a | a in allocList :: a`handleValid
      ensures !handleValid && forall a | a in allocList :: !a.handleValid
      ensures device.process.freed == old(device.process.freed) + old(HandlesToFree())
    {
      ghost var own := if handleValid then [FreedHandle(Hmgr.DxgResource, handle)] else [];
      if handleValid {
        device.process.freed := device.process.freed + [FreedHandle(Hmgr.DxgResource, handle)];
        handleValid := false;
      }
      FreeAllocHandles(allocList, device.process);
      AppendAssoc(old(device.process.freed), own, old(AllocHandles(allocList)));
    }

    /**
      `dxgresource_destroy`: the first call (the one that sets bit 0 of `flags`) frees the
      handles, destroys the resource on the host, destroys every allocation of the resource and
      unlinks it from its device; every call drops one reference.
    */
    method Destroy()
      requires !destroyFlag ==> AllocsWf()
      modifies this, device.process`freed, device.process`sent, device`resourceList, device`kref
      modifies set a | a in allocList :: a
      ensures destroyFlag && kref == old(kref) - 1 && objectState == old(objectState)
      ensures old(destroyFlag) ==>
        allocList == old(allocList) && handle == old(handle) && handleValid == old(handleValid)
        && linked == old(linked) && device.resourceList == old(device.resourceList)
        && device.kref == old(device.kref)
        && device.process.freed == old(device.process.freed)
        && device.process.sent == old(device.process.sent)
      ensures !old(destroyFlag) ==>
        allocList == [] && !handleValid && handle == 0 && !linked
        && device.process.freed == old(device.process.freed) + old(HandlesToFree())
        && device.process.sent == old(device.process.sent) + old(MessageToSend())
        && device.resourceList ==
             (if old(linked) then Remove(old(device.resourceList), this) else old(device.resourceList))
        && device.kref == old(device.kref) - (if old(linked) then 1 else 0)
        && forall a | a in old(allocList) :: a.Released()
    {
      var destroyed := destroyFlag;
      destroyFlag := true;
      if !destroyed {
        Dismantle();
      }
      kref := kref - 1;
    }

    /**
      The teardown of a first `dxgresource_destroy`: the handles are freed, the host destroy
      sent, every allocation destroyed and the resource unlinked from its device.
    */
    method Dismantle()
      requires AllocsWf()
      modifies this`handleValid, this`handle, this`allocList, device.process`freed, device.process`sent
      modifies device`resourceList, device`kref, this`linked
      modifies set a | a in allocList :: a
      ensures allocList == [] && !handleValid && handle == 0 && !linked
      ensures device.process.freed == old(device.process.freed) + old(HandlesToFree())
      ensures device.process.sent == old(device.process.sent) + old(MessageToSend())
      ensures device.resourceList ==
        (if old(linked) then Remove(old(device.resourceList), this) else old(device.resourceList))
      ensures device.kref == old(device.kref) - (if old(linked) then 1 else 0)
      ensures forall a | a in old(allocList) :: a.Released()
    {
      FreeHandle();
      if handle != 0 {
        device.process.sent := device.process.sent + [DestroyAllocationMsg(device.handle, handle, 0)];
        handle := 0;
      }
      DestroyAllocs();
      device.RemoveResource(this);
    }

    /** The allocation loop of `dxgresource_destroy`, over allocations whose handles are freed. */
    method DestroyAllocs()
      requires AllocsWf() && forall a | a in allocList :: !a.handleValid
      modifies this`allocList, set a | a in allocList :: a, device.process`freed, device.process`sent
      ensures allocList == []
      ensures device.process.freed == old(device.process.freed)
      ensures device.process.sent == old(device.process.sent)
      ensures forall a | a in old(allocList) :: !a.linked && !a.handleValid && !a.pages
    {
      var snap := allocList;
      var i := 0;
      while i < |snap|
        invariant 0 <= i <= |snap|
        invariant allocList == snap[i..]
        invariant AllocsWf() && Distinct(snap)
        invariant forall j | 0 <= j < i :: !snap[j].linked && !snap[j].handleValid && !snap[j].pages
        invariant forall j | i <= j < |snap| :: unchanged(snap[j])
        invariant device.process.freed == old(device.process.freed)
        invariant device.process.sent == old(device.process.sent)
      {
        var a := snap[i];
        assert a in allocList;
        RemoveFirst(allocList);
        RemoveDistinct(allocList, a);
        assert a.OwnerResources() == {this} && a.OwnerDevices() == {};
        assert a.process == device.process;
        assert a in old(allocList);
        a.Destroy();
        i := i + 1;
      }
    }

    /** `dxgresource_add_alloc`: links the allocation only while the resource is active. */
    method AddAlloc(a: Allocation) returns (ret: int)
      requires objectState == ObjectActive ==> !a.linked
      modifies this`allocList, a`linked, a`owner, a`resourceOwner
      ensures ret == 0 <==> objectState == ObjectActive
      ensures ret != 0 ==> ret == -ENODEV
      ensures a.resourceOwner
      ensures ret == 0 ==> allocList == old(allocList) + [a] && a.linked && a.owner == OwnedByResource(this)
      ensures ret != 0 ==> allocList == old(allocList) && a.linked == old(a.linked) && a.owner == old(a.owner)
    {
      ret := -ENODEV;
      if objectState == ObjectActive {
        allocList := allocList + [a];
        a.linked := true;
        a.owner := OwnedByResource(this);
        ret := 0;
      }
      a.resourceOwner := true;
    }

    /** `dxgresource_remove_alloc`: unlinks a linked allocation; a second call changes nothing. */
    method RemoveAlloc(a: Allocation)
      modifies this`allocList, a`linked
      ensures !a.linked
      ensures allocList == if old(a.linked) then Remove(old(allocList), a) else old(allocList)
    {
      if a.linked {
        allocList := Remove(allocList, a);
        a.linked := false;
      }
    }
  }

  /** `struct dxgcontext`. */
  class Context {
    const device: Device?
    var objectState: ObjectState
    var handle: U32
    /** context_list_entry.next != NULL */
    var linked: bool
    var kref: int

    constructor (device: Device?)
      ensures this.device == device && objectState == ObjectCreated && handle == 0
      ensures !linked && kref == 1
    {
      this.device := device;
      objectState := ObjectCreated;
      handle := 0;
      linked := false;
      kref := 1;
    }

    function Devices(): set<Device>
    {
      if device == null then {} else {device}
    }

    /**
      `dxgcontext_create`: a new active context on the device, linked into its context list
      and holding one device reference; null when the allocation fails.
    */
    static method Create(device: Device, allocOk: bool) returns (c: Context?)
      modifies device`kref, device`contextList
      ensures allocOk <==> c != null
      ensures c == null ==> device.kref == old(device.kref) && device.contextList == old(device.contextList)
      ensures c != null ==>
        fresh(c) && c.device == device && c.objectState == ObjectActive && c.linked && c.kref == 1
        && device.kref == old(device.kref) + 1 && device.contextList == old(device.contextList) + [c]
      ensures old(device.ContextsWf()) ==> device.ContextsWf()
    {
      if !allocOk {
        return null;
      }
      c := new Context(device);
      device.kref := device.kref + 1;
      device.AddContext(c);
      c.objectState := ObjectActive;
      if old(device.ContextsWf()) {
        AppendDistinct(old(device.contextList), c);
      }
    }

    /** The handle-table entry `dxgcontext_destroy` frees, if any. */
    function HandleToFree(): seq<FreedHandle>
      reads this`handle
    {
      if handle != 0 then [FreedHandle(Hmgr.DxgContext, handle)] else []
    }

    /** The state `dxgcontext_destroy` leaves a context of a device in: destroyed and unlinked. */
    predicate Closed()
      reads this`objectState, this`linked
    {
      objectState == ObjectDestroyed && !linked
    }

    /**
      `dxgcontext_destroy`: the context is marked destroyed; a context with a device frees its
      handle (when it has one), leaves the device's list and drops the device reference it took;
      every call drops one context reference.
    */
    method Destroy(process: Process)
      modifies this`objectState, this`linked, this`kref, process`freed
      modifies Devices()`contextList, Devices()`kref
      ensures objectState == ObjectDestroyed && kref == old(kref) - 1 && handle == old(handle)
      ensures device != null ==>
        !linked
        && device.contextList ==
             (if old(linked) then Remove(old(device.contextList), this) else old(device.contextList))
        && device.kref == old(device.kref) - 1
        && process.freed == old(process.freed) + HandleToFree()
      ensures device == null ==> linked == old(linked) && process.freed == old(process.freed)
    {
      objectState := ObjectDestroyed;
      if device != null {
        if handle != 0 {
          process.freed := process.freed + [FreedHandle(Hmgr.DxgContext, handle)];
        }
        device.RemoveContext(this);
        device.kref := device.kref - 1;
      }
      kref := kref - 1;
    }
  }

  /** `struct dxgdevice`. */
  class Device {
    const process: Process
    var adapter: Adapter?
    /** adapter_info: the binding whose device list holds this device. */
    var binding: ProcessAdapter?
    /** device_list_entry.next != NULL */
    var inDeviceList: bool
    var kref: int
    var objectState: ObjectState
    var handleValid: bool
    var handle: U32
    var allocList: seq<Allocation>
    var resourceList: seq<Resource>
    var contextList: seq<Context>

    constructor (adapter: Adapter?, process: Process)
      ensures this.adapter == adapter && this.process == process && binding == null
      ensures !inDeviceList && kref == 1 && objectState == ObjectCreated
      ensures !handleValid && handle == 0 && allocList == [] && resourceList == [] && contextList == []
    {
      this.adapter := adapter;
      this.process := process;
      binding := null;
      inDeviceList := false;
      kref := 1;
      objectState := ObjectCreated;
      handleValid := false;
      handle := 0;
      allocList := [];
      resourceList := [];
      contextList := [];
    }

    /**
      `dxgdevice_create` as written: when the process has no binding to the adapter, the
      device is released but the adapter reference taken for it is kept.
    */
    static method CreateAsWritten(adapter: Adapter, process: Process, allocOk: bool) returns (d: Device?)
      modifies adapter`kref, (set b | b in process.adapterList)`deviceList
      ensures !allocOk ==>
        d == null && adapter.kref == old(adapter.kref)
        && forall b | b in process.adapterList :: b.deviceList == old(b.deviceList)
      ensures allocOk && BindingIndex(process.adapterList, adapter).None? ==>
        d == null && adapter.kref == old(adapter.kref) + 1
        && forall b | b in process.adapterList :: b.deviceList == old(b.deviceList)
      ensures allocOk && BindingIndex(process.adapterList, adapter).Some? ==>
        var e := process.adapterList[BindingIndex(process.adapterList, adapter).value];
        d != null && fresh(d) && d.adapter == adapter && d.process == process && d.binding == e
        && d.inDeviceList && d.kref == 1 && d.objectState == ObjectCreated && d.Wf()
        && e.deviceList == old(e.deviceList) + [d] && adapter.kref == old(adapter.kref) + 1
        && forall b | b in process.adapterList && b != e :: b.deviceList == old(b.deviceList)
    {
      if !allocOk {
        return null;
      }
      d := new Device(adapter, process);
      adapter.kref := adapter.kref + 1;
      var ret := ProcessAdapter.AddDevice(process, adapter, d);
      if ret < 0 {
        d.kref := d.kref - 1;
        d := null;
      }
    }

    /**
      `dxgdevice_create`: a new device on the adapter, holding one reference and one adapter
      reference, in the device list of the process's binding to the adapter; null when the
      allocation fails or there is no such binding. A failed create leaves the adapter's
      count as it was.
    */
    static method Create(adapter: Adapter, process: Process, allocOk: bool) returns (d: Device?)
      modifies adapter`kref, (set b | b in process.adapterList)`deviceList
      ensures d == null <==> !allocOk || BindingIndex(process.adapterList, adapter).None?
      ensures d == null ==>
        adapter.kref == old(adapter.kref)
        && forall b | b in process.adapterList :: b.deviceList == old(b.deviceList)
      ensures d != null ==>
        var e := process.adapterList[BindingIndex(process.adapterList, adapter).value];
        fresh(d) && d.adapter == adapter && d.process == process && d.binding == e
        && d.inDeviceList && d.kref == 1 && d.objectState == ObjectCreated && d.Wf()
        && e.deviceList == old(e.deviceList) + [d] && adapter.kref == old(adapter.kref) + 1
        && forall b | b in process.adapterList && b != e :: b.deviceList == old(b.deviceList)
    {
      if !allocOk {
        return null;
      }
      d := new Device(adapter, process);
      adapter.kref := adapter.kref + 1;
      var ret := ProcessAdapter.AddDevice(process, adapter, d);
      if ret < 0 {
        d.kref := d.kref - 1;
        adapter.kref := adapter.kref - 1;
        d := null;
      }
    }

    predicate IsActive()
      reads this`objectState
    {
      objectState == ObjectActive
    }

    /** `dxgdevice_acquire_lock_shared`: 0 with the lock held, or -ENODEV with it released. */
    function AcquireLockShared(): (r: int)
      reads this`objectState
      ensures r == 0 <==> IsActive()
      ensures r != 0 ==> r == -ENODEV
    {
      if !IsActive() then -ENODEV else 0
    }

    /** `dxgdevice_mark_destroyed`. */
    method MarkDestroyed()
      modifies this`objectState
      ensures objectState == ObjectDestroyed
    {
      objectState := ObjectDestroyed;
    }

    /** The device's own allocations are distinct, linked, device-owned and of its process. */
    predicate AllocsWf()
      reads this`allocList, (set a | a in allocList)`linked, (set a | a in allocList)`resourceOwner
      reads (set a | a in allocList)`owner
    {
      Distinct(allocList)
      && forall a | a in allocList ::
           a.linked && !a.resourceOwner && a.owner == OwnedByDevice(this) && a.process == process
    }

    /** `dxgdevice_add_alloc`: links the allocation, takes a device reference, records the owner. */
    method AddAlloc(a: Allocation)
      requires !a.linked
      modifies this`allocList, this`kref, a`linked, a`owner
      ensures allocList == old(allocList) + [a] && kref == old(kref) + 1
      ensures a.linked && a.owner == OwnedByDevice(this)
      ensures old(AllocsWf()) && !a.resourceOwner && a.process == process ==> AllocsWf()
    {
      allocList := allocList + [a];
      kref := kref + 1;
      a.linked := true;
      a.owner := OwnedByDevice(this);
      if old(AllocsWf()) && !a.resourceOwner && a.process == process {
        AppendDistinct(old(allocList), a);
      }
    }

    /**
      `dxgdevice_remove_alloc`: a linked allocation is unlinked and its device reference dropped;
      an unlinked one is left alone, so a second removal is a no-op.
    */
    method RemoveAlloc(a: Allocation)
      modifies this`allocList, this`kref, a`linked
      ensures !a.linked
      ensures old(a.linked) ==> allocList == Remove(old(allocList), a) && kref == old(kref) - 1
      ensures !old(a.linked) ==> allocList == old(allocList) && kref == old(kref)
    {
      if a.linked {
        allocList := Remove(allocList, a);
        a.linked := false;
        kref := kref - 1;
      }
    }

    /** `dxgdevice_add_resource`: links the resource and takes a device reference. */
    method AddResource(r: Resource)
      requires !r.linked
      modifies this`resourceList, this`kref, r`linked
      ensures resourceList == old(resourceList) + [r] && kref == old(kref) + 1 && r.linked
    {
      resourceList := resourceList + [r];
      kref := kref + 1;
      r.linked := true;
    }

    /** `dxgdevice_remove_resource`: as `RemoveAlloc`, for the resource list. */
    method RemoveResource(r: Resource)
      modifies this`resourceList, this`kref, r`linked
      ensures !r.linked
      ensures old(r.linked) ==> resourceList == Remove(old(resourceList), r) && kref == old(kref) - 1
      ensures !old(r.linked) ==> resourceList == old(resourceList) && kref == old(kref)
    {
      if r.linked {
        resourceList := Remove(resourceList, r);
        r.linked := false;
        kref := kref - 1;
      }
    }

    /** `dxgdevice_add_context`: links the context; the reference is taken by its creator. */
    method AddContext(c: Context)
      requires !c.linked
      modifies this`contextList, c`linked
      ensures contextList == old(contextList) + [c] && c.linked
    {
      contextList := contextList + [c];
      c.linked := true;
    }

    /** `dxgdevice_remove_context`: unlinks a linked context, without touching references. */
    method RemoveContext(c: Context)
      modifies this`contextList, c`linked
      ensures !c.linked
      ensures contextList == if old(c.linked) then Remove(old(contextList), c) else old(contextList)
    {
      if c.linked {
        contextList := Remove(contextList, c);
        c.linked := false;
      }
    }

    /** `dxgdevice_stop`: every allocation of the device releases its pages; nothing is unlinked. */
    method Stop()
      modifies set a | a in allocList :: a`pages
      ensures forall a | a in allocList :: !a.pages
    {
      var i := 0;
      while i < |allocList|
        invariant 0 <= i <= |allocList|
        invariant forall j | 0 <= j < i :: !allocList[j].pages
      {
        var a := allocList[i];
        assert a in allocList;
        a.Stop();
        i := i + 1;
      }
    }

    /** The allocations of the device's resources. */
    function ResourceAllocs(): set<Allocation>
      reads this`resourceList, (set r | r in resourceList)`allocList
    {
      AllocsOf(resourceList)
    }

    /** The resources of the device are distinct, linked, not yet destroyed and well formed. */
    predicate ResourcesWf()
      reads this`resourceList, (set r | r in resourceList)`linked, (set r | r in resourceList)`destroyFlag
      reads (set r | r in resourceList)`allocList, ResourceAllocs()`linked
      reads ResourceAllocs()`resourceOwner, ResourceAllocs()`owner
    {
      Distinct(resourceList)
      && forall r | r in resourceList ::
           r.linked && r.device == this && !r.destroyFlag && r.AllocsWf()
    }

    /** An allocation of one of the device's resources is owned by that resource. */
    lemma ResourceAllocOwner(x: Allocation)
      requires ResourcesWf() && x in ResourceAllocs()
      ensures x.resourceOwner && x.owner.OwnedByResource?
      ensures x.owner.resource in resourceList && x.owner.resource.device == this
    {
      var k :| 0 <= k < |resourceList| && x in resourceList[k].allocList;
      assert resourceList[k] in resourceList;
    }

    /** The contexts of the device are distinct, linked and belong to it. */
    predicate ContextsWf()
      reads this`contextList, (set c | c in contextList)`linked
    {
      Distinct(contextList) && forall c | c in contextList :: c.linked && c.device == this
    }

    /**
      The shape `dxgdevice_destroy` relies on: the three lists are well formed, a device on an
      adapter has a binding, and a host handle to destroy comes with an adapter.
    */
    predicate Wf()
      reads this`adapter, this`binding, this`objectState, this`handleValid, this`handle
      reads this`allocList, (set a | a in allocList)`linked, (set a | a in allocList)`resourceOwner
      reads (set a | a in allocList)`owner
      reads this`resourceList, (set r | r in resourceList)`linked, (set r | r in resourceList)`destroyFlag
      reads (set r | r in resourceList)`allocList, ResourceAllocs()`linked
      reads ResourceAllocs()`resourceOwner, ResourceAllocs()`owner
      reads this`contextList, (set c | c in contextList)`linked
    {
      AllocsWf() && ResourcesWf() && ContextsWf()
      && (adapter != null ==> binding != null)
      && (IsActive() && handleValid && handle != 0 ==> adapter != null)
    }

    function Adapters(): set<Adapter>
      reads this`adapter
    {
      if adapter == null then {} else {adapter}
    }

    function Bindings(): set<ProcessAdapter>
      reads this`binding
    {
      if binding == null then {} else {binding}
    }

    /** The handles destroying the allocations, resources and contexts of the device frees. */
    function ChildHandles(): seq<FreedHandle>
      reads this`allocList, this`resourceList, this`contextList
      reads (set a | a in allocList)`handleValid, (set a | a in allocList)`allocHandle
      reads (set r | r in resourceList)`handleValid, (set r | r in resourceList)`handle
      reads (set r | r in resourceList)`allocList
      reads ResourceAllocs()`handleValid, ResourceAllocs()`allocHandle, (set c | c in contextList)`handle
    {
      AllocHandles(allocList) + ResourceHandles(resourceList) + ContextHandles(contextList)
    }

    /** The host messages destroying the allocations and resources of the device sends. */
    function ChildMessages(): seq<HostMessage>
      reads this`allocList, this`resourceList, this`handle
      reads (set a | a in allocList)`allocHandle, (set r | r in resourceList)`handle
    {
      DeviceAllocMessages(allocList, handle) + ResourceMessages(resourceList, handle)
    }

    /** The device's own handle-table entry, while it is valid. */
    function OwnHandle(): seq<FreedHandle>
      reads this`handleValid, this`handle
    {
      if handleValid then [FreedHandle(Hmgr.DxgDevice, handle)] else []
    }

    /** The host message destroying the device, sent while its adapter is active. */
    function OwnMessage(): seq<HostMessage>
      reads this`handleValid, this`handle, this`adapter, Adapters()`state
    {
      if handleValid && handle != 0 && adapter != null && adapter.IsActive()
      then [DestroyDeviceMsg(handle)] else []
    }

    /** The handles the teardown of `dxgdevice_destroy` frees, in order. */
    function TeardownHandles(): seq<FreedHandle>
      reads this`allocList, this`resourceList, this`contextList, this`handleValid, this`handle
      reads (set a | a in allocList)`handleValid, (set a | a in allocList)`allocHandle
      reads (set r | r in resourceList)`handleValid, (set r | r in resourceList)`handle
      reads (set r | r in resourceList)`allocList
      reads ResourceAllocs()`handleValid, ResourceAllocs()`allocHandle, (set c | c in contextList)`handle
    {
      ChildHandles() + OwnHandle()
    }

    /** The host messages the teardown of `dxgdevice_destroy` sends, in order. */
    function TeardownMessages(): seq<HostMessage>
      reads this`allocList, this`resourceList, this`handleValid, this`handle, this`adapter
      reads (set a | a in allocList)`allocHandle, (set r | r in resourceList)`handle, Adapters()`state
    {
      ChildMessages() + OwnMessage()
    }

    /**
      What the resource side of the device frees, sends and relies on is kept when its
      resources and the fields of their allocations that it reads are untouched.
    */
    twostate lemma ResourcesKept()
      requires unchanged(this`resourceList, this`handle)
      requires forall r | r in resourceList :: unchanged(r)
      requires forall x | x in old(ResourceAllocs()) ::
        unchanged(x`linked, x`resourceOwner, x`owner, x`handleValid, x`allocHandle)
      ensures ResourceAllocs() == old(ResourceAllocs())
      ensures ResourcesWf() == old(ResourcesWf())
      ensures ResourceHandles(resourceList) == old(ResourceHandles(resourceList))
      ensures ResourceMessages(resourceList, handle) == old(ResourceMessages(resourceList, handle))
    {
      assert ResourceAllocs() == old(ResourceAllocs());
    }

    /**
      One turn of the allocation loop of `dxgdevice_destroy`: the first allocation goes. The
      allocations ra, owned by resources, are not the device's and are left alone.
    */
    method DestroyFirstAlloc(ghost ra: set<Allocation>)
      requires AllocsWf() && allocList != [] && forall x | x in ra :: x.resourceOwner
      modifies this`allocList, this`kref, process`freed, process`sent, allocList[0]
      ensures allocList == old(allocList[1..]) && kref == old(kref) - 1 && AllocsWf()
      ensures process.freed + AllocHandles(allocList) == old(process.freed + AllocHandles(allocList))
      ensures process.sent + DeviceAllocMessages(allocList, handle)
        == old(process.sent + DeviceAllocMessages(allocList, handle))
      ensures old(allocList[0]).Released()
      ensures forall x | x in ra :: unchanged(x)
    {
      var a := allocList[0];
      assert a in allocList;
      RemoveFirst(allocList);
      RemoveDistinct(allocList, a);
      assert a.OwnerDevices() == {this} && a.OwnerResources() == {};
      assert a.process == process;
      assert a !in ra;
      ghost var rest := allocList[1..];
      assert a.MessageToSend() == DeviceAllocMessage(a, handle);
      label before:
      a.Destroy();
      AllocHandlesKept@before(rest);
      AppendAssoc(old(process.freed), old(a.HandleToFree()), AllocHandles(rest));
      AppendAssoc(old(process.sent), old(a.MessageToSend()), DeviceAllocMessages(rest, handle));
    }

    /** `dxgdevice_stop` and then the allocation loop of `dxgdevice_destroy`. */
    method DestroyAllocs()
      requires AllocsWf() && ResourcesWf()
      modifies this`allocList, this`kref, process`freed, process`sent, set a | a in allocList :: a
      ensures allocList == [] && kref == old(kref) - |old(allocList)|
      ensures process.freed == old(process.freed) + old(AllocHandles(allocList))
      ensures process.sent == old(process.sent) + old(DeviceAllocMessages(allocList, handle))
      ensures ResourcesWf() && ResourceAllocs() == old(ResourceAllocs())
      ensures ResourceHandles(resourceList) == old(ResourceHandles(resourceList))
      ensures ResourceMessages(resourceList, handle) == old(ResourceMessages(resourceList, handle))
      ensures forall a | a in old(allocList) :: a.Released()
    {
      ghost var ra := ResourceAllocs();
      forall x | x in ra
        ensures x.resourceOwner
      {
        var k :| 0 <= k < |resourceList| && x in resourceList[k].allocList;
        assert resourceList[k] in resourceList;
      }
      Stop();
      DestroyAllocList(ra);
      ResourcesKept();
    }

    /**
      The allocation loop of `dxgdevice_destroy`: each allocation of the device is destroyed in
      turn; the resource-owned allocations ra are left alone.
    */
    method DestroyAllocList(ghost ra: set<Allocation>)
      requires AllocsWf() && forall x | x in ra :: x.resourceOwner
      modifies this`allocList, this`kref, process`freed, process`sent, set a | a in allocList :: a
      ensures allocList == [] && kref == old(kref) - |old(allocList)|
      ensures process.freed == old(process.freed) + old(AllocHandles(allocList))
      ensures process.sent == old(process.sent) + old(DeviceAllocMessages(allocList, handle))
      ensures forall x | x in ra ::
        unchanged(x`linked, x`resourceOwner, x`owner, x`handleValid, x`allocHandle)
      ensures forall a | a in old(allocList) :: a.Released()
    {
      var snap := allocList;
      var i := 0;
      while i < |snap|
        invariant 0 <= i <= |snap|
        invariant allocList == snap[i..] && AllocsWf()
        invariant forall x | x in ra :: unchanged(x)
        invariant kref == old(kref) - i
        invariant process.freed + AllocHandles(allocList) == old(process.freed + AllocHandles(allocList))
        invariant process.sent + DeviceAllocMessages(allocList, handle)
          == old(process.sent + DeviceAllocMessages(allocList, handle))
        invariant forall j | 0 <= j < i :: snap[j].Released()
      {
        assert snap[i] in old(allocList);
        DestroyFirstAlloc(ra);
        assert snap[i..][1..] == snap[i + 1..];
        i := i + 1;
      }
    }

    /**
      One turn of the resource loop of `dxgdevice_destroy`: the first resource goes.
    */
    method DestroyFirstResource()
      requires ResourcesWf() && resourceList != []
      modifies this`resourceList, this`kref, process`freed, process`sent
      modifies resourceList[0], set a | a in resourceList[0].allocList :: a
      ensures resourceList == old(resourceList[1..]) && kref == old(kref) - 1 && ResourcesWf()
      ensures process.freed + ResourceHandles(resourceList)
        == old(process.freed + ResourceHandles(resourceList))
      ensures process.sent + ResourceMessages(resourceList, handle)
        == old(process.sent + ResourceMessages(resourceList, handle))
      ensures old(resourceList[0]).Gone()
      ensures forall a | a in old(resourceList[0].allocList) :: a.Released()
      ensures ResourceAllocs() == old(AllocsOf(resourceList[1..]))
    {
      var r := resourceList[0];
      assert r in resourceList;
      RemoveFirst(resourceList);
      RemoveDistinct(resourceList, r);
      ghost var rest := resourceList[1..];
      assert r !in rest;
      forall a | a in AllocsOf(rest)
        ensures a !in r.allocList
      {
        var k :| 0 <= k < |rest| && a in rest[k].allocList;
        assert rest[k] in resourceList;
      }
      ghost var f0, s0 := process.freed, process.sent;
      assert r.MessageToSend() == ResourceMessage(r, handle);
      label before:
      r.Destroy();
      ResourceSeqKept@before(rest);
      AppendAssoc(f0, old(r.HandlesToFree()), old(ResourceHandles(rest)));
      AppendAssoc(s0, old(r.MessageToSend()), old(ResourceMessages(rest, handle)));
    }

    /**
      What the resource loop has done so far: the resources done are gone, the allocations freed
      are released, and the allocations to account for (all) are among those released and those
      of the remaining resources.
    */
    ghost predicate ResourcesDestroyed(done: seq<Resource>, freed: set<Allocation>, all: set<Allocation>)
      reads this`resourceList, (set r | r in resourceList)`allocList
      reads (set r | r in done)`destroyFlag, (set r | r in done)`linked
      reads (set r | r in done)`allocList, (set r | r in done)`handleValid
      reads freed`pages, freed`linked, freed`handleValid
    {
      Finished(done, freed) && all <= freed + ResourceAllocs()
    }

    /** A turn of the resource loop that keeps what the earlier turns did. */
    method DestroyNextResource(ghost done: seq<Resource>, ghost freed: set<Allocation>, ghost all: set<Allocation>)
      returns (ghost freed2: set<Allocation>)
      requires ResourcesWf() && resourceList != []
      requires ResourcesDestroyed(done, freed, all)
      modifies this`resourceList, this`kref, process`freed, process`sent
      modifies resourceList[0], set a | a in resourceList[0].allocList :: a
      ensures resourceList == old(resourceList[1..]) && kref == old(kref) - 1 && ResourcesWf()
      ensures process.freed + ResourceHandles(resourceList)
        == old(process.freed + ResourceHandles(resourceList))
      ensures process.sent + ResourceMessages(resourceList, handle)
        == old(process.sent + ResourceMessages(resourceList, handle))
      ensures ResourceAllocs() <= old(ResourceAllocs())
      ensures ResourcesDestroyed(done + [old(resourceList[0])], freed2, all)
    {
      ghost var now := set a | a in resourceList[0].allocList;
      assert ResourceAllocs() == now + AllocsOf(resourceList[1..]);
      assert resourceList[0] in resourceList;
      assert resourceList[0] !in done && forall a | a in freed :: a !in resourceList[0].allocList;
      DestroyFirstResource();
      assert Finished(done, freed);
      freed2 := freed + now;
    }

    /** The resource loop of `dxgdevice_destroy`. */
    method DestroyResources()
      requires ResourcesWf()
      modifies this`resourceList, this`kref, process`freed, process`sent
      modifies set r | r in resourceList :: r, ResourceAllocs()
      ensures resourceList == [] && kref == old(kref) - |old(resourceList)|
      ensures process.freed == old(process.freed) + old(ResourceHandles(resourceList))
      ensures process.sent == old(process.sent) + old(ResourceMessages(resourceList, handle))
      ensures forall r | r in old(resourceList) :: r.Gone()
      ensures forall a | a in old(ResourceAllocs()) :: a.Released()
    {
      var snap := resourceList;
      var i := 0;
      ghost var done: seq<Resource> := [];
      ghost var freed: set<Allocation> := {};
      while i < |snap|
        invariant 0 <= i <= |snap|
        invariant resourceList == snap[i..] && ResourcesWf()
        invariant kref == old(kref) - i
        invariant process.freed + ResourceHandles(resourceList)
          == old(process.freed + ResourceHandles(resourceList))
        invariant process.sent + ResourceMessages(resourceList, handle)
          == old(process.sent + ResourceMessages(resourceList, handle))
        invariant ResourceAllocs() <= old(ResourceAllocs())
        invariant ResourcesDestroyed(done, freed, old(ResourceAllocs()))
        invariant forall j | 0 <= j < i :: snap[j] in done
      {
        assert snap[i] in old(resourceList);
        ghost var r0 := resourceList[0];
        freed := DestroyNextResource(done, freed, old(ResourceAllocs()));
        done := done + [r0];
        assert snap[i..][1..] == snap[i + 1..];
        i := i + 1;
      }
    }

    /** One turn of the context loop of `dxgdevice_destroy`: the first context goes. */
    method DestroyFirstContext()
      requires ContextsWf() && contextList != []
      modifies this`contextList, this`kref, process`freed
      modifies (set c | c in contextList[..1])`objectState, (set c | c in contextList[..1])`linked
      modifies (set c | c in contextList[..1])`kref
      ensures contextList == old(contextList[1..]) && kref == old(kref) - 1 && ContextsWf()
      ensures process.freed + ContextHandles(contextList)
        == old(process.freed + ContextHandles(contextList))
      ensures old(contextList[0]).Closed()
    {
      var c := contextList[0];
      assert c in contextList;
      RemoveFirst(contextList);
      RemoveDistinct(contextList, c);
      ghost var rest := contextList[1..];
      assert c !in rest;
      ghost var hs := ContextHandles(rest);
      ghost var f0 := process.freed;
      assert c.Devices() == {this};
      c.Destroy(process);
      assert ContextHandles(rest) == hs;
      AppendAssoc(f0, c.HandleToFree(), hs);
    }

    /** The context loop of `dxgdevice_destroy`. */
    method DestroyContexts()
      requires ContextsWf()
      modifies this`contextList, this`kref, process`freed
      modifies (set c | c in contextList)`objectState, (set c | c in contextList)`linked
      modifies (set c | c in contextList)`kref
      ensures contextList == [] && kref == old(kref) - |old(contextList)|
      ensures process.freed == old(process.freed) + old(ContextHandles(contextList))
      ensures forall c | c in old(contextList) :: c.Closed()
    {
      var snap := contextList;
      var i := 0;
      while i < |snap|
        invariant 0 <= i <= |snap|
        invariant contextList == snap[i..] && ContextsWf()
        invariant kref == old(kref) - i
        invariant process.freed + ContextHandles(contextList)
          == old(process.freed + ContextHandles(contextList))
        invariant forall j | 0 <= j < i :: snap[j].Closed()
      {
        assert snap[i] in old(contextList);
        DestroyFirstContext();
        assert snap[i..][1..] == snap[i + 1..];
        i := i + 1;
      }
    }

    /** What the context side of the device frees and relies on is kept when its contexts are. */
    twostate lemma ContextsKept()
      requires unchanged(this`contextList) && forall c | c in contextList :: unchanged(c)
      ensures ContextsWf() == old(ContextsWf())
      ensures ContextHandles(contextList) == old(ContextHandles(contextList))
    {
    }

    /**
      The body of `dxgdevice_destroy` for an active device: the device is stopped, then its
      allocations, its resources and its contexts are destroyed, each dropping a device reference.
    */
    method DestroyChildren()
      requires AllocsWf() && ResourcesWf() && ContextsWf()
      modifies this`allocList, this`resourceList, this`contextList, this`kref
      modifies process`freed, process`sent, (set a | a in allocList), (set r | r in resourceList), ResourceAllocs()
      modifies (set c | c in contextList)
      ensures allocList == [] && resourceList == [] && contextList == []
      ensures kref == old(kref) - |old(allocList)| - |old(resourceList)| - |old(contextList)|
      ensures process.freed == old(process.freed) + old(ChildHandles())
      ensures process.sent == old(process.sent) + old(ChildMessages())
      ensures ChildrenGone(old(allocList), old(resourceList), old(ResourceAllocs()), old(contextList))
    {
      ghost var h := AllocHandles(allocList) + ResourceHandles(resourceList);
      DestroyAllocsAndResources();
      ContextsKept();
      DestroyContexts();
      AppendAssoc(old(process.freed), h, old(ContextHandles(contextList)));
    }

    /** The allocation and resource loops of `dxgdevice_destroy`, in that order. */
    method DestroyAllocsAndResources()
      requires AllocsWf() && ResourcesWf()
      modifies this`allocList, this`resourceList, this`kref, process`freed, process`sent
      modifies (set a | a in allocList), (set r | r in resourceList), ResourceAllocs()
      ensures allocList == [] && resourceList == []
      ensures kref == old(kref) - |old(allocList)| - |old(resourceList)|
      ensures process.freed == old(process.freed) + old(AllocHandles(allocList) + ResourceHandles(resourceList))
      ensures process.sent == old(process.sent) + old(ChildMessages())
      ensures forall a | a in old(allocList) :: a.Released()
      ensures forall r | r in old(resourceList) :: r.Gone()
      ensures forall a | a in old(ResourceAllocs()) :: a.Released()
    {
      DestroyAllocs();
      DestroyResources();
      AppendAssoc(old(process.freed), old(AllocHandles(allocList)), old(ResourceHandles(resourceList)));
      AppendAssoc(old(process.sent), old(DeviceAllocMessages(allocList, handle)),
        old(ResourceMessages(resourceList, handle)));
    }

    /**
      The teardown `dxgdevice_destroy` performs on an active device: it is marked destroyed,
      then dismantled (see `Dismantle`).
    */
    method Teardown()
      requires Wf() && IsActive()
      modifies this`objectState, this`allocList, this`resourceList, this`contextList, this`kref
      modifies this`handleValid, process`freed, process`sent
      modifies (set a | a in allocList), (set r | r in resourceList), ResourceAllocs()
      modifies (set c | c in contextList)
      ensures objectState == ObjectDestroyed && !handleValid
      ensures allocList == [] && resourceList == [] && contextList == []
      ensures kref == old(kref) - |old(allocList)| - |old(resourceList)| - |old(contextList)|
      ensures process.freed == old(process.freed) + old(TeardownHandles())
      ensures process.sent == old(process.sent) + old(TeardownMessages())
      ensures ChildrenGone(old(allocList), old(resourceList), old(ResourceAllocs()), old(contextList))
    {
      // Dismantle neither reads nor writes the state, so marking after it ends the same.
      Dismantle();
      objectState := ObjectDestroyed;
    }

    /**
      The teardown after the device is marked destroyed: it is stopped, and its allocations,
      resources and contexts are destroyed in that order; then its handle is freed (once:
      `handleValid` is cleared) and, while the adapter is active, the device is destroyed on
      the host.
    */
    method Dismantle()
      requires AllocsWf() && ResourcesWf() && ContextsWf()
      requires handleValid && handle != 0 ==> adapter != null
      modifies this`allocList, this`resourceList, this`contextList, this`kref
      modifies this`handleValid, process`freed, process`sent
      modifies (set a | a in allocList), (set r | r in resourceList), ResourceAllocs()
      modifies (set c | c in contextList)
      ensures !handleValid
      ensures allocList == [] && resourceList == [] && contextList == []
      ensures kref == old(kref) - |old(allocList)| - |old(resourceList)| - |old(contextList)|
      ensures process.freed == old(process.freed) + old(TeardownHandles())
      ensures process.sent == old(process.sent) + old(TeardownMessages())
      ensures ChildrenGone(old(allocList), old(resourceList), old(ResourceAllocs()), old(contextList))
    {
      ghost var f0, s0 := process.freed, process.sent;
      ghost var als, rs, ras, cs := allocList, resourceList, ResourceAllocs(), contextList;
      DestroyChildren();
      FreeOwnHandle(als, rs, ras, cs);
      AppendAssoc(f0, old(ChildHandles()), old(OwnHandle()));
      AppendAssoc(s0, old(ChildMessages()), old(OwnMessage()));
    }

    /**
      The end of the teardown: a valid device handle is freed and invalidated, and a device
      with a host handle is destroyed on the host while its adapter is active. Children already
      destroyed (allocs, resources, resourceAllocs, contexts) stay as they were left.
    */
    method FreeOwnHandle(ghost allocs: seq<Allocation>, ghost resources: seq<Resource>,
                         ghost resourceAllocs: set<Allocation>, ghost contexts: seq<Context>)
      requires handleValid && handle != 0 ==> adapter != null
      requires ChildrenGone(allocs, resources, resourceAllocs, contexts)
      modifies this`handleValid, process`freed, process`sent
      ensures !handleValid
      ensures process.freed == old(process.freed) + old(OwnHandle())
      ensures process.sent == old(process.sent) + old(OwnMessage())
      ensures ChildrenGone(allocs, resources, resourceAllocs, contexts)
    {
      if handleValid {
        process.freed := process.freed + [FreedHandle(Hmgr.DxgDevice, handle)];
        handleValid := false;
        if handle != 0 && adapter.AcquireLockShared() == 0 {
          process.sent := process.sent + [DestroyDeviceMsg(handle)];
        }
      }
    }

    /**
      `dxgdevice_destroy`. An active device is torn down (see `Teardown`). Whatever the state,
      a device still on an adapter leaves its binding's list and drops its adapter reference
      once; every call drops one device reference.
    */
    method Destroy()
      requires Wf()
      modifies this`objectState, this`allocList, this`resourceList, this`contextList, this`kref
      modifies this`handleValid, this`adapter, this`inDeviceList
      modifies process`freed, process`sent, Adapters()`kref, Bindings()`deviceList
      modifies (set a | a in allocList), (set r | r in resourceList), ResourceAllocs()
      modifies (set c | c in contextList)
      ensures adapter == null && binding == old(binding)
      ensures kref == old(kref) - 1
        - (if old(IsActive()) then |old(allocList)| + |old(resourceList)| + |old(contextList)| else 0)
      ensures old(IsActive()) ==>
        objectState == ObjectDestroyed && !handleValid
        && allocList == [] && resourceList == [] && contextList == []
        && process.freed == old(process.freed) + old(TeardownHandles())
        && process.sent == old(process.sent) + old(TeardownMessages())
        && ChildrenGone(old(allocList), old(resourceList), old(ResourceAllocs()), old(contextList))
      ensures !old(IsActive()) ==>
        objectState == old(objectState) && handleValid == old(handleValid)
        && allocList == old(allocList) && resourceList == old(resourceList)
        && contextList == old(contextList)
        && process.freed == old(process.freed) && process.sent == old(process.sent)
      ensures old(adapter) != null ==> old(adapter).kref == old(adapter.kref) - 1
      ensures binding != null ==>
        binding.deviceList ==
          if old(adapter) != null && old(inDeviceList) then Remove(old(binding.deviceList), this)
          else old(binding.deviceList)
      ensures inDeviceList == (old(inDeviceList) && old(adapter) == null)
      ensures handle == old(handle)
    {
      ghost var als, rs, ras, cs := allocList, resourceList, ResourceAllocs(), contextList;
      TeardownIfActive();
      Detach(als, rs, ras, cs);
    }

    /** The first part of `dxgdevice_destroy`: an active device is torn down, any other is left alone. */
    method TeardownIfActive()
      requires Wf()
      modifies this`objectState, this`allocList, this`resourceList, this`contextList, this`kref
      modifies this`handleValid, process`freed, process`sent
      modifies (set a | a in allocList), (set r | r in resourceList), ResourceAllocs()
      modifies (set c | c in contextList)
      ensures kref == old(kref)
        - (if old(IsActive()) then |old(allocList)| + |old(resourceList)| + |old(contextList)| else 0)
      ensures old(IsActive()) ==>
        objectState == ObjectDestroyed && !handleValid
        && allocList == [] && resourceList == [] && contextList == []
        && process.freed == old(process.freed) + old(TeardownHandles())
        && process.sent == old(process.sent) + old(TeardownMessages())
        && ChildrenGone(old(allocList), old(resourceList), old(ResourceAllocs()), old(contextList))
      ensures !old(IsActive()) ==>
        objectState == old(objectState) && handleValid == old(handleValid)
        && allocList == old(allocList) && resourceList == old(resourceList)
        && contextList == old(contextList)
        && process.freed == old(process.freed) && process.sent == old(process.sent)
    {
      if objectState == ObjectActive {
        Teardown();
      }
    }

    /**
      The `cleanup:` part of `dxgdevice_destroy`: a device still on an adapter leaves its
      binding's list, drops its adapter reference and forgets the adapter; the device reference
      is dropped. The states of the children listed (allocs, resources, resourceAllocs,
      contexts) are untouched.
    */
    method Detach(ghost allocs: seq<Allocation>, ghost resources: seq<Resource>,
                  ghost resourceAllocs: set<Allocation>, ghost contexts: seq<Context>)
      requires adapter != null ==> binding != null
      modifies this`adapter, this`kref, this`inDeviceList, Adapters()`kref, Bindings()`deviceList
      ensures adapter == null && kref == old(kref) - 1
      ensures old(adapter) != null ==> old(adapter).kref == old(adapter.kref) - 1
      ensures binding != null ==>
        binding.deviceList ==
          if old(adapter) != null && old(inDeviceList) then Remove(old(binding.deviceList), this)
          else old(binding.deviceList)
      ensures inDeviceList == (old(inDeviceList) && old(adapter) == null)
      ensures ChildrenGone(allocs, resources, resourceAllocs, contexts)
        == old(ChildrenGone(allocs, resources, resourceAllocs, contexts))
    {
      if adapter != null {
        binding.RemoveDevice(this);
        adapter.kref := adapter.kref - 1;
        adapter := null;
      }
      kref := kref - 1;
    }
  }

  /** `struct dxgprocess_adapter`: the binding of a process to an adapter. */
  class ProcessAdapter {
    const adapter: Adapter
    const process: Process
    var refcount: int
    /** device_list_head: the devices the process created on the adapter. */
    var deviceList: seq<Device>

    constructor (adapter: Adapter, process: Process)
      ensures this.adapter == adapter && this.process == process && refcount == 1 && deviceList == []
    {
      this.adapter := adapter;
      this.process := process;
      refcount := 1;
      deviceList := [];
    }

    /**
      `dxgprocess_adapter_create`: fails (null) when the allocation fails or the adapter has no
      reference left to share; otherwise takes an adapter reference and links a binding with
      one reference onto the process's and the adapter's lists.
    */
    static method Create(process: Process, adapter: Adapter, allocOk: bool) returns (b: ProcessAdapter?)
      modifies process`adapterList, adapter`kref, adapter`processList
      ensures !allocOk || old(adapter.kref) == 0 ==>
        b == null && process.adapterList == old(process.adapterList)
        && adapter.kref == old(adapter.kref) && adapter.processList == old(adapter.processList)
      ensures allocOk && old(adapter.kref) != 0 ==>
        b != null && fresh(b) && b.adapter == adapter && b.process == process
        && b.refcount == 1 && b.deviceList == []
        && process.adapterList == old(process.adapterList) + [b]
        && adapter.processList == old(adapter.processList) + [b]
        && adapter.kref == old(adapter.kref) + 1
    {
      if !allocOk || adapter.kref == 0 {
        return null;
      }
      adapter.kref := adapter.kref + 1;
      b := new ProcessAdapter(adapter, process);
      process.adapterList := process.adapterList + [b];
      adapter.processList := adapter.processList + [b];
    }

    /**
      `dxgprocess_adapter_add_device`: the device joins the device list of the first binding of
      the process to the adapter; with no such binding nothing changes and -EINVAL is returned.
    */
    static method AddDevice(process: Process, adapter: Adapter, device: Device) returns (ret: int)
      modifies (set b | b in process.adapterList)`deviceList, device`binding, device`inDeviceList
      ensures var k := BindingIndex(process.adapterList, adapter);
        && (k.None? ==>
              ret == -EINVAL && device.binding == old(device.binding)
              && device.inDeviceList == old(device.inDeviceList)
              && forall b | b in process.adapterList :: b.deviceList == old(b.deviceList))
        && (k.Some? ==>
              var e := process.adapterList[k.value];
              ret == 0 && device.binding == e && device.inDeviceList
              && e.deviceList == old(e.deviceList) + [device]
              && forall b | b in process.adapterList && b != e :: b.deviceList == old(b.deviceList))
    {
      var i := 0;
      while i < |process.adapterList|
        invariant 0 <= i <= |process.adapterList|
        invariant forall j | 0 <= j < i :: process.adapterList[j].adapter != adapter
      {
        var e := process.adapterList[i];
        if e.adapter == adapter {
          BindingIndexFirst(process.adapterList, adapter, i);
          e.deviceList := e.deviceList + [device];
          device.inDeviceList := true;
          device.binding := e;
          return 0;
        }
        i := i + 1;
      }
      return -EINVAL;
    }

    /** `dxgprocess_adapter_remove_device`: unlinks a device still in the list. */
    method RemoveDevice(d: Device)
      modifies this`deviceList, d`inDeviceList
      ensures !d.inDeviceList
      ensures deviceList == if old(d.inDeviceList) then Remove(old(deviceList), d) else old(deviceList)
    {
      if d.inDeviceList {
        deviceList := Remove(deviceList, d);
        d.inDeviceList := false;
      }
    }

    /** `dxgprocess_adapter_stop`: every device of the binding is stopped; none is destroyed. */
    method Stop()
      modifies (set d, a | d in deviceList && a in d.allocList :: a)`pages
      ensures forall d, a | d in deviceList && a in d.allocList :: !a.pages
    {
      var i := 0;
      while i < |deviceList|
        invariant 0 <= i <= |deviceList|
        invariant forall j, a | 0 <= j < i && a in deviceList[j].allocList :: !a.pages
      {
        var d := deviceList[i];
        d.Stop();
        i := i + 1;
      }
    }

    /**
      The devices of the binding are distinct, linked into its list, on its adapter and in its
      process, and each has the shape `dxgdevice_destroy` relies on.
    */
    predicate DevicesWf()
      reads this`deviceList, set d | d in deviceList
      reads set d, a | d in deviceList && a in d.allocList :: a
      reads set d, r | d in deviceList && r in d.resourceList :: r
      reads set d, x | d in deviceList && x in d.ResourceAllocs() :: x
      reads set d, c | d in deviceList && c in d.contextList :: c
    {
      Distinct(deviceList)
      && forall d | d in deviceList ::
           d.binding == this && d.adapter == adapter && d.process == process && d.inDeviceList && d.Wf()
    }

    /**
      One turn of the drain loop of `dxgprocess_adapter_destroy`: the first device is unlinked,
      a flush is sent for it and it is destroyed, which drops its adapter reference. The other
      devices and what they own are left alone.
    */
    method DestroyFirstDevice()
      requires DevicesWf() && deviceList != []
      modifies this`deviceList, process`freed, process`sent, adapter`kref, deviceList[0]
      modifies (set a | a in deviceList[0].allocList), (set r | r in deviceList[0].resourceList)
      modifies deviceList[0].ResourceAllocs(), (set c | c in deviceList[0].contextList)
      ensures deviceList == old(deviceList[1..]) && DevicesWf()
      ensures forall d | d in deviceList ::
        d.allocList == old(d.allocList) && d.resourceList == old(d.resourceList)
        && d.contextList == old(d.contextList) && d.ResourceAllocs() == old(d.ResourceAllocs())
      ensures adapter.kref == old(adapter.kref) - 1
      ensures process.freed + DevicesHandles(deviceList) == old(process.freed + DevicesHandles(deviceList))
      ensures process.sent + DevicesMessages(deviceList) == old(process.sent + DevicesMessages(deviceList))
      ensures var d := old(deviceList[0]); !d.inDeviceList && d.adapter == null && d.binding == this
    {
      var d := deviceList[0];
      var rest := deviceList[1..];
      assert d !in rest && forall d2 | d2 in rest :: d2 in deviceList;
      forall d2 | d2 in rest
        ensures DisjointDevices(d, d2)
      {
        DevicesDisjoint(d, d2);
      }
      ghost var f0, s0 := process.freed, process.sent;
      label before:
      UnlinkAndDestroy(d);
      DevicesKept@before(rest);
      AppendAssoc(f0, old(ActiveTeardownHandles(d)), DevicesHandles(rest));
      AppendAssoc(s0, old([FlushDeviceMsg(d.handle)] + ActiveTeardownMessages(d)), DevicesMessages(rest));
    }

    /** A turn of the drain loop that keeps the devices done detached. */
    method DestroyNextDevice(ghost done: seq<Device>)
      requires DevicesWf() && deviceList != [] && Detached(done)
      modifies this`deviceList, process`freed, process`sent, adapter`kref, deviceList[0]
      modifies (set a | a in deviceList[0].allocList), (set r | r in deviceList[0].resourceList)
      modifies deviceList[0].ResourceAllocs(), (set c | c in deviceList[0].contextList)
      ensures deviceList == old(deviceList[1..]) && DevicesWf()
      ensures forall d | d in deviceList ::
        d.allocList == old(d.allocList) && d.resourceList == old(d.resourceList)
        && d.contextList == old(d.contextList) && d.ResourceAllocs() == old(d.ResourceAllocs())
      ensures adapter.kref == old(adapter.kref) - 1
      ensures process.freed + DevicesHandles(deviceList) == old(process.freed + DevicesHandles(deviceList))
      ensures process.sent + DevicesMessages(deviceList) == old(process.sent + DevicesMessages(deviceList))
      ensures Detached(done + [old(deviceList[0])])
    {
      assert deviceList[0] in deviceList;
      assert deviceList[0] !in done;
      DestroyFirstDevice();
      assert Detached(done);
    }

    /** The body of one turn of the drain loop, for the first device d. */
    method UnlinkAndDestroy(d: Device)
      requires deviceList != [] && d == deviceList[0] && d.Wf()
      requires d.binding == this && d.adapter == adapter && d.process == process && d.inDeviceList
      modifies this`deviceList, process`freed, process`sent, adapter`kref, d
      modifies (set a | a in d.allocList), (set r | r in d.resourceList), d.ResourceAllocs()
      modifies (set c | c in d.contextList)
      ensures deviceList == old(deviceList[1..]) && adapter.kref == old(adapter.kref) - 1
      ensures process.freed == old(process.freed) + old(ActiveTeardownHandles(d))
      ensures process.sent == old(process.sent) + old([FlushDeviceMsg(d.handle)] + ActiveTeardownMessages(d))
      ensures !d.inDeviceList && d.adapter == null && d.binding == this
    {
      label before:
      UnlinkFirst(d);
      TeardownKept@before(d);
      d.Destroy();
    }

    /** The start of a turn of the drain loop: the first device d is unlinked and flushed. */
    method UnlinkFirst(d: Device)
      requires deviceList != [] && d == deviceList[0]
      modifies this`deviceList, d`inDeviceList, process`sent
      ensures deviceList == old(deviceList[1..]) && !d.inDeviceList
      ensures process.sent == old(process.sent) + [FlushDeviceMsg(d.handle)]
    {
      deviceList := deviceList[1..];
      d.inDeviceList := false;
      process.sent := process.sent + [FlushDeviceMsg(d.handle)];
    }

    /** The drain loop of `dxgprocess_adapter_destroy`: every device is destroyed in list order. */
    method DestroyDevices()
      requires DevicesWf()
      modifies this`deviceList, process`freed, process`sent, adapter`kref, set d | d in deviceList
      modifies set d, a | d in deviceList && a in d.allocList :: a
      modifies set d, r | d in deviceList && r in d.resourceList :: r
      modifies set d, x | d in deviceList && x in d.ResourceAllocs() :: x
      modifies set d, c | d in deviceList && c in d.contextList :: c
      ensures deviceList == [] && adapter.kref == old(adapter.kref) - |old(deviceList)|
      ensures process.freed == old(process.freed) + old(DevicesHandles(deviceList))
      ensures process.sent == old(process.sent) + old(DevicesMessages(deviceList))
      ensures Detached(old(deviceList))
    {
      ghost var snap := deviceList;
      ghost var i := 0;
      ghost var done: seq<Device> := [];
      while deviceList != []
        invariant 0 <= i <= |snap| && deviceList == snap[i..] && DevicesWf()
        invariant forall d | d in deviceList ::
          d.allocList == old(d.allocList) && d.resourceList == old(d.resourceList)
          && d.contextList == old(d.contextList) && d.ResourceAllocs() == old(d.ResourceAllocs())
        invariant adapter.kref == old(adapter.kref) - i
        invariant process.freed + DevicesHandles(deviceList) == old(process.freed + DevicesHandles(deviceList))
        invariant process.sent + DevicesMessages(deviceList) == old(process.sent + DevicesMessages(deviceList))
        invariant Detached(done) && forall j | 0 <= j < i :: snap[j] in done
        decreases |deviceList|
      {
        assert deviceList[0] in snap;
        ghost var d0 := deviceList[0];
        DestroyNextDevice(done);
        done := done + [d0];
        i := i + 1;
      }
    }

    /**
      `dxgprocess_adapter_destroy`: every device of the binding is destroyed, then the binding
      leaves its adapter's list, drops its adapter reference and leaves its process's list.
    */
    method Destroy()
      requires DevicesWf()
      modifies this`deviceList, process`freed, process`sent, process`adapterList
      modifies adapter`kref, adapter`processList, set d | d in deviceList
      modifies set d, a | d in deviceList && a in d.allocList :: a
      modifies set d, r | d in deviceList && r in d.resourceList :: r
      modifies set d, x | d in deviceList && x in d.ResourceAllocs() :: x
      modifies set d, c | d in deviceList && c in d.contextList :: c
      ensures deviceList == [] && adapter.kref == old(adapter.kref) - |old(deviceList)| - 1
      ensures process.freed == old(process.freed) + old(DevicesHandles(deviceList))
      ensures process.sent == old(process.sent) + old(DevicesMessages(deviceList))
      ensures adapter.processList == Remove(old(adapter.processList), this)
      ensures process.adapterList == Remove(old(process.adapterList), this)
      ensures Detached(old(deviceList))
    {
      DestroyDevices();
      adapter.processList := Remove(adapter.processList, this);
      adapter.kref := adapter.kref - 1;
      process.adapterList := Remove(process.adapterList, this);
    }

    /** `dxgprocess_adapter_release`: drops one reference and destroys the binding at zero. */
    method Release()
      requires DevicesWf()
      modifies this`refcount, this`deviceList, process`freed, process`sent, process`adapterList
      modifies adapter`kref, adapter`processList, set d | d in deviceList
      modifies set d, a | d in deviceList && a in d.allocList :: a
      modifies set d, r | d in deviceList && r in d.resourceList :: r
      modifies set d, x | d in deviceList && x in d.ResourceAllocs() :: x
      modifies set d, c | d in deviceList && c in d.contextList :: c
      ensures refcount == old(refcount) - 1
      ensures refcount == 0 ==>
        deviceList == [] && adapter.kref == old(adapter.kref) - |old(deviceList)| - 1
        && process.freed == old(process.freed) + old(DevicesHandles(deviceList))
        && process.sent == old(process.sent) + old(DevicesMessages(deviceList))
        && adapter.processList == Remove(old(adapter.processList), this)
        && process.adapterList == Remove(old(process.adapterList), this)
      ensures refcount == 0 ==> Detached(old(deviceList))
      ensures refcount != 0 ==>
        deviceList == old(deviceList) && adapter.kref == old(adapter.kref)
        && process.freed == old(process.freed) && process.sent == old(process.sent)
        && adapter.processList == old(adapter.processList)
        && process.adapterList == old(process.adapterList)
    {
      // Destroy does not read the count, so it may drop after the destruction.
      if refcount == 1 {
        Destroy();
      }
      refcount := refcount - 1;
    }
  }

  /** The results of the host calls `dxgadapter_set_vmbus` makes, as their return codes. */
  datatype VmbusOutcome = VmbusOutcome(
    channelInit: int,   // dxgvmbuschannel_init
    openAdapter: int,   // dxgvmb_send_open_adapter
    adapterInfo: int)   // dxgvmb_send_get_internal_adapter_info

  /**
    What `dxgadapter_set_vmbus` returns: the first failure of channel set-up or of opening the
    adapter, else the result of reading its information. A positive result of opening the
    adapter is not a failure.
  */
  function VmbusResult(o: VmbusOutcome): (ret: int)
    ensures ret == 0 <==> o.channelInit == 0 && o.openAdapter >= 0 && o.adapterInfo == 0
    ensures o.channelInit != 0 ==> ret == o.channelInit
    ensures o.channelInit == 0 && o.openAdapter < 0 ==> ret == o.openAdapter
  {
    if o.channelInit != 0 then o.channelInit
    else if o.openAdapter < 0 then o.openAdapter
    else o.adapterInfo
  }

  /**
    The global-channel step of `dxgadapter_start`: an initialised channel is left alone;
    otherwise it is initialised, and torn down again if that fails. The result is whether the
    start goes on.
  */
  method StartGlobalChannel(g: DxgModule.DxgGlobal, go: DxgModule.ChannelInitOutcome) returns (ready: bool)
    requires !g.globalChannelInitialized ==> g.hdev.Some?
    modifies g
    ensures ready == (old(g.globalChannelInitialized) || GlobalChannelStarts(go))
    ensures g.vgpuChannels == old(g.vgpuChannels) && g.vmbusVer == old(g.vmbusVer)
    ensures old(g.globalChannelInitialized) ==> unchanged(g)
    ensures !old(g.globalChannelInitialized) ==>
      if GlobalChannelStarts(go) then
        g.globalChannelInitialized && g.channelOpen && g.memAllocated && g.dxgDevInitialized
        && g.hdev == old(g.hdev)
      else
        !g.globalChannelInitialized && g.hdev == None && !g.channelOpen
        && !g.memAllocated && !g.dxgDevInitialized
  {
    if g.globalChannelInitialized {
      return true;
    }
    var ret := g.InitGlobalChannel(go);
    if ret != 0 {
      g.DestroyGlobalChannel();
      return false;
    }
    g.globalChannelInitialized := true;
    return true;
  }

  /** Whether `dxgglobal_init_global_channel` succeeds with these host results. */
  predicate GlobalChannelStarts(o: DxgModule.ChannelInitOutcome)
  {
    o.channelInit == 0 && o.mmioMegabytes != 0 && o.allocMmio == 0 && o.setIospace >= 0
    && o.miscRegister == 0
  }

  /** The position of the first offered vGPU channel whose LUID is luid, if there is one. */
  function ChannelIndex(chs: seq<DxgModule.VgpuChannel>, luid: WinLuid): (k: Option<nat>)
    ensures k.Some? ==>
      k.value < |chs| && chs[k.value].adapterLuid == luid
      && forall j | 0 <= j < k.value :: chs[j].adapterLuid != luid
    ensures k.None? <==> forall j | 0 <= j < |chs| :: chs[j].adapterLuid != luid
  {
    if chs == [] then None
    else if chs[0].adapterLuid == luid then Some(0)
    else match ChannelIndex(chs[1..], luid)
      case None => None
      case Some(j) => Some(j + 1)
  }

  /** A channel of LUID luid with none before it is the one ChannelIndex finds. */
  lemma ChannelIndexFirst(chs: seq<DxgModule.VgpuChannel>, luid: WinLuid, i: nat)
    requires i < |chs| && chs[i].adapterLuid == luid
    requires forall j | 0 <= j < i :: chs[j].adapterLuid != luid
    ensures ChannelIndex(chs, luid) == Some(i)
  {
  }

  /** The position of the first binding in bs to the adapter, if there is one. */
  function BindingIndex(bs: seq<ProcessAdapter>, adapter: Adapter): (k: Option<nat>)
    ensures k.Some? ==>
      k.value < |bs| && bs[k.value].adapter == adapter
      && forall j | 0 <= j < k.value :: bs[j].adapter != adapter
    ensures k.None? <==> forall j | 0 <= j < |bs| :: bs[j].adapter != adapter
  {
    if bs == [] then None
    else if bs[0].adapter == adapter then Some(0)
    else match BindingIndex(bs[1..], adapter)
      case None => None
      case Some(j) => Some(j + 1)
  }

  /** A binding to the adapter with none before it is the one BindingIndex finds. */
  lemma BindingIndexFirst(bs: seq<ProcessAdapter>, adapter: Adapter, i: nat)
    requires i < |bs| && bs[i].adapter == adapter
    requires forall j | 0 <= j < i :: bs[j].adapter != adapter
    ensures BindingIndex(bs, adapter) == Some(i)
  {
  }

  /** The handles destroying the device d frees: its teardown, if it is active. */
  function ActiveTeardownHandles(d: Device): seq<FreedHandle>
    reads d`objectState, d`allocList, d`resourceList, d`contextList, d`handleValid, d`handle
    reads (set a | a in d.allocList)`handleValid, (set a | a in d.allocList)`allocHandle
    reads (set r | r in d.resourceList)`handleValid, (set r | r in d.resourceList)`handle
    reads (set r | r in d.resourceList)`allocList, d.ResourceAllocs()`handleValid
    reads d.ResourceAllocs()`allocHandle, (set c | c in d.contextList)`handle
  {
    if d.IsActive() then d.TeardownHandles() else []
  }

  /** The host messages destroying the device d sends: its teardown, if it is active. */
  function ActiveTeardownMessages(d: Device): seq<HostMessage>
    reads d`objectState, d`allocList, d`resourceList, d`handleValid, d`handle, d`adapter
    reads (set a | a in d.allocList)`allocHandle, (set r | r in d.resourceList)`handle
    reads d.Adapters()`state
  {
    if d.IsActive() then d.TeardownMessages() else []
  }

  /** Changing nothing the teardown of the device d reads keeps what it frees and sends. */
  twostate lemma TeardownKept(d: Device)
    requires unchanged(d`objectState, d`allocList, d`resourceList, d`contextList, d`handleValid)
    requires unchanged(d`handle, d`adapter)
    requires forall a | a in d.allocList :: unchanged(a)
    requires forall r | r in d.resourceList :: unchanged(r)
    requires forall x | x in old(d.ResourceAllocs()) :: unchanged(x)
    requires forall c | c in d.contextList :: unchanged(c)
    requires forall x | x in old(d.Adapters()) :: unchanged(x`state)
    ensures ActiveTeardownHandles(d) == old(ActiveTeardownHandles(d))
    ensures ActiveTeardownMessages(d) == old(ActiveTeardownMessages(d))
  {
  }

  /** The handles the drain loop of `dxgprocess_adapter_destroy` frees for the devices ds. */
  function DevicesHandles(ds: seq<Device>): seq<FreedHandle>
    reads set d | d in ds, set d, a | d in ds && a in d.allocList :: a
    reads set d, r | d in ds && r in d.resourceList :: r
    reads set d, x | d in ds && x in d.ResourceAllocs() :: x
    reads set d, c | d in ds && c in d.contextList :: c
  {
    if ds == [] then [] else ActiveTeardownHandles(ds[0]) + DevicesHandles(ds[1..])
  }

  /** The host messages the drain loop sends for the devices ds: a flush, then the teardown. */
  function DevicesMessages(ds: seq<Device>): seq<HostMessage>
    reads set d | d in ds, set d, a | d in ds && a in d.allocList :: a
    reads set d, r | d in ds && r in d.resourceList :: r
    reads set d, x | d in ds && x in d.Adapters() :: x`state
  {
    if ds == [] then []
    else [FlushDeviceMsg(ds[0].handle)] + ActiveTeardownMessages(ds[0]) + DevicesMessages(ds[1..])
  }

  /** The devices d1 and d2 own no allocation, resource or context in common. */
  predicate DisjointDevices(d1: Device, d2: Device)
    reads d1`allocList, d1`resourceList, d1`contextList, (set r | r in d1.resourceList)`allocList
    reads d2`allocList, d2`resourceList, d2`contextList, (set r | r in d2.resourceList)`allocList
  {
    && (forall a | a in d2.allocList :: a !in d1.allocList && a !in d1.ResourceAllocs())
    && (forall r | r in d2.resourceList :: r !in d1.resourceList)
    && (forall x | x in d2.ResourceAllocs() :: x !in d1.allocList && x !in d1.ResourceAllocs())
    && (forall c | c in d2.contextList :: c !in d1.contextList)
  }

  /** Two distinct well-formed devices own no allocation, resource or context in common. */
  lemma DevicesDisjoint(d1: Device, d2: Device)
    requires d1 != d2 && d1.Wf() && d2.Wf()
    ensures DisjointDevices(d1, d2)
  {
    forall x | x in d1.ResourceAllocs()
      ensures x.resourceOwner && x.owner.OwnedByResource? && x.owner.resource.device == d1
    {
      d1.ResourceAllocOwner(x);
    }
    forall x | x in d2.ResourceAllocs()
      ensures x.resourceOwner && x.owner.OwnedByResource? && x.owner.resource.device == d2
    {
      d2.ResourceAllocOwner(x);
    }
  }

  /** Leaving the devices ds and everything they own alone keeps what destroying them does. */
  twostate lemma {:induction false} DevicesKept(ds: seq<Device>)
    requires forall d | d in ds :: unchanged(d)
    requires forall d, a | d in ds && a in d.allocList :: unchanged(a)
    requires forall d, r | d in ds && r in d.resourceList :: unchanged(r)
    requires forall d, x | d in ds && x in old(d.ResourceAllocs()) :: unchanged(x)
    requires forall d, c | d in ds && c in d.contextList :: unchanged(c)
    requires forall d, x | d in ds && x in old(d.Adapters()) :: unchanged(x`state)
    ensures forall d | d in ds :: d.ResourceAllocs() == old(d.ResourceAllocs()) && d.Wf() == old(d.Wf())
    ensures DevicesHandles(ds) == old(DevicesHandles(ds))
    ensures DevicesMessages(ds) == old(DevicesMessages(ds))
  {
    forall d | d in ds
      ensures d.ResourceAllocs() == old(d.ResourceAllocs())
    {
    }
    if ds != [] {
      assert ds[0] in ds && forall d | d in ds[1..] :: d in ds;
      TeardownKept(ds[0]);
      DevicesKept(ds[1..]);
    }
  }

  /**
    The state `dxgdevice_destroy` leaves the children of an active device in: its allocations
    and its resources' allocations released, its resources gone and its contexts closed.
  */
  ghost predicate ChildrenGone(allocs: seq<Allocation>, resources: seq<Resource>,
                               resourceAllocs: set<Allocation>, contexts: seq<Context>)
    reads (set a | a in allocs)`pages, (set a | a in allocs)`linked, (set a | a in allocs)`handleValid
    reads (set r | r in resources)`destroyFlag, (set r | r in resources)`linked
    reads (set r | r in resources)`allocList, (set r | r in resources)`handleValid
    reads resourceAllocs`pages, resourceAllocs`linked, resourceAllocs`handleValid
    reads (set c | c in contexts)`objectState, (set c | c in contexts)`linked
  {
    (forall a | a in allocs :: a.Released())
    && (forall r | r in resources :: r.Gone())
    && (forall a | a in resourceAllocs :: a.Released())
    && (forall c | c in contexts :: c.Closed())
  }

  /** Every device of ds has left its binding's list and forgotten its adapter. */
  predicate Detached(ds: seq<Device>)
    reads (set d | d in ds)`inDeviceList, (set d | d in ds)`adapter
  {
    forall d | d in ds :: !d.inDeviceList && d.adapter == null
  }

  /** The resources gone are all gone and the allocations freed all released. */
  ghost predicate Finished(gone: seq<Resource>, freed: set<Allocation>)
    reads (set r | r in gone)`destroyFlag, (set r | r in gone)`linked
    reads (set r | r in gone)`allocList, (set r | r in gone)`handleValid
    reads freed`pages, freed`linked, freed`handleValid
  {
    (forall r | r in gone :: r.Gone()) && (forall a | a in freed :: a.Released())
  }

  /** The handles that freeing the handles of the allocations s in turn frees, in order. */
  function AllocHandles(s: seq<Allocation>): seq<FreedHandle>
    reads (set a | a in s)`handleValid, (set a | a in s)`allocHandle
  {
    if s == [] then [] else s[0].HandleToFree() + AllocHandles(s[1..])
  }

  /** Leaving the handles of the allocations s alone keeps what destroying them frees and sends. */
  twostate lemma AllocHandlesKept(s: seq<Allocation>)
    requires forall x | x in s :: unchanged(x`handleValid, x`allocHandle)
    ensures AllocHandles(s) == old(AllocHandles(s))
    ensures forall h: U32 :: DeviceAllocMessages(s, h) == old(DeviceAllocMessages(s, h))
  {
  }

  /** The allocation loop of `dxgresource_free_handle`: each handle of s is freed in turn. */
  method FreeAllocHandles(s: seq<Allocation>, p: Process)
    requires Distinct(s) && forall a | a in s :: a.process == p
    modifies p`freed, set a | a in s :: a`handleValid
    ensures forall a | a in s :: !a.handleValid
    ensures p.freed == old(p.freed) + old(AllocHandles(s))
  {
    var i := 0;
    while i < |s|
      invariant 0 <= i <= |s|
      invariant forall j | 0 <= j < i :: !s[j].handleValid
      invariant p.freed + AllocHandles(s[i..]) == old(p.freed + AllocHandles(s))
    {
      var a := s[i];
      assert a in s && a !in s[i + 1..];
      assert s[i..][1..] == s[i + 1..];
      ghost var f0 := p.freed;
      label before:
      a.FreeHandle();
      AllocHandlesKept@before(s[i + 1..]);
      AppendAssoc(f0, old@before(a.HandleToFree()), AllocHandles(s[i + 1..]));
      i := i + 1;
    }
    assert s[i..] == [] && s[0..] == s;
  }

  /**
    Destroying objects other than the resources rs and their allocations keeps the allocations
    of rs, what destroying them frees and sends, and their well-formedness.
  */
  twostate lemma ResourceSeqKept(rs: seq<Resource>)
    requires forall r | r in rs :: unchanged(r)
    requires forall x | x in old(AllocsOf(rs)) ::
      unchanged(x`linked, x`resourceOwner, x`owner, x`handleValid, x`allocHandle)
    ensures AllocsOf(rs) == old(AllocsOf(rs))
    ensures ResourceHandles(rs) == old(ResourceHandles(rs))
    ensures forall h: U32 :: ResourceMessages(rs, h) == old(ResourceMessages(rs, h))
    ensures forall r | r in rs :: r.AllocsWf() == old(r.AllocsWf())
  {
    assert AllocsOf(rs) == old(AllocsOf(rs));
    forall r | r in rs
      ensures r.AllocsWf() == old(r.AllocsWf())
    {
      var k :| 0 <= k < |rs| && rs[k] == r;
      assert forall a | a in r.allocList :: a in old(AllocsOf(rs));
    }
  }

  /** The handles freed by destroying the resources rs in turn. */
  function ResourceHandles(rs: seq<Resource>): seq<FreedHandle>
    reads (set r | r in rs)`handleValid, (set r | r in rs)`handle, (set r | r in rs)`allocList
    reads AllocsOf(rs)`handleValid, AllocsOf(rs)`allocHandle
  {
    if rs == [] then [] else rs[0].HandlesToFree() + ResourceHandles(rs[1..])
  }

  /** The allocations of the resources rs: exactly those in the list of one of them. */
  function AllocsOf(rs: seq<Resource>): (m: set<Allocation>)
    reads (set r | r in rs)`allocList
    ensures forall i, a | 0 <= i < |rs| && a in rs[i].allocList :: a in m
    ensures forall a | a in m :: exists i :: 0 <= i < |rs| && a in rs[i].allocList
  {
    if rs == [] then {}
    else
      var tail := AllocsOf(rs[1..]);
      assert forall i, a | 0 < i < |rs| && a in rs[i].allocList :: a in tail by {
        forall i, a | 0 < i < |rs| && a in rs[i].allocList
          ensures a in tail
        {
          assert rs[1..][i - 1] == rs[i];
        }
      }
      assert forall a | a in tail :: exists i :: 0 <= i < |rs| && a in rs[i].allocList by {
        forall a | a in tail
          ensures exists i :: 0 <= i < |rs| && a in rs[i].allocList
        {
          var k :| 0 <= k < |rs| - 1 && a in rs[1..][k].allocList;
          assert a in rs[k + 1].allocList;
        }
      }
      (set a | a in rs[0].allocList) + tail
  }

  /** The handles freed by destroying the contexts cs of a device in turn. */
  function ContextHandles(cs: seq<Context>): seq<FreedHandle>
    reads (set c | c in cs)`handle
  {
    if cs == [] then [] else cs[0].HandleToFree() + ContextHandles(cs[1..])
  }

  /** The host message destroying the device-owned allocation a of the device with handle h. */
  function DeviceAllocMessage(a: Allocation, h: U32): seq<HostMessage>
    reads a`allocHandle
  {
    if a.allocHandle != 0 then [DestroyAllocationMsg(h, 0, a.allocHandle)] else []
  }

  /** The host messages destroying the allocations s of the device with handle h sends. */
  function DeviceAllocMessages(s: seq<Allocation>, h: U32): seq<HostMessage>
    reads (set a | a in s)`allocHandle
  {
    if s == [] then [] else DeviceAllocMessage(s[0], h) + DeviceAllocMessages(s[1..], h)
  }

  /** The host message destroying the resource r of the device with handle h sends. */
  function ResourceMessage(r: Resource, h: U32): seq<HostMessage>
    reads r`handle
  {
    if r.handle != 0 then [DestroyAllocationMsg(h, r.handle, 0)] else []
  }

  /** The host messages destroying the resources rs of the device with handle h sends. */
  function ResourceMessages(rs: seq<Resource>, h: U32): seq<HostMessage>
    reads (set r | r in rs)`handle
  {
    if rs == [] then [] else ResourceMessage(rs[0], h) + ResourceMessages(rs[1..], h)
  }

  /** Whether a host message is a device flush. */
  predicate IsFlush(m: HostMessage)
  {
    m.FlushDeviceMsg?
  }

  /** One flush per device of ds, in list order. */
  function Flushes(ds: seq<Device>): seq<HostMessage>
    reads (set d | d in ds)`handle
  {
    if ds == [] then [] else [FlushDeviceMsg(ds[0].handle)] + Flushes(ds[1..])
  }

  /** Destroying the device-owned allocations s sends allocation destructions only. */
  lemma {:induction false} DeviceAllocMessagesDestroyOnly(s: seq<Allocation>, h: U32)
    ensures forall k | 0 <= k < |DeviceAllocMessages(s, h)| :: DeviceAllocMessages(s, h)[k].DestroyAllocationMsg?
  {
    if s != [] {
      DeviceAllocMessagesDestroyOnly(s[1..], h);
      var m, rest := DeviceAllocMessage(s[0], h), DeviceAllocMessages(s[1..], h);
      assert forall k | |m| <= k < |m + rest| :: (m + rest)[k] == rest[k - |m|];
    }
  }

  /** Destroying the resources rs sends allocation destructions only. */
  lemma {:induction false} ResourceMessagesDestroyOnly(rs: seq<Resource>, h: U32)
    ensures forall k | 0 <= k < |ResourceMessages(rs, h)| :: ResourceMessages(rs, h)[k].DestroyAllocationMsg?
  {
    if rs != [] {
      ResourceMessagesDestroyOnly(rs[1..], h);
      var m, rest := ResourceMessage(rs[0], h), ResourceMessages(rs[1..], h);
      assert forall k | |m| <= k < |m + rest| :: (m + rest)[k] == rest[k - |m|];
    }
  }

  /** The teardown of a device sends no flush. */
  lemma TeardownSendsNoFlush(d: Device)
    ensures forall k | 0 <= k < |ActiveTeardownMessages(d)| :: !IsFlush(ActiveTeardownMessages(d)[k])
  {
    DeviceAllocMessagesDestroyOnly(d.allocList, d.handle);
    ResourceMessagesDestroyOnly(d.resourceList, d.handle);
  }

  /**
    The drain loop of `dxgprocess_adapter_destroy` flushes every device exactly once, in list
    order, and sends no other flush.
  */
  lemma {:induction false} DrainFlushesEachDevice(ds: seq<Device>)
    ensures Only(DevicesMessages(ds), IsFlush) == Flushes(ds)
  {
    if ds != [] {
      var f, t, rest := [FlushDeviceMsg(ds[0].handle)], ActiveTeardownMessages(ds[0]), DevicesMessages(ds[1..]);
      assert DevicesMessages(ds) == f + t + rest;
      OnlyAppend(f + t, rest, IsFlush);
      OnlyAppend(f, t, IsFlush);
      TeardownSendsNoFlush(ds[0]);
      OnlyNone(t, IsFlush);
      assert Only(f, IsFlush) == Only([], IsFlush) + [f[0]] by {
        assert f[..0] == [];
      }
      DrainFlushesEachDevice(ds[1..]);
    }
  }

  /** Freeing the handles of the allocations s frees allocation handles only. */
  lemma {:induction false} AllocHandlesKind(s: seq<Allocation>)
    ensures forall k | 0 <= k < |AllocHandles(s)| :: AllocHandles(s)[k].kind == Hmgr.DxgAllocation
  {
    if s != [] {
      AllocHandlesKind(s[1..]);
      var m, rest := s[0].HandleToFree(), AllocHandles(s[1..]);
      assert forall k | |m| <= k < |m + rest| :: (m + rest)[k] == rest[k - |m|];
    }
  }

  /** Destroying the resources rs frees resource and allocation handles only. */
  lemma {:induction false} ResourceHandlesKind(rs: seq<Resource>)
    ensures forall k | 0 <= k < |ResourceHandles(rs)| ::
      ResourceHandles(rs)[k].kind in {Hmgr.DxgResource, Hmgr.DxgAllocation}
  {
    if rs != [] {
      ResourceHandlesKind(rs[1..]);
      var r := rs[0];
      var own := if r.handleValid then [FreedHandle(Hmgr.DxgResource, r.handle)] else [];
      AllocHandlesKind(r.allocList);
      var m, rest := r.HandlesToFree(), ResourceHandles(rs[1..]);
      assert m == own + AllocHandles(r.allocList);
      assert forall k | |own| <= k < |m| :: m[k] == AllocHandles(r.allocList)[k - |own|];
      assert forall k | |m| <= k < |m + rest| :: (m + rest)[k] == rest[k - |m|];
    }
  }

  /** Destroying the contexts cs frees context handles only. */
  lemma {:induction false} ContextHandlesKind(cs: seq<Context>)
    ensures forall k | 0 <= k < |ContextHandles(cs)| :: ContextHandles(cs)[k].kind == Hmgr.DxgContext
  {
    if cs != [] {
      ContextHandlesKind(cs[1..]);
      var m, rest := cs[0].HandleToFree(), ContextHandles(cs[1..]);
      assert forall k | |m| <= k < |m + rest| :: (m + rest)[k] == rest[k - |m|];
    }
  }

  /**
    The cascade order of the teardown in `dxgdevice_destroy`: no allocation or resource handle
    is freed after a context handle, and the device's own handle is freed last, exactly when
    it is valid.
  */
  lemma TeardownHandleOrder(d: Device)
    ensures var h := d.TeardownHandles();
      && (forall i, j | 0 <= i < j < |h| && h[i].kind == Hmgr.DxgContext ::
            h[j].kind in {Hmgr.DxgContext, Hmgr.DxgDevice})
      && (forall i | 0 <= i < |h| && h[i].kind == Hmgr.DxgDevice :: i == |h| - 1 && h[i].handle == d.handle)
      && (d.handleValid <==> h != [] && h[|h| - 1] == FreedHandle(Hmgr.DxgDevice, d.handle))
  {
    var a, r, c, o := AllocHandles(d.allocList), ResourceHandles(d.resourceList),
      ContextHandles(d.contextList), d.OwnHandle();
    var h := d.TeardownHandles();
    assert h == a + r + c + o;
    AllocHandlesKind(d.allocList);
    ResourceHandlesKind(d.resourceList);
    ContextHandlesKind(d.contextList);
    forall i | 0 <= i < |h|
      ensures h[i].kind == Hmgr.DxgContext ==> i >= |a| + |r|
      ensures i >= |a| + |r| ==> h[i].kind in {Hmgr.DxgContext, Hmgr.DxgDevice}
      ensures h[i].kind == Hmgr.DxgDevice ==> i == |h| - 1 && h[i].handle == d.handle
    {
      if i < |a| {
        assert h[i] == a[i];
      } else if i < |a| + |r| {
        assert h[i] == r[i - |a|];
      } else if i < |a| + |r| + |c| {
        assert h[i] == c[i - |a| - |r|];
      } else {
        assert h[i] == o[i - |a| - |r| - |c|];
      }
    }
  }
}
