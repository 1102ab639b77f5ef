# dxgkrnl core, modelled in Dafny

This project models the guest side of the Hyper-V GPU paravirtualisation driver `dxgkrnl`
as sequential Dafny. It also models the string primitives that the kernel's KUnit suite
`lib/string_kunit.c` pins down. Each C file of the core has one module:

- `dxgadapter.dfy` (module `DxgAdapter`) models the object graph of `dxgadapter.c`. Adapters,
  process-adapter bindings, devices, resources, allocations and contexts are classes whose
  fields the operations update in place. The intrusive lists are `seq` fields. Reference
  counts are integers. Lifecycle states and one-shot flags are fields. Each process records,
  in order, the handles the graph frees from its handle table and the messages it sends to
  the host. This makes the cascade order of the destroy paths observable and provable.
- `hmgr.dfy` (`Hmgr`) models the free-list policy that the handle-table header describes, and
  the entry-type tag enum. The policy is a queue threaded through an entry array: allocation
  takes the head, and a freed entry goes after the tail. `HandleTable` is that array with
  head, tail and free count. `Allocated` says which indices a run of requests hands out.
- `ioctl.dfy` (`Ioctl`) models the ioctl table that `init_ioctls` fills, and the chain of
  checks in `dxgk_ioctl`. It also models the adapter enumerations (`dxgk_enum_adapters`,
  `dxgkp_enum_adapters`, `dxgk_enum_adapters3`) with their rollback of opened handles,
  `dxgk_open_adapter_from_luid` and `dxgk_query_adapter_info`.
- `dxgmodule.dfy` (`DxgModule`) models the global driver state `dxgglobal`. It covers the
  VM-bus interface version negotiation of `dxg_pci_probe_device`, the dword-read loop,
  the vGPU channel list of `dxg_probe_vmbus`/`dxg_remove_vmbus`, and the set-up and
  teardown of the global channel.
- `d3dkmthk.dfy` (`D3dkmthk`) models the uapi bit-field unions (`d3dkmthandle`, `ntstatus`,
  the flag groups), the 64-bit LUID comparison and the `LX_DX*` ioctl words. The unions are
  laid out by the generic LSB-first C bit-field model in `bitfields.dfy` (`BitFields`).
- `misc.dfy` (`Misc`) models `NT_SUCCESS` and the `STATUS_*` constants.
- `dxgkrnl.dfy` (`Dxgkrnl`) models `guid_to_luid` and the interface version constants.
- `string_kunit.dfy` (`KString`) models the fills `memset16/32/64` as in-place array
  methods. It also models `strchr`, `strnchr`, `strspn`, `strcspn`, `strcmp`, `strncmp`,
  `strcasecmp` and `strncasecmp` as functions over buffers. Their contracts characterise
  each result against the string contents and an independent lexicographic order. Every
  assertion of the suite is a lemma.

Small helper modules:

- `wrappers.dfy` holds `Option`.
- `errno.dfy` holds the Linux errno values, which the sources use but do not define.
- `lists.dfy` holds removal from a list and filtering.

Outside calls become parameters. These are the host messages (`dxgvmb_send_*`), PCI
config-space accesses, user-memory copies, allocations and `dxgprocess_open_adapter`. A
parameter is either an outcome value or a function from position to result. The model
covers every outcome.

## Model

| member | source | states |
|---|---|---|
| `BitFields.Pack` | include/uapi/misc/d3dkmthk.h:22-31 | The word whose fields hold the given values (first field lowest) fits in the layout's total width. |
| `BitFields.Unpack` | include/uapi/misc/d3dkmthk.h:22-31 | The fields read from a word fit their widths, and packing them gives the word back. |
| `BitFields.UnpackPack` | include/uapi/misc/d3dkmthk.h:22-31 | Unpacking a packed word gives the same fields back, so packing is injective. |
| `BitFields.FieldIsShiftMask` | include/uapi/misc/d3dkmthk.h:22-31 | Field i of a word equals the word shifted right by the field's offset and masked to its width. This is how C reads a bit-field. |
| `D3dkmthk.HandleLayoutIsWord` | include/uapi/misc/d3dkmthk.h:22-31 | instance:6, index:24 and unique:2 cover exactly the 32 bits of `v`. |
| `D3dkmthk.HandleOffsets` | include/uapi/misc/d3dkmthk.h:22-31 | index starts at bit 6 and unique at bit 30. |
| `D3dkmthk.HandleValue` | include/uapi/misc/d3dkmthk.h:22-31 | The value of a handle has instance in bits 0..5, index in bits 6..29 and unique in bits 30..31. |
| `D3dkmthk.HandleOfValue` | include/uapi/misc/d3dkmthk.h:22-31 | Every 32-bit value splits into valid fields whose packed value is that value (unpack then pack is the identity). |
| `D3dkmthk.HandleRoundTrip` | include/uapi/misc/d3dkmthk.h:22-31 | Pack then unpack is the identity on valid handles. |
| `D3dkmthk.Bits` | include/uapi/misc/d3dkmthk.h:39-49 | The 32-bit pattern of an `int` is the value itself when non-negative, else the value plus 2^32. |
| `D3dkmthk.StatusLayoutIsWord` | include/uapi/misc/d3dkmthk.h:39-49 | code:16, facility:13, customer:1 and severity:2 cover the 32 bits, and severity starts at bit 30. |
| `D3dkmthk.StatusFields` | include/uapi/misc/d3dkmthk.h:39-49 | The signed bit-fields of a status lie in their two's-complement ranges. |
| `D3dkmthk.NegativeIffSeverityNegative` | include/uapi/misc/d3dkmthk.h:39-49 | A status value is negative exactly when its severity field reads negative. |
| `D3dkmthk.AllocationListFlagsWidth` | include/uapi/misc/d3dkmthk.h:95-106 | The allocation-list flag fields fill the 32-bit `value`. |
| `D3dkmthk.CreateDeviceFlagsWidth` | include/uapi/misc/d3dkmthk.h:123-129 | The four create-device flags and reserved:28 fill 32 bits (the struct has no `value` member). |
| `D3dkmthk.CreateContextFlagsWidth` | include/uapi/misc/d3dkmthk.h:173-185 | The create-context flag fields fill the 32-bit `value`. |
| `D3dkmthk.SignalFlagsWidth` | include/uapi/misc/d3dkmthk.h:396-407 | The signal flag fields fill the 32-bit `value`. |
| `D3dkmthk.PatchLocationWidth` | include/uapi/misc/d3dkmthk.h:108-121 | slot_id:24 and reserved:8 fill the 32-bit `value`. |
| `D3dkmthk.CreateHwQueueAndWaitFlagsWidth` | include/uapi/misc/d3dkmthk.h:206-214 | The create-hardware-queue flags fill the 32-bit `value`, and so do the wait-from-CPU flags of lines 425-433. |
| `D3dkmthk.SyncObjectFlagsWidth` | include/uapi/misc/d3dkmthk.h:297-312 | The synchronization-object flags declare 31 bits: eight one-bit flags and reserved:23, so bit 31 of `value` is unnamed. |
| `D3dkmthk.SubmitCommandFlagsWidth` | include/uapi/misc/d3dkmthk.h:530-534 | The submit-command flags fill 32 bits. |
| `D3dkmthk.StandardAndDestroy2FlagsWidth` | include/uapi/misc/d3dkmthk.h:591-598 | The create-standard-allocation flags fill 32 bits, and so do the destroy-allocation-2 flags of lines 699-709. |
| `D3dkmthk.CreateAllocationFlagsWidth` | include/uapi/misc/d3dkmthk.h:639-664 | Eighteen one-bit flags and reserved:14 fill the 32-bit `value`. |
| `D3dkmthk.AllocationInfo2FlagsWidth` | include/uapi/misc/d3dkmthk.h:622-630 | The `flags` of `d3dddi_allocationinfo2` (primary, stereo, override_priority and reserved:29) fill the 32-bit `value`. |
| `D3dkmthk.AdapterTypeWidth` | include/uapi/misc/d3dkmthk.h:723-743 | The thirteen one-bit adapter-type flags and reserved:19 fill the 32-bit `value`. |
| `D3dkmthk.EnumAdaptersFilterWidth` | include/uapi/misc/d3dkmthk.h:935-942 | include_compute_only, include_display_only and reserved:62 fill the 64-bit `value` of the enumeration filter. |
| `D3dkmthk.FlagLayoutsAreWords` | include/uapi/misc/d3dkmthk.h:95-942 | All fifteen bit-field groups of the header fit their word. Thirteen fill 32 bits exactly: allocation list, patch location, create device, create context, create hardware queue, signal, wait from CPU, submit command, create standard allocation, create allocation, destroy allocation 2, allocation info 2 and adapter type. The enumeration filter fills its 64 bits. The synchronization-object flags stop at 31 bits. |
| `D3dkmthk.FlagPositions` | include/uapi/misc/d3dkmthk.h:95-709 | The internal signal flag and `system_use_only` of destroy allocation 2 are bit 31. `offer_priority` occupies bits 2..4. |
| `D3dkmthk.Luid64` | include/uapi/misc/d3dkmthk.h:56-59 | The `u64` view of a LUID (a low, b high) is below 2^64. |
| `D3dkmthk.Luid64Injective` | include/uapi/misc/d3dkmthk.h:56-59 | Two LUIDs have the same 64-bit value iff both `a` and `b` are equal. |
| `D3dkmthk.IocLayoutIsWord` | include/uapi/misc/d3dkmthk.h:967-1032 | The `_IOC` number, type, size and direction fields fill 32 bits, and the type starts at bit 8. |
| `D3dkmthk.IoWR` | include/uapi/misc/d3dkmthk.h:967-1032 | An `_IOWR` word carries its command number in the low byte. |
| `D3dkmthk.IocNr` | drivers/hv/dxgkrnl/ioctl.c:450 | `_IOC_NR` is below 0x100. |
| `D3dkmthk.IocType` | drivers/hv/dxgkrnl/ioctl.c:456 | `_IOC_TYPE` is below 0x100. |
| `D3dkmthk.IoWRFields` | include/uapi/misc/d3dkmthk.h:967-1032 | The number and magic of an `_IOWR` word read back as the ones it was built from. |
| `D3dkmthk.LxCommandNumbersDistinct` | include/uapi/misc/d3dkmthk.h:967-1032 | The `LX_DX*` command numbers are pairwise distinct and fit 8 bits. |
| `D3dkmthk.LxIoctlsDistinct` | include/uapi/misc/d3dkmthk.h:967-1032 | Every `LX_DX*` word has magic 0x47, and distinct numbers give distinct words. |
| `Misc.Int32Of` | drivers/hv/dxgkrnl/misc.h:35-51 | The `int` cast of a 32-bit constant keeps its bits, and it is negative iff the top bit is set. |
| `Misc.Int32OfBits` | drivers/hv/dxgkrnl/misc.h:35-51 | Casting a bit pattern back gives the same `int`. |
| `Misc.NtSuccessIffSeverity` | drivers/hv/dxgkrnl/misc.h:54 | `NT_SUCCESS` holds exactly when the severity field reads non-negative. |
| `Misc.ErrorCodeSeverity` | drivers/hv/dxgkrnl/misc.h:36-51 | Every 0xC… code fails `NT_SUCCESS` and has severity -1 (binary 11). |
| `Misc.StatusClassification` | drivers/hv/dxgkrnl/misc.h:35-54 | SUCCESS, TIMEOUT and PENDING pass `NT_SUCCESS`. Every failure constant fails it. All the constants are pairwise distinct. |
| `Dxgkrnl.WordBytesIsWord` | drivers/hv/dxgkrnl/dxgkrnl.h:106-109 | Four bytes make up a 32-bit word. |
| `Dxgkrnl.WordImage` | drivers/hv/dxgkrnl/dxgkrnl.h:106-109 | A word is stored as four bytes, lowest address first. |
| `Dxgkrnl.WordOf` | drivers/hv/dxgkrnl/dxgkrnl.h:106-109 | The word that four bytes hold has those bytes as its image. |
| `Dxgkrnl.WordImageInjective` | drivers/hv/dxgkrnl/dxgkrnl.h:106-109 | Distinct words have distinct byte images. |
| `Dxgkrnl.LuidImage` | drivers/hv/dxgkrnl/dxgkrnl.h:106-109 | A LUID is stored as eight bytes: `a`, then `b`. |
| `Dxgkrnl.GuidToLuid` | drivers/hv/dxgkrnl/dxgkrnl.h:106-109 | The LUID of a GUID is the one stored in its first eight bytes: `a` from bytes 0-3, `b` from bytes 4-7. |
| `Dxgkrnl.LuidImageInjective` | drivers/hv/dxgkrnl/dxgkrnl.h:106-109 | Two LUIDs are equal iff their byte images are. |
| `Dxgkrnl.GuidToLuidUsesFirstEightBytes` | drivers/hv/dxgkrnl/dxgkrnl.h:106-109 | Two GUIDs give the same LUID iff their first eight bytes agree, so bytes 8-15 do not matter. |
| `Dxgkrnl.VersionOrder` | drivers/hv/dxgkrnl/dxgkrnl.h:123-125 | LAST_COMPATIBLE (16) <= OLD (27) < CURRENT (40). |
| `Hmgr.Tag` | drivers/hv/dxgkrnl/hmgr.h:50-73 | Tag 0 is FREE and nothing else. Every tag except MONITOREDFENCE lies below `HMGRENTRY_TYPE_LIMIT`. |
| `Hmgr.TypeOfTag` | drivers/hv/dxgkrnl/hmgr.h:50-73 | The type found for a tag value has that value. |
| `Hmgr.TagRoundTrip` | drivers/hv/dxgkrnl/hmgr.h:50-73 | Each enumerator is recovered from its value, so the values are pairwise distinct. |
| `Hmgr.TagRange` | drivers/hv/dxgkrnl/hmgr.h:48-73 | LIMIT is 2^5 - 1 = 31. A tag fits 5 bits iff it is not MONITOREDFENCE, which is 32. |
| `Hmgr.Allocated` | drivers/hv/dxgkrnl/hmgr.h:21-34 | A run of requests hands out no more indices than there are requests. Each index handed out was on the free list or was released by one of the requests. |
| `Hmgr.FreeListIsFifo` | drivers/hv/dxgkrnl/hmgr.h:21-34 | An index at position p of the free list is not handed out by the first p allocations, whatever frees come between, and is the one allocation p+1 hands out. |
| `Hmgr.FreedHandleNotReusedEarly` | drivers/hv/dxgkrnl/hmgr.h:21-34 | A handle freed onto a list of at least `HMGRTABLE_MIN_FREE_ENTRIES` entries is not reused by the next that many allocations. |
| `Hmgr.HandleTable.constructor` | drivers/hv/dxgkrnl/hmgr.h:35-43 | A new table has every entry free, listed in index order. |
| `Hmgr.HandleTable.AllocHandle` | drivers/hv/dxgkrnl/hmgr.h:21-43 | Allocation succeeds iff more than the minimum number of entries are free. It then takes the head of the free list, leaves the rest of the list in order, and types exactly that entry. Otherwise the list and the entries are unchanged. The index is the one `Allocated` gives for one request, and the table invariant is kept. |
| `Hmgr.HandleTable.FreeHandle` | drivers/hv/dxgkrnl/hmgr.h:21-43 | Freeing succeeds iff the entry is in range and holds that type. The index, which was not on the list, is then appended after the tail: the entry becomes free and the old tail links to it, and no other entry changes. Otherwise the list and the entries are unchanged. The table invariant is kept. |
| `Hmgr.AllocatedOne` | drivers/hv/dxgkrnl/hmgr.h:21-34 | One request hands out the head iff more than the minimum number are free, and nothing otherwise. |
| `Hmgr.AllocKeepsTable` | drivers/hv/dxgkrnl/hmgr.h:35-43 | Typing the head entry and moving the head to its successor keeps the table invariant, with the rest of the list still free and chained. |
| `Hmgr.FreeKeepsTable` | drivers/hv/dxgkrnl/hmgr.h:35-43 | Freeing a valid typed entry and linking it after the tail keeps the table invariant on the list extended by that index. |
| `Hmgr.Indices` | drivers/hv/dxgkrnl/hmgr.h:24-27 | The initial free list is 0 .. n-1 in order. |
| `DxgModule.DxgGlobal.constructor` | drivers/hv/dxgkrnl/dxgmodule.c:457-475 | `dxgglobal_create`: version 0, no device, empty channel list, every flag false. |
| `DxgModule.DxgGlobal.AcquireChannelLock` | drivers/hv/dxgkrnl/dxgmodule.c:49-58 | Returns 0 iff the global channel is open, and -ENODEV otherwise. |
| `DxgModule.DwordReads` | drivers/hv/dxgkrnl/dxgmodule.c:137-153 | The reads are n dwords at offset + 4k, in order. |
| `DxgModule.ReadDwordsSpec` | drivers/hv/dxgkrnl/dxgmodule.c:137-153 | At most n dwords are stored, and exactly n when the read succeeds. |
| `DxgModule.ReadDwordsMeaning` | drivers/hv/dxgkrnl/dxgmodule.c:137-153 | Reading succeeds iff all n reads do. Each stored dword is the one read at its offset. A failure returns the first failing read's code and stops there. |
| `DxgModule.ReadDwordsOutcome` | drivers/hv/dxgkrnl/dxgmodule.c:137-153 | The read returns 0 iff all n reads succeed. Otherwise it returns the code of the read just after the stored dwords. |
| `DxgModule.ReadDwordsValues` | drivers/hv/dxgkrnl/dxgmodule.c:137-153 | Each stored dword is the value of a successful read at its offset. |
| `DxgModule.DxgGlobal.ReadDwords` | drivers/hv/dxgkrnl/dxgmodule.c:137-153 | The loop computes `size/4` dwords and the accesses the reading specification gives. |
| `DxgModule.ProbeChannel` | drivers/hv/dxgkrnl/dxgmodule.c:195-208 | The channel-id stage keeps the version it is given and only appends to the accesses made before it. |
| `DxgModule.Probe` | drivers/hv/dxgkrnl/dxgmodule.c:155-223 | With `vmbus_ver` already set the version is kept. A successful probe always leaves a nonzero version. |
| `DxgModule.ProbeChannelReadsOnly` | drivers/hv/dxgkrnl/dxgmodule.c:195-208 | The channel-id stage keeps the version and only reads. |
| `DxgModule.ProbeChannelLuidRead` | drivers/hv/dxgkrnl/dxgmodule.c:195-208 | The LUID is read iff the channel id was read in full and the version is at least 40. |
| `DxgModule.NoNegotiationOnceSet` | drivers/hv/dxgkrnl/dxgmodule.c:164-208 | With `vmbus_ver` nonzero the version is kept and nothing is written. |
| `DxgModule.CapsWriteFailure` | drivers/hv/dxgkrnl/dxgmodule.c:166-172 | A failed guest-caps write returns its error with the version still 0, and nothing more happens. |
| `DxgModule.OldVersionFallback` | drivers/hv/dxgkrnl/dxgmodule.c:176-184 | A failed or zero host version read gives version 27, and 40 is not written back. |
| `DxgModule.NegotiatedVersion` | drivers/hv/dxgkrnl/dxgmodule.c:176-192 | Take a nonzero host version whose write-back, if needed, succeeds. The version ends as min(host, 40), and 40 is written back iff host >= 40. |
| `DxgModule.LuidReadOnlyFromVersion40` | drivers/hv/dxgkrnl/dxgmodule.c:195-208 | The vGPU LUID is read only after a full channel-id read and with a version of at least 40. |
| `DxgModule.DxgGlobal.ProbeDevice` | drivers/hv/dxgkrnl/dxgmodule.c:155-223 | The return value, the new version and the accesses are what the probe specification gives from the old version. |
| `DxgModule.DxgGlobal.ProbeVmbus` | drivers/hv/dxgkrnl/dxgmodule.c:358-406 | A vGPU device appends a channel with the LUID of its instance id, or returns -ENOMEM and changes nothing. The first global device is recorded. A second global device or an unknown type gives -EBADE with nothing changed. |
| `DxgModule.RemoveChannel` | drivers/hv/dxgkrnl/dxgmodule.c:415-425 | At most one entry goes, and every entry left was on the list. |
| `DxgModule.RemoveChannelFirstOnly` | drivers/hv/dxgkrnl/dxgmodule.c:408-439 | Only the first entry of the device goes; the entries before and after it stay in order. |
| `DxgModule.RemoveChannelAbsent` | drivers/hv/dxgkrnl/dxgmodule.c:408-439 | Without an entry of the device the list is unchanged. |
| `DxgModule.DxgGlobal.RemoveVmbus` | drivers/hv/dxgkrnl/dxgmodule.c:408-439 | A vGPU device's first entry is removed. The global device destroys the global channel. Any other device gives -EBADE and changes nothing. The interface version is kept on every path. |
| `DxgModule.DxgGlobal.DestroyGlobalChannel` | drivers/hv/dxgkrnl/dxgmodule.c:323-348 | Afterwards every flag is false and `hdev` is none, whatever the state before, so a second call changes nothing. The version and the channel list are kept. |
| `DxgModule.DxgGlobal.InitGlobalChannel` | drivers/hv/dxgkrnl/dxgmodule.c:248-321 | Succeeds iff the channel opens, mmio space is offered and allocated, and the host and misc registrations succeed. Otherwise it returns the first failure's code. The flags record exactly the steps that were reached. |
| `DxgAdapter.Process.constructor` | drivers/hv/dxgkrnl/dxgkrnl.h:98-100 | A process starts with its tgid, no bindings and empty free/send logs. |
| `DxgAdapter.Adapter.constructor` | drivers/hv/dxgkrnl/dxgadapter.c:55-99 | A new adapter waits for its VM-bus channel: one reference, no process bindings, no channel, not stopping. |
| `DxgAdapter.Allocation.constructor` | drivers/hv/dxgkrnl/dxgadapter.c:629-637 | The zeroed allocation: no pages, no handle, no owner, unlinked. |
| `DxgAdapter.Resource.constructor` | drivers/hv/dxgkrnl/dxgadapter.c:450-465 | An active resource with one reference, no handle, an empty allocation list, unlinked. |
| `DxgAdapter.Context.constructor` | drivers/hv/dxgkrnl/dxgadapter.c:568-585 | A created context with one reference, no handle, unlinked. |
| `DxgAdapter.Device.constructor` | drivers/hv/dxgkrnl/dxgadapter.c:203-216 | A created device with one reference, no handle, no binding and three empty lists. |
| `DxgAdapter.ProcessAdapter.constructor` | drivers/hv/dxgkrnl/dxgadapter.c:703-716 | A binding of the adapter and process with refcount 1 and an empty device list. |
| `DxgAdapter.Adapter.AcquireLockExclusive` | drivers/hv/dxgkrnl/dxgadapter.c:163-171 | Returns 0 iff the adapter is active, and -ENODEV otherwise. |
| `DxgAdapter.Adapter.AcquireLockShared` | drivers/hv/dxgkrnl/dxgadapter.c:183-190 | Returns 0 iff the adapter is active, and -ENODEV otherwise. |
| `DxgAdapter.VmbusResult` | drivers/hv/dxgkrnl/dxgadapter.c:24-53 | `set_vmbus` returns 0 iff channel set-up succeeds, the host open is non-negative and the info query succeeds. Otherwise it returns the first failure. |
| `DxgAdapter.Adapter.SetVmbus` | drivers/hv/dxgkrnl/dxgadapter.c:24-53 | The LUID comes from the channel's instance id. The channel is opened and recorded only when its set-up succeeds. The result is `VmbusResult`. |
| `DxgAdapter.ChannelIndex` | drivers/hv/dxgkrnl/dxgadapter.c:60-70 | The position of the first vGPU channel of a LUID, or none iff no channel has it. |
| `DxgAdapter.ChannelIndexFirst` | drivers/hv/dxgkrnl/dxgadapter.c:60-70 | A matching channel with none before it is the one found. |
| `DxgAdapter.StartGlobalChannel` | drivers/hv/dxgkrnl/dxgadapter.c:79-87 | An initialised global channel is left exactly as it was. Otherwise a successful init leaves the channel open, the mmio space allocated, /dev/dxg registered, the device kept and the channel marked initialised. A failed one leaves every one of those cleared. The start goes on exactly when the channel was or became initialised. |
| `DxgAdapter.Adapter.Start` | drivers/hv/dxgkrnl/dxgadapter.c:55-99 | With no channel of the adapter's LUID nothing changes. With one, an initialised global channel stays unchanged, and an uninitialised one ends either fully set up or fully torn down, with the adapter untouched after a failure. Once the global channel is ready, the adapter takes its LUID from the channel, becomes active if `set_vmbus` returns 0 and stopped if not, and has its channel open and its device recorded exactly when the channel set-up succeeded, even when a later step failed. |
| `DxgAdapter.Adapter.Stop` | drivers/hv/dxgkrnl/dxgadapter.c:101-132 | Runs once, guarded by `stopping_adapter`. The first call releases the pages of every allocation of every device of every bound binding without destroying any. It sends the close while active, closes the channel and sets STOPPED. Later calls change nothing. |
| `DxgAdapter.Allocation.Create` | drivers/hv/dxgkrnl/dxgadapter.c:629-637 | Returns a zeroed allocation of the process iff the allocation succeeds. |
| `DxgAdapter.Allocation.Stop` | drivers/hv/dxgkrnl/dxgadapter.c:639-646 | The pages are released. |
| `DxgAdapter.Allocation.FreeHandle` | drivers/hv/dxgkrnl/dxgadapter.c:648-658 | A valid handle is freed once from the process table and then becomes invalid. |
| `DxgAdapter.Allocation.Destroy` | drivers/hv/dxgkrnl/dxgadapter.c:660-696 | The pages are released and a linked allocation leaves its owner's list. A device owner also drops one device reference. The handle is freed, and the host destroy is sent for a device-owned allocation with a host handle. |
| `DxgAdapter.Resource.Create` | drivers/hv/dxgkrnl/dxgadapter.c:450-465 | Returns a new active resource with one reference iff the allocation succeeds. It is appended to the device's list with one more device reference. On failure nothing changes. |
| `DxgAdapter.Resource.FreeHandle` | drivers/hv/dxgkrnl/dxgadapter.c:467-483 | Frees the resource's own handle, then each allocation's, in list order, and invalidates them all. |
| `DxgAdapter.FreeAllocHandles` | drivers/hv/dxgkrnl/dxgadapter.c:475-481 | The loop frees the handles of the allocations in turn. |
| `DxgAdapter.Resource.Destroy` | drivers/hv/dxgkrnl/dxgadapter.c:485-510 | Only the call that sets bit 0 of `flags` tears down (see `Resource.Dismantle`). Every call drops one resource reference. A later call changes nothing else. `object_state` is never changed. |
| `DxgAdapter.Resource.Dismantle` | drivers/hv/dxgkrnl/dxgadapter.c:494-508 | The first call's teardown frees the handles and sends the host destroy. Every allocation of the resource is destroyed and left released (no pages, unlinked, handle freed). The resource is unlinked from the device, dropping that reference. |
| `DxgAdapter.Resource.DestroyAllocs` | drivers/hv/dxgkrnl/dxgadapter.c:500-505 | The allocation loop empties the list and leaves every allocation released: unlinked, handle freed, no pages. |
| `DxgAdapter.Resource.AddAlloc` | drivers/hv/dxgkrnl/dxgadapter.c:525-541 | Returns 0 and appends the allocation iff the resource is active, else -ENODEV with the list unchanged. `resource_owner` is set either way. |
| `DxgAdapter.Resource.RemoveAlloc` | drivers/hv/dxgkrnl/dxgadapter.c:543-550 | A linked allocation is removed from the list and unlinked. A second removal changes nothing. |
| `DxgAdapter.Context.Create` | drivers/hv/dxgkrnl/dxgadapter.c:568-585 | Returns a new active context with one reference iff the allocation succeeds. It is appended to the device's list with one more device reference. |
| `DxgAdapter.Context.Destroy` | drivers/hv/dxgkrnl/dxgadapter.c:590-604 | The context is marked destroyed. With a device, its handle is freed, it leaves the device's list and the device reference is dropped. One context reference is dropped. |
| `DxgAdapter.BindingIndex` | drivers/hv/dxgkrnl/dxgadapter.c:781-787 | The position of the process's first binding to an adapter, or none iff there is none. |
| `DxgAdapter.BindingIndexFirst` | drivers/hv/dxgkrnl/dxgadapter.c:781-787 | A matching binding with none before it is the one found. |
| `DxgAdapter.Device.CreateAsWritten` | drivers/hv/dxgkrnl/dxgadapter.c:197-226 | As written: with no binding to the adapter, no device is returned but the adapter reference stays taken. |
| `DxgAdapter.Device.Create` | drivers/hv/dxgkrnl/dxgadapter.c:197-226 | Returns a device iff the allocation succeeds and the process has a binding to the adapter. The device holds one reference and one adapter reference and is appended to the first such binding. A failure changes no count or list. |
| `DxgAdapter.Device.AcquireLockShared` | drivers/hv/dxgkrnl/dxgadapter.c:339-347 | Returns 0 iff the device is active, and -ENODEV otherwise. |
| `DxgAdapter.Device.MarkDestroyed` | drivers/hv/dxgkrnl/dxgadapter.c:240-245 | The device becomes DESTROYED. |
| `DxgAdapter.Device.AddAlloc` | drivers/hv/dxgkrnl/dxgadapter.c:405-412 | Appends the allocation, takes one device reference and records the device as owner. |
| `DxgAdapter.Device.RemoveAlloc` | drivers/hv/dxgkrnl/dxgadapter.c:414-422 | A linked allocation is removed with its device reference. An unlinked one changes nothing, so a second removal is a no-op. |
| `DxgAdapter.Device.AddResource` | drivers/hv/dxgkrnl/dxgadapter.c:432-438 | Appends the resource and takes one device reference. |
| `DxgAdapter.Device.RemoveResource` | drivers/hv/dxgkrnl/dxgadapter.c:440-448 | A linked resource is removed with its device reference. A second removal is a no-op. |
| `DxgAdapter.Device.AddContext` | drivers/hv/dxgkrnl/dxgadapter.c:389-394 | Appends the context and takes no reference. |
| `DxgAdapter.Device.RemoveContext` | drivers/hv/dxgkrnl/dxgadapter.c:396-403 | A linked context is removed. A second removal is a no-op. |
| `DxgAdapter.Device.Stop` | drivers/hv/dxgkrnl/dxgadapter.c:228-238 | Every allocation of the device releases its pages, and no list changes. |
| `DxgAdapter.Device.ResourceAllocOwner` | drivers/hv/dxgkrnl/dxgadapter.c:485-510 | An allocation of one of the device's resources is owned by that resource. |
| `DxgAdapter.Device.DestroyFirstAlloc` | drivers/hv/dxgkrnl/dxgadapter.c:271-274 | One turn of the allocation loop: the head is released and records its handle and message, and resource-owned allocations are untouched. |
| `DxgAdapter.Device.DestroyAllocList` | drivers/hv/dxgkrnl/dxgadapter.c:271-274 | The allocation loop empties the list, drops one device reference per allocation, and frees and sends exactly what each allocation's destruction does, in list order. Every old allocation ends released. |
| `DxgAdapter.Device.DestroyAllocs` | drivers/hv/dxgkrnl/dxgadapter.c:262-274 | The stop and the allocation loop together, leaving the resource side untouched and every old allocation released. |
| `DxgAdapter.Device.DestroyFirstResource` | drivers/hv/dxgkrnl/dxgadapter.c:282-286 | One turn of the resource loop: the head is destroyed in full and left gone, with its allocations released. |
| `DxgAdapter.Device.DestroyNextResource` | drivers/hv/dxgkrnl/dxgadapter.c:282-286 | The same turn, adding the head to the resources already gone and its allocations to those already released. |
| `DxgAdapter.Device.DestroyResources` | drivers/hv/dxgkrnl/dxgadapter.c:282-286 | The resource loop empties the list, drops one reference per resource, and frees and sends what each resource's destruction does, in order. Every old resource ends gone and every allocation it held released. |
| `DxgAdapter.Device.DestroyFirstContext` | drivers/hv/dxgkrnl/dxgadapter.c:297-301 | One turn of the context loop: the head is destroyed and unlinked. |
| `DxgAdapter.Device.DestroyContexts` | drivers/hv/dxgkrnl/dxgadapter.c:297-301 | The context loop empties the list, drops one reference per context and frees their handles in order. Every old context ends destroyed and unlinked. |
| `DxgAdapter.Device.DestroyAllocsAndResources` | drivers/hv/dxgkrnl/dxgadapter.c:262-289 | Allocations first, then resources: the handles freed are the allocations' followed by the resources'. The old allocations end released and the old resources gone. |
| `DxgAdapter.Device.DestroyChildren` | drivers/hv/dxgkrnl/dxgadapter.c:262-303 | All three lists are emptied, with one device reference dropped per child, in the order allocations, resources, contexts. Every old child ends in the state its own destroy leaves. |
| `DxgAdapter.Device.FreeOwnHandle` | drivers/hv/dxgkrnl/dxgadapter.c:305-323 | A valid device handle is freed once and invalidated. The host destroy is sent while the adapter is active. Children already destroyed stay as they were left. |
| `DxgAdapter.Device.Teardown` | drivers/hv/dxgkrnl/dxgadapter.c:257-323 | An active device is marked DESTROYED and emptied (see `Device.Dismantle`). It frees and sends exactly the teardown sequence: children in cascade order, then its own handle. |
| `DxgAdapter.Device.Dismantle` | drivers/hv/dxgkrnl/dxgadapter.c:262-323 | Stops the device, destroys allocations, resources and contexts, then frees the device handle once and sends the host destroy. The lists end empty, and every old child ends released, gone or closed. |
| `DxgAdapter.Device.Destroy` | drivers/hv/dxgkrnl/dxgadapter.c:247-337 | Only an active device is torn down, and its old children end released, gone or closed. Any other state keeps its lists, handle validity and logs. The handle value is kept in every case. A device still on an adapter leaves its binding's list and drops the adapter reference exactly once, after which `adapter` is null. Every call drops one device reference. |
| `DxgAdapter.Device.TeardownIfActive` | drivers/hv/dxgkrnl/dxgadapter.c:253-323 | An active device is torn down as `Device.Teardown` states, its old children ending released, gone or closed. A device in any other state keeps its lists, handle validity and logs. |
| `DxgAdapter.Device.Detach` | drivers/hv/dxgkrnl/dxgadapter.c:325-336 | The device leaves its binding's list, drops the adapter reference, forgets the adapter and drops one device reference. The children's states are untouched. |
| `DxgAdapter.TeardownHandleOrder` | drivers/hv/dxgkrnl/dxgadapter.c:264-312 | In the teardown no allocation or resource handle is freed after a context handle. The device handle is freed last, exactly when it was valid. |
| `DxgAdapter.AllocHandlesKind` | drivers/hv/dxgkrnl/dxgadapter.c:648-658 | Freeing allocation handles frees entries of type DXGALLOCATION only. |
| `DxgAdapter.ResourceHandlesKind` | drivers/hv/dxgkrnl/dxgadapter.c:467-483 | Destroying resources frees DXGRESOURCE and DXGALLOCATION entries only. |
| `DxgAdapter.ContextHandlesKind` | drivers/hv/dxgkrnl/dxgadapter.c:590-604 | Destroying contexts frees DXGCONTEXT entries only. |
| `DxgAdapter.DeviceAllocMessagesDestroyOnly` | drivers/hv/dxgkrnl/dxgadapter.c:660-696 | Destroying device-owned allocations sends allocation destructions only. |
| `DxgAdapter.ResourceMessagesDestroyOnly` | drivers/hv/dxgkrnl/dxgadapter.c:485-510 | Destroying resources sends allocation destructions only. |
| `DxgAdapter.TeardownSendsNoFlush` | drivers/hv/dxgkrnl/dxgadapter.c:247-337 | A device teardown sends no flush. |
| `DxgAdapter.DrainFlushesEachDevice` | drivers/hv/dxgkrnl/dxgadapter.c:737-759 | The drain loop flushes every device exactly once, in list order, and sends no other flush. |
| `DxgAdapter.AllocsOf` | drivers/hv/dxgkrnl/dxgadapter.c:282-286 | The allocations of a run of resources are exactly those in one of their lists. |
| `DxgAdapter.DevicesDisjoint` | drivers/hv/dxgkrnl/dxgadapter.c:737-759 | Two distinct well-formed devices share no allocation, resource or context. |
| `DxgAdapter.ProcessAdapter.Create` | drivers/hv/dxgkrnl/dxgadapter.c:698-723 | Fails, changing nothing, when the allocation fails or the adapter count is 0. Otherwise it takes an adapter reference and appends a binding with refcount 1 to both the process's and the adapter's lists. |
| `DxgAdapter.ProcessAdapter.AddDevice` | drivers/hv/dxgkrnl/dxgadapter.c:771-803 | The device joins the first binding of the process to the adapter, returning 0. With none it returns -EINVAL and nothing changes. |
| `DxgAdapter.ProcessAdapter.RemoveDevice` | drivers/hv/dxgkrnl/dxgadapter.c:805-814 | A device still in the list is removed. A second removal is a no-op. |
| `DxgAdapter.ProcessAdapter.Stop` | drivers/hv/dxgkrnl/dxgadapter.c:725-735 | Every device of the binding is stopped and none is destroyed. |
| `DxgAdapter.ProcessAdapter.UnlinkFirst` | drivers/hv/dxgkrnl/dxgadapter.c:743-750 | The head device is unlinked and flushed. |
| `DxgAdapter.ProcessAdapter.UnlinkAndDestroy` | drivers/hv/dxgkrnl/dxgadapter.c:743-752 | The head device is unlinked, flushed and destroyed, dropping one adapter reference. |
| `DxgAdapter.ProcessAdapter.DestroyFirstDevice` | drivers/hv/dxgkrnl/dxgadapter.c:743-752 | One turn of the drain: the head goes, and the other devices and what they own are untouched. |
| `DxgAdapter.ProcessAdapter.DestroyNextDevice` | drivers/hv/dxgkrnl/dxgadapter.c:743-752 | The same turn, adding the head to the devices already detached (off the binding list, adapter forgotten). |
| `DxgAdapter.ProcessAdapter.DestroyDevices` | drivers/hv/dxgkrnl/dxgadapter.c:743-752 | The drain loop empties the list, drops one adapter reference per device, and frees and sends exactly each device's flush and teardown, in list order. Every old device ends detached. |
| `DxgAdapter.ProcessAdapter.Destroy` | drivers/hv/dxgkrnl/dxgadapter.c:737-759 | Every device is destroyed and ends detached. The binding then leaves the adapter's and the process's lists and drops its own adapter reference. |
| `DxgAdapter.ProcessAdapter.Release` | drivers/hv/dxgkrnl/dxgadapter.c:764-769 | Drops one reference. At 0 the binding is destroyed (see `Destroy`) and every old device ends detached; otherwise nothing else changes. |
| `Ioctl.SetIoctl` | drivers/hv/dxgkrnl/ioctl.c:490-492 | Setting a slot keeps a table of `LX_IO_MAX + 1` slots. |
| `Ioctl.RegisteredNumbers` | drivers/hv/dxgkrnl/ioctl.c:494-506 | The five registered words have numbers 0x1, 0x9, 0x14, 0x15 and 0x3e. |
| `Ioctl.Registered` | drivers/hv/dxgkrnl/ioctl.c:494-506 | The table after `init_ioctls` is still a table. |
| `Ioctl.RegisteredSlots` | drivers/hv/dxgkrnl/ioctl.c:490-506 | `init_ioctls` fills exactly the slots 0x1, 0x9, 0x14, 0x15 and 0x3e, each with its callback and the whole word whose number indexes it. Every other slot keeps its contents. |
| `Ioctl.IoctlTable.constructor` | drivers/hv/dxgkrnl/ioctl.c:494-506 | The static table starts zeroed. |
| `Ioctl.IoctlTable.InitIoctls` | drivers/hv/dxgkrnl/ioctl.c:494-506 | The array afterwards is the registered table. |
| `Ioctl.Dispatch` | drivers/hv/dxgkrnl/ioctl.c:448-476 | A callback is chosen only when the number is in 1..`LX_IO_MAX`, the slot holds that callback, the slot's word is exactly `p1` and the tgids agree. |
| `Ioctl.IoctlReturn` | drivers/hv/dxgkrnl/ioctl.c:448-476 | A rejection returns -ENOTTY, and a call returns the callback's status unchanged. |
| `Ioctl.DispatchMeaning` | drivers/hv/dxgkrnl/ioctl.c:448-476 | A callback runs iff the number is in 1..`LX_IO_MAX`, its slot has a callback, the stored word equals `p1` and the tgids agree. That callback is the slot's. |
| `Ioctl.DispatchAfterInit` | drivers/hv/dxgkrnl/ioctl.c:448-506 | After `init_ioctls`, exactly the five registered words reach a callback, each its own, and only from the owning process. |
| `Ioctl.IoctlTable.DxgkIoctl` | drivers/hv/dxgkrnl/ioctl.c:448-476 | `dxgk_ioctl` returns the slot callback's status iff the number is in 1..`LX_IO_MAX`, the slot holds a callback, its word is exactly `p1` and the tgids agree. Otherwise it returns -ENOTTY. |
| `Ioctl.Handles` | drivers/hv/dxgkrnl/ioctl.c:205-209 | The handles of a run of infos, in order. |
| `Ioctl.Enumerate` | drivers/hv/dxgkrnl/ioctl.c:278-297 | The enumeration loop from position k records no more infos than there are adapters from k on. |
| `Ioctl.EnumerateMeaning` | drivers/hv/dxgkrnl/ioctl.c:262-293 | The enumeration records no more entries than there are adapters from k on. Each entry is the handle and LUID of an adapter whose open succeeded and was reached. |
| `Ioctl.EnumerateCount` | drivers/hv/dxgkrnl/ioctl.c:262-293 | No more entries than there are active adapters, and exactly as many when every open succeeds. |
| `Ioctl.EnumAdapters2AsWritten` | drivers/hv/dxgkrnl/ioctl.c:221-337 | As written, only a call past the size checks (a buffer, `num_adapters` <= capacity <= `D3DKMT_ADAPTERS_MAX`) records anything, and a success closes nothing. |
| `Ioctl.EnumAdapters2NoLeak` | drivers/hv/dxgkrnl/ioctl.c:221-337 | On failure every recorded handle is closed. On success nothing is closed, and the caller gets every opened adapter or, with no buffer, `num_adapters`. |
| `Ioctl.EnumAdapters2Rejections` | drivers/hv/dxgkrnl/ioctl.c:240-261 | A NULL buffer reports `num_adapters` and opens nothing. A buffer smaller than `num_adapters` gives -EOVERFLOW and one above `D3DKMT_ADAPTERS_MAX` gives -EINVAL, both opening nothing. |
| `Ioctl.EnumAdapters2Overflow` | drivers/hv/dxgkrnl/ioctl.c:250-297 | As written, `num_adapters` 0, two active adapters that open and room for one make the loop record two infos in the one-entry buffer, and the call succeeds. |
| `Ioctl.EnumAdapters2StoresInBounds` | drivers/hv/dxgkrnl/ioctl.c:250-297 | As written, past the size checks the stores stay within the caller's buffer whenever `num_adapters` counts every active adapter. When every open succeeds, they stay within it exactly when `args.num_adapters` holds every active adapter. |
| `Ioctl.EnumAdapters2Spec` | drivers/hv/dxgkrnl/ioctl.c:221-337 | The corrected `dxgk_enum_adapters` never records more infos than the buffer holds. |
| `Ioctl.EnumAdapters2SpecNoLeak` | drivers/hv/dxgkrnl/ioctl.c:221-337 | The corrected enumeration closes every recorded handle on failure, "too small" included. On success it closes nothing and hands every opened adapter over, or reports `num_adapters` with no buffer. |
| `Ioctl.EnumAdapters2AgreesWhenCounted` | drivers/hv/dxgkrnl/ioctl.c:221-337 | When `num_adapters` covers every active adapter, the corrected enumeration and the code as written agree. |
| `Ioctl.EnumAdapters2Complete` | drivers/hv/dxgkrnl/ioctl.c:221-337 | With every copy, allocation and open succeeding and room for every active adapter, every active adapter is reported. |
| `Ioctl.CloseInfos` | drivers/hv/dxgkrnl/ioctl.c:317-325 | The rollback loop closes the handles of the first n entries, in order. |
| `Ioctl.FillInfos` | drivers/hv/dxgkrnl/ioctl.c:278-297 | The unbounded loop, over a buffer that holds what it records, fills the buffer's prefix with exactly the enumeration. |
| `Ioctl.EnumAdapters2` | drivers/hv/dxgkrnl/ioctl.c:221-337 | The result equals the corrected `dxgk_enum_adapters` specification for every outcome. |
| `Ioctl.EnumAdaptersAsWritten` | drivers/hv/dxgkrnl/ioctl.c:103-218 | As written, the number of infos written is the number recorded, and only a call with a buffer and 0 < `adapter_count_max` <= 0xFFFF records anything. |
| `Ioctl.EnumAdaptersOverflow` | drivers/hv/dxgkrnl/ioctl.c:149-184 | As written, two active adapters and room for one make the loop store a second entry past the buffer. The call then returns success, with no handle reported or closed. |
| `Ioctl.EnumerateUpTo` | drivers/hv/dxgkrnl/ioctl.c:149-169 | The bounded loop never records more entries than there is room for. |
| `Ioctl.EnumerateUpToAgrees` | drivers/hv/dxgkrnl/ioctl.c:149-169 | With enough room the bounded loop records what the unbounded one does. |
| `Ioctl.RoomMeansNotTooSmall` | drivers/hv/dxgkrnl/ioctl.c:149-184 | With room for every active adapter the bounded loop never runs out of room. |
| `Ioctl.EnumAdaptersSpec` | drivers/hv/dxgkrnl/ioctl.c:103-218 | The corrected `dxgkp_enum_adapters` never records more infos than `adapter_count_max`. |
| `Ioctl.EnumAdaptersNoLeak` | drivers/hv/dxgkrnl/ioctl.c:103-218 | The corrected `dxgkp_enum_adapters` closes every opened handle on any failure, "too small" included. On success it hands every opened adapter to the caller and never records more than the buffer holds. |
| `Ioctl.NegativeStatus` | drivers/hv/dxgkrnl/ioctl.c:174-176 | `STATUS_BUFFER_TOO_SMALL` is negative as an `int`. |
| `Ioctl.EnumAdaptersAgreesWhenRoom` | drivers/hv/dxgkrnl/ioctl.c:103-218 | With room for every active adapter, the corrected enumeration and the code as written agree. |
| `Ioctl.FillInfosUpTo` | drivers/hv/dxgkrnl/ioctl.c:149-169 | The bounded loop over a buffer computes the bounded enumeration. |
| `Ioctl.EnumAdapters` | drivers/hv/dxgkrnl/ioctl.c:103-218 | The result equals the corrected specification for every outcome. That specification reports `num_adapters` for a NULL buffer or 0 maximum, rejects more than 0xFFFF with -EINVAL and rolls back on failure. |
| `Ioctl.EnumAdapters3` | drivers/hv/dxgkrnl/ioctl.c:340-364 | A failed argument copy gives -EINVAL. Otherwise the result is that of the enumeration above. |
| `Ioctl.FindLuid` | drivers/hv/dxgkrnl/ioctl.c:59-85 | The first active adapter whose 64-bit LUID equals the one asked for, or none iff there is none. |
| `Ioctl.FindLuidIsEquality` | drivers/hv/dxgkrnl/ioctl.c:59-85 | The 64-bit comparison finds exactly the adapters with an equal LUID. |
| `Ioctl.OpenFromLuidSpec` | drivers/hv/dxgkrnl/ioctl.c:38-100 | As written, a matched adapter is an active one whose 64-bit LUID equals the one asked for. At most one handle is closed, the one in the arguments. |
| `Ioctl.OpenFromLuidFailures` | drivers/hv/dxgkrnl/ioctl.c:38-100 | As written, a zero handle gives -EINVAL. A negative result closes the handle in the arguments, and a success closes nothing. |
| `Ioctl.OpenFromLuidNoMatchSucceeds` | drivers/hv/dxgkrnl/ioctl.c:59-96 | As written, no matching adapter and a nonzero caller handle give success with nothing opened. |
| `Ioctl.OpenFromLuidChecked` | drivers/hv/dxgkrnl/ioctl.c:38-100 | The corrected open succeeds only after matching an adapter. With the arguments in and no match it fails and closes nothing. |
| `Ioctl.OpenFromLuidCheckedMeaning` | drivers/hv/dxgkrnl/ioctl.c:38-100 | The corrected open succeeds iff an adapter of the LUID opened with a nonzero handle that reached the caller. It is then the first active such adapter and nothing is closed. |
| `Ioctl.OpenAdapterFromLuid` | drivers/hv/dxgkrnl/ioctl.c:38-100 | The loop's result equals the corrected open-from-LUID specification for every outcome. |
| `Ioctl.QueryAdapterInfo` | drivers/hv/dxgkrnl/ioctl.c:392-438 | The host query is sent iff the arguments arrive, the private data size is in 1..`DXG_MAX_VM_BUS_PACKET_SIZE`, and the adapter is found and active. It then returns the host's status, and otherwise a negative code. The lookup's reference is dropped iff it was taken. |
| `KString.Memset` | lib/string_kunit.c:20-105 | `memset16/32/64(p + i, v, j)` writes v at exactly i..i+j-1 and leaves every other element unchanged. |
| `KString.Splat` | lib/string_kunit.c:30 | A byte-wise fill of b leaves b in the low byte of each element. |
| `KString.SplatA1` | lib/string_kunit.c:20-105 | 0xa1 read as 2-, 4- and 8-byte elements is 0xa1a1, 0xa1a1a1a1 and 0xa1a1a1a1a1a1a1a1. |
| `KString.Memset16Case` | lib/string_kunit.c:20-47 | For every i, j < 256 the buffer reads 0xa1a1 below i, 0xb1b2 on [i, i+j) and 0xa1a1 from i+j. |
| `KString.Memset32Case` | lib/string_kunit.c:49-76 | The same for 32-bit elements, 0xa1a1a1a1 and 0xb1b2b3b4. |
| `KString.Memset64Case` | lib/string_kunit.c:78-105 | The same for 64-bit elements, 0xa1a1a1a1a1a1a1a1 and 0xb1b2b3b4b5b6b7b8. |
| `KString.StrLen` | lib/string_kunit.c:114 | `strlen` is the position of the first NUL. |
| `KString.Str` | lib/string_kunit.c:107-327 | The string a buffer holds is its contents before the first NUL. |
| `KString.StrOfPlain` | lib/string_kunit.c:107-327 | A buffer without NUL holds itself as its string. |
| `KString.StrTail` | lib/string_kunit.c:107-327 | The string of a buffer with a non-NUL head is that head followed by the string of the rest. |
| `KString.StrChr` | lib/string_kunit.c:107-128 | `strchr` returns the first index holding c, at most the terminator's, so '\0' finds the terminator. It gives none iff no such index exists. |
| `KString.StrNChr` | lib/string_kunit.c:130-161 | `strnchr` is `strchr` restricted to indices below the count. |
| `KString.StrChrIsStrNChr` | lib/string_kunit.c:107-161 | `strnchr` with a count past the terminator is `strchr`. |
| `KString.StrChrFinds` | lib/string_kunit.c:107-128 | For a non-NUL c, `strchr` finds it iff it occurs in the string. |
| `KString.LettersDistinct` | lib/string_kunit.c:109 | "abcdefghijkl" has strlen 12 and distinct characters at 0..12. |
| `KString.StrChrCases` | lib/string_kunit.c:107-128 | Each position 0..12 is found by its character. '\0' is found at 0 in "" and 'a' is not. 'z' is not found. |
| `KString.StrNChrCases` | lib/string_kunit.c:130-161 | For i <= 12 and j <= 13, position i is found iff j > i. The three "" cases hold as asserted, and a count of 0 finds nothing in any buffer (the NULL case). |
| `KString.StrSpn` | lib/string_kunit.c:163-186 | `strspn` is the length of the longest prefix of characters in the accept string. |
| `KString.StrCSpn` | lib/string_kunit.c:163-186 | `strcspn` is the length of the longest prefix of characters not in the reject string. |
| `KString.StrSpnEmptySets` | lib/string_kunit.c:172 | ("foobar", "") spans 0, and its complement spans 6. |
| `KString.StrSpnAll` | lib/string_kunit.c:173 | "abba" spans 4 in "abc", and 4 outside "ABBA". |
| `KString.StrSpnStops` | lib/string_kunit.c:174 | "abba" spans 1 in "a", and 1 outside "b". |
| `KString.StrSpnEmptyString` | lib/string_kunit.c:175 | "" spans 0 both ways. |
| `KString.LexTrichotomy` | lib/string_kunit.c:199-215 | The lexicographic order is total: exactly one of less, equal or greater holds. |
| `KString.LexIrreflexive` | lib/string_kunit.c:199-215 | No string is less than itself. |
| `KString.LexCommonPrefix` | lib/string_kunit.c:199-215 | A common prefix does not change the order. |
| `KString.LexFirstDifference` | lib/string_kunit.c:199-215 | Strings that agree before k and differ at k are ordered by the characters at k. |
| `KString.LexProperPrefix` | lib/string_kunit.c:207-214 | A proper prefix comes first. |
| `KString.Lower` | lib/string_kunit.c:272-283 | ASCII `tolower`: letters map to lower case, and everything else is unchanged. |
| `KString.ToLower` | lib/string_kunit.c:272-283 | A string lowered character by character, with its length kept. |
| `KString.Take` | lib/string_kunit.c:229-250 | The first count characters, or all of them. |
| `KString.Compare` | lib/string_kunit.c:199-327 | The shared comparison loop returns -1, 0 or 1. |
| `KString.CompareIsLex` | lib/string_kunit.c:199-327 | The loop is 0 iff the (limited, folded) strings are equal, negative iff the first is lexicographically less, and positive iff greater. |
| `KString.StrCmp` | lib/string_kunit.c:199-227 | `strcmp` is 0 iff the strings are equal, negative iff the first is lexicographically less, and positive iff greater. |
| `KString.StrNCmp` | lib/string_kunit.c:229-270 | `strncmp` compares the first count characters in the same way. |
| `KString.StrCaseCmp` | lib/string_kunit.c:272-295 | `strcasecmp` compares the ASCII-lowered strings in the same way. |
| `KString.StrNCaseCmp` | lib/string_kunit.c:297-327 | `strncasecmp` compares the first count lowered characters. |
| `KString.StrCmpAntisymmetric` | lib/string_kunit.c:204-206 | Swapping the arguments of `strcmp` flips the sign. |
| `KString.CountZeroIsEqual` | lib/string_kunit.c:236 | `strncmp` and `strncasecmp` with count 0 are 0. |
| `KString.StrLenIs` | lib/string_kunit.c:243 | The strlen of a buffer is the position of a NUL with none before it. |
| `KString.StrCmpHello` | lib/string_kunit.c:202-206 | "Hello, Kernel!" equals itself, and "Hello, KUnit!" comes before it. |
| `KString.StrCmpEmpty` | lib/string_kunit.c:208-210 | "" comes before "Non-empty string" and equals "". |
| `KString.StrCmpOneDifference` | lib/string_kunit.c:212 | "Abacaba" comes before "Abadaba". |
| `KString.StrCmpPrefix` | lib/string_kunit.c:214 | "Just a string" comes before its extension. |
| `KString.PlainPrefixCmp` | lib/string_kunit.c:214 | For any NUL-free string and any proper prefix of it, strcmp puts the prefix first. |
| `KString.StrNCmpHello` | lib/string_kunit.c:232-236 | Count 13 sees the difference 'U' < 'e', and count 0 gives equal. |
| `KString.StrNCmpCommonPrefix` | lib/string_kunit.c:238-240 | "Abacaba" and "Abadaba" are equal over 3 characters and ordered over 4. |
| `KString.StrNCmpPrefix` | lib/string_kunit.c:242-249 | Over the longer strlen the prefix comes first, and over its own strlen they are equal. |
| `KString.PlainPrefixNCmp` | lib/string_kunit.c:242-249 | For any NUL-free string and any proper prefix of it, the prefix compares below it over the longer length and equal to it over the prefix's own length. |
| `KString.StrCaseCmpHello` | lib/string_kunit.c:275 | "Hello, Kernel!" equals "HeLLO, KErNeL!" ignoring case. |
| `KString.StrCaseCmpLetters` | lib/string_kunit.c:277-280 | "a" < "B" and "B" > "a" ignoring case; "" equals "". |
| `KString.StrCaseCmpSymbols` | lib/string_kunit.c:282 | Digits and symbols compare unchanged. |
| `KString.StrNCaseCmpCase` | lib/string_kunit.c:300 | "AbAcAbA" equals "Abacaba" over its strlen. |
| `KString.StrNCaseCmpCount` | lib/string_kunit.c:302-306 | Only 5 characters are compared, and count 0 gives equal. |
| `KString.StrNCaseCmpLetters` | lib/string_kunit.c:303-304 | With count 1, "a" < "B" and "B" > "a". |
| `KString.FilledBuffer` | lib/string_kunit.c:188-197 | `strcmp_fill_buffers`: 2048 copies of the character, the last replaced by NUL. |
| `KString.ChangedBuffer` | lib/string_kunit.c:222-225 | A filled buffer with d written at 1337 holds 2047 characters: c everywhere except d at 1337. |
| `KString.FilledString` | lib/string_kunit.c:188-197 | A filled buffer holds 2047 copies of its character. |
| `KString.StrCmpLongStrings` | lib/string_kunit.c:217-227 | 'B' buffers are equal. 'A' at the change point is less, and 'C' greater. |
| `KString.StrNCmpLongStrings` | lib/string_kunit.c:252-270 | The same over 2048 characters. Count 1337 sees equal strings, and 1338 sees the 'C'. |
| `KString.StrCaseCmpLongStrings` | lib/string_kunit.c:285-295 | 'b' and 'B' buffers are equal ignoring case. 'a' at the change point is less, and 'C' greater. |
| `KString.StrNCaseCmpLongStrings` | lib/string_kunit.c:309-327 | The same under counts 2048, 1337 (equal) and 1338 (greater). |

## Left out

- Locking and concurrency. The rw-semaphores, mutexes and spin locks are left out, and so is kref atomicity. Each lock helper is a state check. The unlock/relock around the device destroy message is not modelled, and neither is any interleaving.
- Memory management. `kzalloc`/`vzalloc` failure is an outcome parameter; `kfree`, `vfree`, `release_pages` and the kref release callbacks are not modelled beyond their counters and flags.
- Host messaging. Every `dxgvmb_send_*` call and the VM-bus channel calls are either outcome parameters or entries in a message log. The flush in `dxgprocess_adapter_destroy` is always logged.
- The gpadl teardown in `dxgallocation_destroy` is a hypervisor call under a build flag, so it is not modelled.
- PCI config access, `vmbus_allocate_mmio`, `misc_register`, module init/exit and the file operations of `/dev/dxg` are outcomes or are not modelled. `dxg_pci_read_dwords` reads through a device parameter.
- `dxgsyncfile.c`, `dxgsyncfile.h`, `dxgvmbus.c`, `dxgvmbus.h`, `dxgprocess.c`, `hmgr.c` and `hyperv_timer.h` are not part of this model. They are thin wrappers or empty.
- `hmgrtable_free_handle` and the rest of the handle-table implementation are not shown in the sources. The graph records the handles it frees in a per-process log. `Hmgr` models the policy the header describes. `HMGRTABLE_MIN_FREE_ENTRIES` is not defined, so it is a parameter (`minFree`), and the table does not grow.
- `dxgprocess_open_adapter` and `dxgprocess_close_adapter` are not shown. An open is a result per list position, and a close is an entry in the returned list of closed handles.
- `copy_from_user`/`copy_to_user` are success flags. The contents of user memory are not modelled.
- `dxgk_close_adapter` and `dxgk_compat_ioctl`/`dxgk_unlocked_ioctl` are only registration targets and forwarders. The model has their table slots but not their bodies.
- `LX_IO_MAX` is not defined in any shipped file. The model uses 0x45, and every property holds for any value of at least 0x3e.
- The adapter's creation (`dxgglobal_create_adapter` and the adapter list) is not part of this model. `DxgAdapter.Adapter.constructor` gives the state a new adapter waits in.
- `DxgAdapter.Adapter.Start` requires a recorded global device whenever the global channel is uninitialised. No adapter is started before the global device is probed.
- `DxgAdapter.ProcessAdapter.DestroyDevices` states, for every old device, that it left the binding's list and forgot its adapter. It does not state the final states of the devices' children. A device that was not active keeps its children as they were, and carrying each device's child states through the drain would need every other device's frame. `DxgAdapter.Device.Destroy` states them for each device.
- `DxgAdapter.ProcessAdapter.Destroy` states the same of the old devices and no more, for the same reason.
- `DxgAdapter.ProcessAdapter.Release` states the same of the old devices when the count reaches 0, for the same reason.
- `dxgglobal->num_adapters` is a parameter (`num`) of the enumerations. No code in these sources writes it after the zeroed `dxgglobal` is created, and the code that maintains it is not part of this model.
- `Ioctl.FillInfos` requires a buffer that holds what the loop records, since a method cannot write past an array. Beyond that the code writes past the buffer, which `Ioctl.EnumAdapters2AsWritten` records as a function.
- `DxgAdapter.Resource.Destroy` never sets `object_state` to DESTROYED, because the code does not. The model follows the code; only the `flags` bit guards re-entry.
- `DxgModule.DxgGlobal.ProbeDevice` follows the code where the write-back of version 40 fails. The version then keeps the host's value unclamped, so min(host, 40) holds only when the write succeeds.
- The `dxgk_open_adapter_from_luid` copy-in failure closes the handle in the uninitialised arguments. The model uses the caller's handle there.
- `KString`: the implementations of the string functions are not among the sources. The model is what the KUnit assertions pin down:
  - Case folding is ASCII only.
  - Characters compare by code.
  - The comparisons return -1/0/1 rather than a difference of characters; the suite asserts only the sign.
  - `strnchr(NULL, 0, c)` is modelled as count 0 on any buffer, since nothing is read.
- `KString.Memset16Case`, `Memset32Case` and `Memset64Case` each state the buffer after one iteration (i, j) of the suite's nested loop, for an arbitrary i, j < 256. The loops over i and j are not written out as methods.

## Findings

| source | as written | input that shows it | evidently intended | confidence | as-written member | corrected member |
|---|---|---|---|---|---|---|
| drivers/hv/dxgkrnl/ioctl.c:149-184 | `dxgkp_enum_adapters` stores into `info[adapter_count]` for every opened adapter without comparing the count with `adapter_count_max`. The "too many adapters" branch then overwrites `STATUS_BUFFER_TOO_SMALL` with the copy's 0 and returns success without closing the handles it opened. | two active adapters that both open, `adapter_count_max` = 1 | stop before opening when the buffer is full, and return the negative "too small" status so that the rollback closes every opened handle | not executed | `Ioctl.EnumAdaptersAsWritten`, `Ioctl.EnumAdaptersOverflow` | `Ioctl.EnumAdaptersSpec`, `Ioctl.EnumAdaptersNoLeak` |
| drivers/hv/dxgkrnl/ioctl.c:250-297 | `dxgk_enum_adapters` sizes the info buffer against `dxgglobal->num_adapters`, before the adapter list is locked, then stores into `info[adapter_count]` for every opened adapter without a bound. An adapter count below the number of active adapters lets the loop write past the buffer. | `num_adapters` 0 (no code in these sources writes it), two active adapters that both open, a buffer of 1 entry | stop before opening when the buffer is full, return -EOVERFLOW and close every opened handle | not executed; the counter may be maintained by code outside these sources | `Ioctl.EnumAdapters2AsWritten`, `Ioctl.EnumAdapters2Overflow` | `Ioctl.EnumAdapters2Spec`, `Ioctl.EnumAdapters2SpecNoLeak` |
| drivers/hv/dxgkrnl/ioctl.c:59-96 | `dxgk_open_adapter_from_luid` leaves `ret` at 0 when no adapter has the LUID. A caller that passes a nonzero `adapter_handle` gets success although nothing was opened. | an empty adapter list, LUID (1, 0), caller handle 7 | no matching adapter gives an error and closes nothing | not executed | `Ioctl.OpenFromLuidNoMatchSucceeds` | `Ioctl.OpenFromLuidCheckedMeaning` |
| drivers/hv/dxgkrnl/dxgadapter.c:197-226 | `dxgdevice_create` takes an adapter reference before looking up the binding. When `dxgprocess_adapter_add_device` fails, it releases the device (which only frees memory) but never drops the adapter reference. | a process with no binding to the adapter | a failed create leaves `adapter_kref` unchanged | not executed | `DxgAdapter.Device.CreateAsWritten` | `DxgAdapter.Device.Create` |

The rest of the model uses the corrected definitions:

- `Ioctl.EnumAdapters` and `Ioctl.EnumAdapters3` implement the bounded `dxgkp_enum_adapters`.
- `Ioctl.EnumAdapters2` implements the bounded `dxgk_enum_adapters`.
- `Ioctl.OpenAdapterFromLuid` implements the checked open.
- `DxgAdapter.Device.Create` drops the adapter reference on failure.
