/**
  The Windows status codes the driver hands back to user mode, and the `NT_SUCCESS` test. Each
  code is written as a 32-bit hexadecimal constant cast to the signed `int` of `struct ntstatus`.
*/
module Misc {
  import opened BitFields
  import opened D3dkmthk

  /** The cast `(int)(x)` of a 32-bit constant: GCC keeps the bit pattern. */
  function Int32Of(u: U32): (v: Int32)
    ensures Bits(v) == u
    ensures v < 0 <==> u >= 0x8000_0000
  {
    if u >= 0x8000_0000 then u - 0x1_0000_0000 else u
  }

  /** The cast keeps every bit pattern: casting back gives the value again. */
  lemma Int32OfBits(v: Int32)
    ensures Int32Of(Bits(v)) == v
  {
  }

  const STATUS_SUCCESS: Int32 := Int32Of(0)
  const STATUS_OBJECT_NAME_INVALID: Int32 := Int32Of(0xC000_0033)
  const STATUS_DEVICE_REMOVED: Int32 := Int32Of(0xC000_02B6)
  const STATUS_INVALID_HANDLE: Int32 := Int32Of(0xC000_0008)
  const STATUS_ILLEGAL_INSTRUCTION: Int32 := Int32Of(0xC000_001D)
  const STATUS_NOT_IMPLEMENTED: Int32 := Int32Of(0xC000_0002)
  const STATUS_PENDING: Int32 := Int32Of(0x0000_0103)
  const STATUS_ACCESS_DENIED: Int32 := Int32Of(0xC000_0022)
  const STATUS_BUFFER_TOO_SMALL: Int32 := Int32Of(0xC000_0023)
  const STATUS_OBJECT_TYPE_MISMATCH: Int32 := Int32Of(0xC000_0024)
  const STATUS_GRAPHICS_ALLOCATION_BUSY: Int32 := Int32Of(0xC01E_0102)
  const STATUS_NOT_SUPPORTED: Int32 := Int32Of(0xC000_00BB)
  const STATUS_TIMEOUT: Int32 := Int32Of(0x0000_0102)
  const STATUS_INVALID_PARAMETER: Int32 := Int32Of(0xC000_000D)
  const STATUS_NO_MEMORY: Int32 := Int32Of(0xC000_0017)
  const STATUS_OBJECT_NAME_COLLISION: Int32 := Int32Of(0xC000_0035)
  const STATUS_OBJECT_NAME_NOT_FOUND: Int32 := Int32Of(0xC000_0034)

  /** The success codes, and the failure codes (all of the form 0xC…). */
  const SuccessStatuses: seq<Int32> := [STATUS_SUCCESS, STATUS_PENDING, STATUS_TIMEOUT]
  const ErrorStatuses: seq<Int32> := [
    STATUS_OBJECT_NAME_INVALID, STATUS_DEVICE_REMOVED, STATUS_INVALID_HANDLE,
    STATUS_ILLEGAL_INSTRUCTION, STATUS_NOT_IMPLEMENTED, STATUS_ACCESS_DENIED,
    STATUS_BUFFER_TOO_SMALL, STATUS_OBJECT_TYPE_MISMATCH, STATUS_GRAPHICS_ALLOCATION_BUSY,
    STATUS_NOT_SUPPORTED, STATUS_INVALID_PARAMETER, STATUS_NO_MEMORY,
    STATUS_OBJECT_NAME_COLLISION, STATUS_OBJECT_NAME_NOT_FOUND]

  /** NT_SUCCESS(status): the status word is not negative. */
  predicate NtSuccess(status: Int32)
  {
    status >= 0
  }

  /** A status succeeds exactly when its severity bit-field reads non-negative (0 or 1). */
  lemma NtSuccessIffSeverity(status: Int32)
    ensures NtSuccess(status) <==> StatusFields(status).severity >= 0
  {
    NegativeIffSeverityNegative(status);
  }

  /** A 0xC… code has severity 3 (error), which the signed two-bit field reads as -1. */
  lemma {:induction false} ErrorCodeSeverity(u: U32)
    requires u >= 0xC000_0000
    ensures !NtSuccess(Int32Of(u)) && StatusFields(Int32Of(u)).severity == -1
  {
    StatusLayoutIsWord();
    Pow2Table();
    FieldIsShiftMask(StatusLayout, u, 3);
    DivBound(u, 0x4000_0000, 4);
    assert u / 0x4000_0000 == 3;
  }

  /** The success codes pass NT_SUCCESS, every failure code fails it, and all codes differ. */
  lemma StatusClassification()
    ensures forall i :: 0 <= i < |SuccessStatuses| ==> NtSuccess(SuccessStatuses[i])
    ensures forall i :: 0 <= i < |ErrorStatuses| ==> !NtSuccess(ErrorStatuses[i])
    ensures forall i, j :: 0 <= i < j < |ErrorStatuses| ==> ErrorStatuses[i] != ErrorStatuses[j]
    ensures forall i, j :: 0 <= i < |SuccessStatuses| && 0 <= j < |ErrorStatuses| ==>
              SuccessStatuses[i] != ErrorStatuses[j]
    ensures STATUS_SUCCESS != STATUS_PENDING && STATUS_PENDING != STATUS_TIMEOUT
    ensures STATUS_SUCCESS != STATUS_TIMEOUT
  {
  }
}
