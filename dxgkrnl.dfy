/**
  Shared definitions of the driver: the reinterpretation of a GUID's leading bytes as a LUID,
  and the VM-bus interface version numbers.
*/
module Dxgkrnl {
  import opened BitFields
  import opened D3dkmthk

  type Byte = x: nat | x < 0x100

  /** A little-endian 32-bit word is four 8-bit fields, lowest address first. */
  const WordBytes: seq<nat> := [8, 8, 8, 8]

  lemma WordBytesIsWord()
    ensures Width(WordBytes) == 32 && Pow2(8) == 0x100
  {
    Pow2Table();
    assert WordBytes[1..] == [8, 8, 8] && [8, 8, 8][1..] == [8, 8];
    assert [8, 8][1..] == [8] && [8][1..] == [];
  }

  /** The four bytes, lowest address first, that store u in memory. */
  function WordImage(u: U32): (bs: seq<Byte>)
    ensures |bs| == 4
  {
    WordBytesIsWord();
    Pow2Table();
    var fs := Unpack(WordBytes, u);
    assert forall i :: 0 <= i < 4 ==> fs[i] < 0x100;
    [fs[0], fs[1], fs[2], fs[3]]
  }

  /** The word that four bytes in memory hold; its image is those bytes. */
  function WordOf(bs: seq<Byte>): (u: U32)
    requires |bs| == 4
    ensures WordImage(u) == bs
  {
    WordBytesIsWord();
    Pow2Table();
    var fs: seq<nat> := [bs[0], bs[1], bs[2], bs[3]];
    assert fs == bs;
    UnpackPack(WordBytes, fs);
    Pack(WordBytes, fs)
  }

  /** Distinct words have distinct memory images. */
  lemma WordImageInjective(u: U32, w: U32)
    ensures WordImage(u) == WordImage(w) ==> u == w
  {
    WordBytesIsWord();
    Pow2Table();
    if WordImage(u) == WordImage(w) {
      var fu, fw := Unpack(WordBytes, u), Unpack(WordBytes, w);
      assert fu == fw by {
        assert forall i :: 0 <= i < 4 ==> fu[i] == WordImage(u)[i] && fw[i] == WordImage(w)[i];
      }
    }
  }

  /** The eight bytes that store a `struct winluid`: a, then b. */
  function LuidImage(l: WinLuid): (bs: seq<Byte>)
    ensures |bs| == 8
  {
    WordImage(l.a) + WordImage(l.b)
  }

  /** guid_to_luid: the LUID stored in the first eight bytes of the GUID. */
  function GuidToLuid(guid: seq<Byte>): (luid: WinLuid)
    requires |guid| == 16
    ensures LuidImage(luid) == guid[..8]
  {
    var luid := WinLuid(WordOf(guid[0..4]), WordOf(guid[4..8]));
    assert guid[..8] == guid[0..4] + guid[4..8];
    luid
  }

  /** A LUID is determined by its memory image. */
  lemma LuidImageInjective(x: WinLuid, y: WinLuid)
    ensures LuidImage(x) == LuidImage(y) <==> x == y
  {
    if LuidImage(x) == LuidImage(y) {
      assert WordImage(x.a) == LuidImage(x)[..4] && WordImage(y.a) == LuidImage(y)[..4];
      assert WordImage(x.b) == LuidImage(x)[4..] && WordImage(y.b) == LuidImage(y)[4..];
      WordImageInjective(x.a, y.a);
      WordImageInjective(x.b, y.b);
    }
  }

  /** Bytes 8..15 of a GUID do not affect its LUID; bytes 0..7 do. */
  lemma GuidToLuidUsesFirstEightBytes(g1: seq<Byte>, g2: seq<Byte>)
    requires |g1| == 16 && |g2| == 16
    ensures GuidToLuid(g1) == GuidToLuid(g2) <==> g1[..8] == g2[..8]
  {
    LuidImageInjective(GuidToLuid(g1), GuidToLuid(g2));
  }

  // VM-bus interface versions
  const DXGK_VMBUS_INTERFACE_VERSION_OLD: nat := 27
  const DXGK_VMBUS_INTERFACE_VERSION: nat := 40
  const DXGK_VMBUS_LAST_COMPATIBLE_INTERFACE_VERSION: nat := 16

  lemma VersionOrder()
    ensures DXGK_VMBUS_LAST_COMPATIBLE_INTERFACE_VERSION <= DXGK_VMBUS_INTERFACE_VERSION_OLD
    ensures DXGK_VMBUS_INTERFACE_VERSION_OLD < DXGK_VMBUS_INTERFACE_VERSION
  {
  }
}
