/**
  C bit-field layout, as GCC lays out the `union { struct { ... : w; ... }; u32 v; }` idiom the
  driver's headers use on little-endian targets: the first declared field occupies the lowest
  bits of the word and each further field starts where the previous one ends.

  A layout is the sequence of declared widths; a word holds one number per field. `Pack` and
  `Unpack` convert between the two, and `FieldIsShiftMask` shows that `Unpack` reads each field
  exactly as a shift-and-mask of the word does.
*/
module BitFields {

  /** An unsigned machine word of 32 bits (`__u32`). */
  type U32 = x: nat | x < 0x1_0000_0000

  /** 2 to the power n. */
  function Pow2(n: nat): (r: nat)
    ensures r >= 1
  {
    if n == 0 then 1 else 2 * Pow2(n - 1)
  }

  lemma {:induction false} Pow2Add(a: nat, b: nat)
    ensures Pow2(a + b) == Pow2(a) * Pow2(b)
  {
    if a > 0 {
      Pow2Add(a - 1, b);
      assert Pow2(a + b) == 2 * Pow2(a - 1 + b);
    }
  }

  /** The powers of two the driver's layouts use. */
  lemma Pow2Table()
    ensures Pow2(1) == 2 && Pow2(2) == 4 && Pow2(4) == 16 && Pow2(6) == 64 && Pow2(8) == 0x100
    ensures Pow2(12) == 0x1000 && Pow2(13) == 0x2000 && Pow2(14) == 0x4000 && Pow2(15) == 0x8000
    ensures Pow2(16) == 0x1_0000 && Pow2(18) == 0x4_0000 && Pow2(24) == 0x100_0000
    ensures Pow2(30) == 0x4000_0000 && Pow2(31) == 0x8000_0000 && Pow2(32) == 0x1_0000_0000
  {
    assert Pow2(2) == 4 && Pow2(4) == 16 && Pow2(6) == 64 && Pow2(8) == 0x100;
    Pow2Add(8, 4);
    Pow2Add(12, 1);
    Pow2Add(12, 2);
    Pow2Add(14, 1);
    Pow2Add(8, 8);
    Pow2Add(16, 2);
    Pow2Add(16, 8);
    Pow2Add(24, 6);
    Pow2Add(30, 1);
    Pow2Add(16, 16);
  }

  /** The number of bits a layout occupies: the sum of its widths. */
  function Width(ws: seq<nat>): nat
  {
    if ws == [] then 0 else ws[0] + Width(ws[1..])
  }

  lemma {:induction false} WidthAppend(xs: seq<nat>, ys: seq<nat>)
    ensures Width(xs + ys) == Width(xs) + Width(ys)
  {
    if xs != [] {
      assert (xs + ys)[1..] == xs[1..] + ys;
      WidthAppend(xs[1..], ys);
    } else {
      assert xs + ys == ys;
    }
  }

  /** n one-bit fields. */
  function Ones(n: nat): (ws: seq<nat>)
    ensures |ws| == n && forall i :: 0 <= i < n ==> ws[i] == 1
  {
    if n == 0 then [] else [1] + Ones(n - 1)
  }

  lemma {:induction false} WidthOnes(n: nat)
    ensures Width(Ones(n)) == n
  {
    if n > 0 {
      assert Ones(n)[1..] == Ones(n - 1);
      WidthOnes(n - 1);
    }
  }

  /** The bit position at which field i starts: the width of the fields declared before it. */
  function Offset(ws: seq<nat>, i: nat): nat
    requires i <= |ws|
  {
    Width(ws[..i])
  }

  /** Each field value fits in its declared width. */
  predicate Fits(ws: seq<nat>, fs: seq<nat>)
  {
    |fs| == |ws| && forall i :: 0 <= i < |ws| ==> fs[i] < Pow2(ws[i])
  }

  lemma MulBound(x: nat, p: nat, y: nat, q: nat)
    requires x < p && y < q
    ensures x + p * y < p * q
  {
    assert p * y <= p * (q - 1);
  }

  lemma MulLtCancel(p: int, a: int, b: int)
    requires p >= 1 && p * a < p * b
    ensures a < b
  {
    assert p * (b - a) > 0;
  }

  lemma DivBound(v: nat, p: nat, q: nat)
    requires p >= 1 && v < p * q
    ensures v / p < q
  {
    assert p * (v / p) <= v;
    MulLtCancel(p, v / p, q);
  }

  lemma DivModOfPacked(x: nat, p: nat, y: nat)
    requires x < p
    ensures (x + p * y) % p == x && (x + p * y) / p == y
  {
    var v := x + p * y;
    var q, r := v / p, v % p;
    assert v == p * q + r;
    var d := q - y;
    assert p * d == x - r;
    MulLtCancel(p, d, 1);
    MulLtCancel(p, -1, d);
  }

  lemma DivDiv(v: nat, a: nat, b: nat)
    requires a >= 1 && b >= 1
    ensures (v / a) / b == v / (a * b)
  {
    var q := v / a;
    var r := v % a;
    var q2 := q / b;
    var r2 := q % b;
    assert v == a * q + r;
    assert q == b * q2 + r2;
    assert v == (a * b) * q2 + (a * r2 + r) by {
      assert a * q == a * (b * q2) + a * r2;
    }
    MulBound(r, a, r2, b);
    DivModOfPacked(a * r2 + r, a * b, q2);
  }

  /** The word whose fields hold fs: field 0 in the lowest bits. */
  function Pack(ws: seq<nat>, fs: seq<nat>): (v: nat)
    requires Fits(ws, fs)
    ensures v < Pow2(Width(ws))
  {
    if ws == [] then 0
    else
      var rest := Pack(ws[1..], fs[1..]);
      Pow2Add(ws[0], Width(ws[1..]));
      MulBound(fs[0], Pow2(ws[0]), rest, Pow2(Width(ws[1..])));
      fs[0] + Pow2(ws[0]) * rest
  }

  lemma DivModSplit(v: nat, p: nat, q: nat)
    requires p >= 1 && v < p * q
    ensures v == v % p + p * (v / p) && v % p < p && v / p < q
  {
    DivBound(v, p, q);
  }

  /** Consing a field that fits onto fields that fit gives fields that fit; Pack unfolds once. */
  lemma ConsFits(ws: seq<nat>, r: nat, tail: seq<nat>)
    requires ws != [] && r < Pow2(ws[0]) && Fits(ws[1..], tail)
    ensures Fits(ws, [r] + tail) && ([r] + tail)[1..] == tail
    ensures Pack(ws, [r] + tail) == r + Pow2(ws[0]) * Pack(ws[1..], tail)
  {
    var fs := [r] + tail;
    assert fs[1..] == tail;
    forall i | 0 <= i < |ws|
      ensures fs[i] < Pow2(ws[i])
    {
      if i > 0 {
        assert fs[i] == tail[i - 1];
      }
    }
  }

  /** The field values held in v; packing them gives v back. */
  function Unpack(ws: seq<nat>, v: nat): (fs: seq<nat>)
    requires v < Pow2(Width(ws))
    ensures Fits(ws, fs) && Pack(ws, fs) == v
  {
    if ws == [] then []
    else
      var p := Pow2(ws[0]);
      Pow2Add(ws[0], Width(ws[1..]));
      DivModSplit(v, p, Pow2(Width(ws[1..])));
      var tail := Unpack(ws[1..], v / p);
      ConsFits(ws, v % p, tail);
      [v % p] + tail
  }

  /** Unpacking a packed word gives the fields back: packing is injective. */
  lemma {:induction false} UnpackPack(ws: seq<nat>, fs: seq<nat>)
    requires Fits(ws, fs)
    ensures Unpack(ws, Pack(ws, fs)) == fs
  {
    if ws != [] {
      var p := Pow2(ws[0]);
      var rest := Pack(ws[1..], fs[1..]);
      DivModOfPacked(fs[0], p, rest);
      UnpackPack(ws[1..], fs[1..]);
    }
  }

  lemma OffsetStep(ws: seq<nat>, i: nat)
    requires 0 < i <= |ws|
    ensures Offset(ws, i) == ws[0] + Offset(ws[1..], i - 1)
  {
    assert ws[..i][1..] == ws[1..][..i - 1];
  }

  /** Field i of a word is the word shifted right by the field's offset, masked to its width. */
  lemma {:induction false} FieldIsShiftMask(ws: seq<nat>, v: nat, i: nat)
    requires v < Pow2(Width(ws)) && i < |ws|
    ensures Unpack(ws, v)[i] == (v / Pow2(Offset(ws, i))) % Pow2(ws[i])
  {
    if i > 0 {
      var p := Pow2(ws[0]);
      Pow2Add(ws[0], Width(ws[1..]));
      DivBound(v, p, Pow2(Width(ws[1..])));
      var w := v / p;
      assert Unpack(ws, v)[i] == Unpack(ws[1..], w)[i - 1];
      FieldIsShiftMask(ws[1..], w, i - 1);
      var o := Offset(ws[1..], i - 1);
      OffsetStep(ws, i);
      Pow2Add(ws[0], o);
      DivDiv(v, p, Pow2(o));
    }
  }
}
