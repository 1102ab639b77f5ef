/**
  The kernel string primitives whose behaviour the KUnit suite lib/string_kunit.c pins down:
  the typed fills memset16/32/64, the searches strchr and strnchr, the span functions strspn and
  strcspn, and the comparisons strcmp, strncmp, strcasecmp and strncasecmp.

  A C string is modelled by the buffer that holds it, a `seq<char>`. The string runs up to the
  first NUL of the buffer; a buffer without a NUL reads as if a NUL followed its last element
  (`At`). Characters compare by their code, as the kernel compares `unsigned char`s, and case
  folding is ASCII only.

  The fills work in place on an array, as the tests' buffers are written; the searches and
  comparisons are functions whose contracts characterise their results against the string
  contents (`Str`) and an independent lexicographic order (`LexLess`).
*/
module KString {
  import opened Wrappers

  const NUL: char := '\0'

  // ---------------------------------------------------------------------------------------------
  // Typed fills

  newtype U16 = x: int | 0 <= x < 0x1_0000
  newtype U32 = x: int | 0 <= x < 0x1_0000_0000
  newtype U64 = x: int | 0 <= x < 0x1_0000_0000_0000_0000

  /**
    memset16/32/64(p + start, v, count): writes v into the count elements from index start on and
    into no other element.
  */
  method Memset<T>(a: array<T>, start: nat, v: T, count: nat)
    requires start + count <= a.Length
    modifies a
    ensures forall k :: 0 <= k < a.Length ==>
      a[k] == (if start <= k < start + count then v else old(a[k]))
  {
    var n := 0;
    while n < count
      invariant n <= count
      invariant forall k :: 0 <= k < a.Length ==>
        a[k] == (if start <= k < start + n then v else old(a[k]))
    {
      a[start + n] := v;
      n := n + 1;
    }
  }

  /** The value of an n-byte word every byte of which is b: what a byte-wise memset leaves. */
  function Splat(b: nat, n: nat): (w: nat)
    requires b < 0x100
    ensures n > 0 ==> w % 0x100 == b
  {
    if n == 0 then 0 else b + 0x100 * Splat(b, n - 1)
  }

  /** The byte 0xa1 the tests fill their buffers with, read as 2-, 4- and 8-byte elements. */
  lemma SplatA1()
    ensures Splat(0xa1, 2) == 0xa1a1 && Splat(0xa1, 4) == 0xa1a1_a1a1
    ensures Splat(0xa1, 8) == 0xa1a1_a1a1_a1a1_a1a1
  {
  }

  /**
    One (i, j) case of test_memset16: a 512-element buffer filled byte-wise with 0xa1, then
    memset16(p + i, 0xb1b2, j). Below i and from i + j on every element still reads 0xa1a1.
  */
  method Memset16Case(i: nat, j: nat) returns (r: seq<U16>)
    requires i < 256 && j < 256
    ensures |r| == 512
    ensures forall k :: 0 <= k < 512 ==>
      r[k] == (if k < i then 0xa1a1 else if k < i + j then 0xb1b2 else 0xa1a1)
  {
    SplatA1();
    var fill := Splat(0xa1, 2) as U16;
    var p := new U16[512](_ => fill);
    Memset(p, i, 0xb1b2, j);
    r := p[..];
  }

  /** One (i, j) case of test_memset32, with 0xa1a1a1a1 around the 0xb1b2b3b4 run. */
  method Memset32Case(i: nat, j: nat) returns (r: seq<U32>)
    requires i < 256 && j < 256
    ensures |r| == 512
    ensures forall k :: 0 <= k < 512 ==>
      r[k] == (if k < i then 0xa1a1_a1a1 else if k < i + j then 0xb1b2_b3b4 else 0xa1a1_a1a1)
  {
    SplatA1();
    var fill := Splat(0xa1, 4) as U32;
    var p := new U32[512](_ => fill);
    Memset(p, i, 0xb1b2_b3b4, j);
    r := p[..];
  }

  /** One (i, j) case of test_memset64, with 0xa1...a1 around the 0xb1b2b3b4b5b6b7b8 run. */
  method Memset64Case(i: nat, j: nat) returns (r: seq<U64>)
    requires i < 256 && j < 256
    ensures |r| == 512
    ensures forall k :: 0 <= k < 512 ==>
      r[k] == (if k < i then 0xa1a1_a1a1_a1a1_a1a1
               else if k < i + j then 0xb1b2_b3b4_b5b6_b7b8
               else 0xa1a1_a1a1_a1a1_a1a1)
  {
    SplatA1();
    var fill := Splat(0xa1, 8) as U64;
    var p := new U64[512](_ => fill);
    Memset(p, i, 0xb1b2_b3b4_b5b6_b7b8, j);
    r := p[..];
  }

  // ---------------------------------------------------------------------------------------------
  // Strings in buffers

  /** The character at position i of a buffer; past its end, the implicit terminator. */
  function At(s: seq<char>, i: nat): char
  {
    if i < |s| then s[i] else NUL
  }

  /** strlen: the position of the first NUL. */
  function StrLen(s: seq<char>): (n: nat)
    ensures n <= |s| && At(s, n) == NUL
    ensures forall i :: 0 <= i < n ==> s[i] != NUL
  {
    if |s| == 0 || s[0] == NUL then 0 else 1 + StrLen(s[1..])
  }

  /** The characters of the string a buffer holds, without its terminator. */
  function Str(s: seq<char>): (x: seq<char>)
    ensures |x| == StrLen(s) && forall i :: 0 <= i < |x| ==> x[i] == s[i] && x[i] != NUL
  {
    s[..StrLen(s)]
  }

  /** A buffer holding no NUL holds exactly its own characters as a string. */
  lemma {:induction false} StrOfPlain(s: seq<char>)
    requires forall i :: 0 <= i < |s| ==> s[i] != NUL
    ensures Str(s) == s
  {
    if |s| > 0 {
      StrOfPlain(s[1..]);
    }
  }

  /** Dropping the first character of a non-empty string drops it from the string's contents. */
  lemma StrTail(s: seq<char>)
    requires At(s, 0) != NUL
    ensures Str(s) == [s[0]] + Str(s[1..])
  {
    assert StrLen(s) == 1 + StrLen(s[1..]);
  }

  // ---------------------------------------------------------------------------------------------
  // Searches

  /**
    strchr(s, c): the position of the first c in the string, where the terminator itself can be
    found; None (NULL) when the string holds no c.
  */
  function StrChr(s: seq<char>, c: char): (r: Option<nat>)
    ensures r.Some? ==> r.value <= StrLen(s) && At(s, r.value) == c
    ensures r.Some? ==> forall i :: 0 <= i < r.value ==> s[i] != c
    ensures r.None? ==> forall i :: 0 <= i <= StrLen(s) ==> At(s, i) != c
  {
    if At(s, 0) == c then Some(0)
    else if At(s, 0) == NUL then None
    else
      var r := StrChr(s[1..], c);
      assert StrLen(s) == 1 + StrLen(s[1..]);
      assert forall i :: 1 <= i <= StrLen(s) ==> At(s, i) == At(s[1..], i - 1);
      if r.None? then None else Some(r.value + 1)
  }

  /**
    strnchr(s, count, c): as strchr, but only the first count positions are examined, so a c at
    position count or later is not found, and count = 0 finds nothing.
  */
  function StrNChr(s: seq<char>, count: nat, c: char): (r: Option<nat>)
    ensures r.Some? ==> r.value < count && r.value <= StrLen(s) && At(s, r.value) == c
    ensures r.Some? ==> forall i :: 0 <= i < r.value ==> s[i] != c
    ensures r.None? ==> forall i :: 0 <= i < count && i <= StrLen(s) ==> At(s, i) != c
  {
    if count == 0 then None
    else if At(s, 0) == c then Some(0)
    else if At(s, 0) == NUL then None
    else
      var r := StrNChr(s[1..], count - 1, c);
      assert StrLen(s) == 1 + StrLen(s[1..]);
      assert forall i :: 1 <= i <= StrLen(s) ==> At(s, i) == At(s[1..], i - 1);
      if r.None? then None else Some(r.value + 1)
  }

  /** strchr is strnchr with a count that reaches the terminator. */
  lemma {:induction false} StrChrIsStrNChr(s: seq<char>, c: char)
    ensures StrChr(s, c) == StrNChr(s, StrLen(s) + 1, c)
  {
    if At(s, 0) != c && At(s, 0) != NUL {
      StrChrIsStrNChr(s[1..], c);
    }
  }

  /** For a character other than NUL, strchr finds it exactly when it occurs in the string. */
  lemma StrChrFinds(a: seq<char>, ch: char)
    requires ch != NUL
    ensures StrChr(a, ch).Some? <==> ch in Str(a)
  {
    var r := StrChr(a, ch);
    if r.Some? {
      assert r.value < StrLen(a);
      assert Str(a)[r.value] == ch;
    } else {
      forall i | 0 <= i < |Str(a)|
        ensures Str(a)[i] != ch
      {
        assert At(a, i) != ch;
      }
    }
  }

  // ---------------------------------------------------------------------------------------------
  // Spans

  /**
    strspn(s, accept): the length of the longest prefix of the string made of characters that
    occur in the accept string. The scan tests each character with strchr on accept.
  */
  function StrSpn(s: seq<char>, accept: seq<char>): (r: nat)
    ensures r <= StrLen(s)
    ensures forall i :: 0 <= i < r ==> s[i] in Str(accept)
    ensures r < StrLen(s) ==> s[r] !in Str(accept)
  {
    if At(s, 0) == NUL then 0
    else
      StrChrFinds(accept, s[0]);
      if StrChr(accept, s[0]).None? then 0 else 1 + StrSpn(s[1..], accept)
  }

  /**
    strcspn(s, reject): the length of the longest prefix of the string made of characters that
    do not occur in the reject string.
  */
  function StrCSpn(s: seq<char>, reject: seq<char>): (r: nat)
    ensures r <= StrLen(s)
    ensures forall i :: 0 <= i < r ==> s[i] !in Str(reject)
    ensures r < StrLen(s) ==> s[r] in Str(reject)
  {
    if At(s, 0) == NUL then 0
    else
      StrChrFinds(reject, s[0]);
      if StrChr(reject, s[0]).Some? then 0 else 1 + StrCSpn(s[1..], reject)
  }

  // ---------------------------------------------------------------------------------------------
  // Comparisons

  /** Lexicographic order on character sequences: a proper prefix comes first. */
  predicate LexLess(x: seq<char>, y: seq<char>)
  {
    |y| > 0 && (|x| == 0 || x[0] < y[0] || (x[0] == y[0] && LexLess(x[1..], y[1..])))
  }

  /** Exactly one of x == y, x before y, y before x holds. */
  lemma {:induction false} LexTrichotomy(x: seq<char>, y: seq<char>)
    ensures x == y || LexLess(x, y) || LexLess(y, x)
    ensures !(LexLess(x, y) && LexLess(y, x))
  {
    if |x| > 0 && |y| > 0 && x[0] == y[0] {
      LexTrichotomy(x[1..], y[1..]);
      if x[1..] == y[1..] {
        assert x == [x[0]] + x[1..] && y == [y[0]] + y[1..];
      }
    }
  }

  /** No sequence comes before itself. */
  lemma {:induction false} LexIrreflexive(x: seq<char>)
    ensures !LexLess(x, x)
  {
    if |x| > 0 {
      LexIrreflexive(x[1..]);
    }
  }

  /** A common prefix does not change the order. */
  lemma {:induction false} LexCommonPrefix(p: seq<char>, x: seq<char>, y: seq<char>)
    ensures LexLess(p + x, p + y) <==> LexLess(x, y)
  {
    if |p| > 0 {
      assert (p + x)[1..] == p[1..] + x && (p + y)[1..] == p[1..] + y;
      LexCommonPrefix(p[1..], x, y);
    } else {
      assert p + x == x && p + y == y;
    }
  }

  /** Two sequences agreeing below k and differing at k are ordered by their characters at k. */
  lemma LexFirstDifference(x: seq<char>, y: seq<char>, k: nat)
    requires k < |x| && k < |y| && x[..k] == y[..k] && x[k] < y[k]
    ensures LexLess(x, y)
  {
    assert x == x[..k] + x[k..] && y == y[..k] + y[k..];
    LexCommonPrefix(x[..k], x[k..], y[k..]);
  }

  /** A proper prefix comes first. */
  lemma {:induction false} LexProperPrefix(x: seq<char>, y: seq<char>)
    requires |x| < |y| && y[..|x|] == x
    ensures LexLess(x, y)
  {
    if |x| > 0 {
      assert y[1..][..|x| - 1] == x[1..];
      LexProperPrefix(x[1..], y[1..]);
    }
  }

  /** ASCII tolower. */
  function Lower(c: char): (d: char)
    ensures ('A' <= c <= 'Z') ==> d as int == c as int + 32
    ensures !('A' <= c <= 'Z') ==> d == c
  {
    if 'A' <= c <= 'Z' then (c as int + 32) as char else c
  }

  /** A string with every character lowered. */
  function ToLower(x: seq<char>): (y: seq<char>)
    ensures |y| == |x| && forall i :: 0 <= i < |x| ==> y[i] == Lower(x[i])
  {
    seq(|x|, i requires 0 <= i < |x| => Lower(x[i]))
  }

  /** The character a comparison looks at: folded to lower case when the comparison ignores case. */
  function Key(c: char, fold: bool): char
  {
    if fold then Lower(c) else c
  }

  function Keys(x: seq<char>, fold: bool): seq<char>
  {
    if fold then ToLower(x) else x
  }

  /** At most the first limit characters of x; all of x when there is no limit. */
  function Take(x: seq<char>, limit: Option<nat>): (y: seq<char>)
    ensures limit.None? ==> y == x
    ensures limit.Some? ==> |y| == if limit.value < |x| then limit.value else |x|
    ensures forall i :: 0 <= i < |y| ==> i < |x| && y[i] == x[i]
  {
    if limit.Some? && limit.value < |x| then x[..limit.value] else x
  }

  /**
    The loop shared by the four comparisons: characters are read pairwise, folded when fold is
    set, until they differ, the first string ends, or limit characters have been read. The sign
    of the first difference is the result.
  */
  function Compare(s: seq<char>, t: seq<char>, limit: Option<nat>, fold: bool): (r: int)
    ensures r == -1 || r == 0 || r == 1
    decreases |s|
  {
    if limit == Some(0) then 0
    else
      var c1 := Key(At(s, 0), fold);
      var c2 := Key(At(t, 0), fold);
      if c1 != c2 then (if c1 < c2 then -1 else 1)
      else if At(s, 0) == NUL then 0
      else Compare(s[1..], t[1..], if limit.Some? then Some(limit.value - 1) else None, fold)
  }

  /** The comparison's view of a non-empty string: its first character, then the view of the rest. */
  lemma ViewTail(s: seq<char>, limit: Option<nat>, fold: bool)
    requires At(s, 0) != NUL && limit != Some(0)
    ensures Take(Keys(Str(s), fold), limit)
      == [Key(s[0], fold)] + Take(Keys(Str(s[1..]), fold), if limit.Some? then Some(limit.value - 1) else None)
  {
    StrTail(s);
    var x := Str(s);
    var x' := Str(s[1..]);
    assert Keys(x, fold) == [Key(s[0], fold)] + Keys(x', fold);
  }

  /** Lowering keeps NUL and only NUL at NUL. */
  lemma KeyNul(c: char, fold: bool)
    ensures Key(c, fold) == NUL <==> c == NUL
  {
  }

  /**
    The comparison orders the (folded, truncated) strings lexicographically: zero exactly when
    they are equal, negative exactly when the first comes first, positive exactly when it comes
    second.
  */
  lemma {:induction false} CompareIsLex(s: seq<char>, t: seq<char>, limit: Option<nat>, fold: bool)
    ensures var x := Take(Keys(Str(s), fold), limit);
            var y := Take(Keys(Str(t), fold), limit);
            && (Compare(s, t, limit, fold) == 0 <==> x == y)
            && (Compare(s, t, limit, fold) < 0 <==> LexLess(x, y))
            && (Compare(s, t, limit, fold) > 0 <==> LexLess(y, x))
    decreases |s|
  {
    var x := Take(Keys(Str(s), fold), limit);
    var y := Take(Keys(Str(t), fold), limit);
    LexTrichotomy(x, y);
    LexIrreflexive(x);
    if limit == Some(0) {
      assert x == [] && y == [];
    } else {
      KeyNul(At(s, 0), fold);
      KeyNul(At(t, 0), fold);
      var c1 := Key(At(s, 0), fold);
      var c2 := Key(At(t, 0), fold);
      if At(s, 0) == NUL {
        assert x == [];
        if At(t, 0) != NUL {
          ViewTail(t, limit, fold);
        } else {
          assert y == [];
        }
      } else if At(t, 0) == NUL {
        ViewTail(s, limit, fold);
        assert y == [];
      } else {
        ViewTail(s, limit, fold);
        ViewTail(t, limit, fold);
        var limit' := if limit.Some? then Some(limit.value - 1) else None;
        var x' := Take(Keys(Str(s[1..]), fold), limit');
        var y' := Take(Keys(Str(t[1..]), fold), limit');
        assert x == [c1] + x' && y == [c2] + y';
        assert x[1..] == x' && y[1..] == y';
        if c1 == c2 {
          CompareIsLex(s[1..], t[1..], limit', fold);
        }
      }
    }
  }

  /**
    strcmp(s, t): zero exactly when the strings are equal, negative exactly when s comes first in
    lexicographic order (so a proper prefix, the empty string among them, is smaller), positive
    exactly when t comes first.
  */
  function StrCmp(s: seq<char>, t: seq<char>): (r: int)
    ensures r == 0 <==> Str(s) == Str(t)
    ensures r < 0 <==> LexLess(Str(s), Str(t))
    ensures r > 0 <==> LexLess(Str(t), Str(s))
  {
    CompareIsLex(s, t, None, false);
    Compare(s, t, None, false)
  }

  /** strncmp(s, t, count): strcmp on at most the first count characters of each string. */
  function StrNCmp(s: seq<char>, t: seq<char>, count: nat): (r: int)
    ensures var x := Take(Str(s), Some(count));
            var y := Take(Str(t), Some(count));
            && (r == 0 <==> x == y)
            && (r < 0 <==> LexLess(x, y))
            && (r > 0 <==> LexLess(y, x))
  {
    CompareIsLex(s, t, Some(count), false);
    Compare(s, t, Some(count), false)
  }

  /** strcasecmp(s, t): strcmp on the strings with ASCII letters lowered. */
  function StrCaseCmp(s: seq<char>, t: seq<char>): (r: int)
    ensures r == 0 <==> ToLower(Str(s)) == ToLower(Str(t))
    ensures r < 0 <==> LexLess(ToLower(Str(s)), ToLower(Str(t)))
    ensures r > 0 <==> LexLess(ToLower(Str(t)), ToLower(Str(s)))
  {
    CompareIsLex(s, t, None, true);
    Compare(s, t, None, true)
  }

  /** strncasecmp(s, t, count): strcasecmp on at most the first count characters of each string. */
  function StrNCaseCmp(s: seq<char>, t: seq<char>, count: nat): (r: int)
    ensures var x := Take(ToLower(Str(s)), Some(count));
            var y := Take(ToLower(Str(t)), Some(count));
            && (r == 0 <==> x == y)
            && (r < 0 <==> LexLess(x, y))
            && (r > 0 <==> LexLess(y, x))
  {
    CompareIsLex(s, t, Some(count), true);
    Compare(s, t, Some(count), true)
  }

  /** Swapping the arguments of strcmp flips the sign of its result. */
  lemma StrCmpAntisymmetric(s: seq<char>, t: seq<char>)
    ensures StrCmp(s, t) == -StrCmp(t, s)
  {
    LexTrichotomy(Str(s), Str(t));
    LexIrreflexive(Str(s));
    assert Compare(s, t, None, false) in {-1, 0, 1};
    assert Compare(t, s, None, false) in {-1, 0, 1};
  }

  /** A count of zero compares nothing: strncmp and strncasecmp report equal. */
  lemma CountZeroIsEqual(s: seq<char>, t: seq<char>)
    ensures StrNCmp(s, t, 0) == 0 && StrNCaseCmp(s, t, 0) == 0
  {
    assert Take(Str(s), Some(0)) == [] == Take(Str(t), Some(0));
    assert Take(ToLower(Str(s)), Some(0)) == [] == Take(ToLower(Str(t)), Some(0));
  }

  // ---------------------------------------------------------------------------------------------
  // The suite's cases

  /**
    In "abcdefghijkl", the string test_strchr and test_strnchr search, each position up to the
    terminator at 12 holds a character no other position holds.
  */
  lemma LettersDistinct(letters: seq<char>)
    requires letters == "abcdefghijkl"
    ensures StrLen(letters) == 12
    ensures forall m, n :: 0 <= m <= 12 && 0 <= n <= 12 && At(letters, m) == At(letters, n) ==> m == n
  {
    assert forall m :: 0 <= m < 12 ==> letters[m] as int == 'a' as int + m;
    StrOfPlain(letters);
  }

  /** test_strchr: each position of the string, its terminator included, is found by its character. */
  lemma StrChrCases(letters: seq<char>)
    requires letters == "abcdefghijkl"
    ensures forall i :: 0 <= i <= 12 ==> StrChr(letters, At(letters, i)) == Some(i)
    ensures StrChr("", NUL) == Some(0) && StrChr("", 'a') == None
    ensures StrChr(letters, 'z') == None
  {
    LettersDistinct(letters);
    assert forall m :: 0 <= m < 12 ==> letters[m] != 'z';
  }

  /**
    test_strnchr: within "abcdefghijkl", the character at i is found at i by every count above i and by
    none up to i. NULL with count 0 is any buffer with count 0: nothing is read.
  */
  lemma StrNChrCases(letters: seq<char>)
    requires letters == "abcdefghijkl"
    ensures forall i, j :: 0 <= i <= 12 && 0 <= j <= 13 ==>
      StrNChr(letters, j, At(letters, i)) == if j <= i then None else Some(i)
    ensures StrNChr("", 0, NUL) == None && StrNChr("", 1, NUL) == Some(0)
    ensures StrNChr("", 1, 'a') == None
    ensures forall s: seq<char> :: StrNChr(s, 0, NUL) == None
  {
    LettersDistinct(letters);
  }

  /** test_strspn, row one: an empty accept set spans nothing, an empty reject set spans all. */
  lemma StrSpnEmptySets()
    ensures StrSpn("foobar", "") == 0 && StrCSpn("foobar", "") == 6
  {
    StrOfPlain("foobar");
    StrOfPlain("");
  }

  /** test_strspn, row two: every character accepted, none rejected. */
  lemma StrSpnAll()
    ensures StrSpn("abba", "abc") == 4 && StrCSpn("abba", "ABBA") == 4
  {
    StrOfPlain("abba");
    StrOfPlain("abc");
    StrOfPlain("ABBA");
  }

  /** test_strspn, row three: the scan stops at the first character outside, or inside, the set. */
  lemma StrSpnStops()
    ensures StrSpn("abba", "a") == 1 && StrCSpn("abba", "b") == 1
  {
    StrOfPlain("abba");
    StrOfPlain("a");
    StrOfPlain("b");
  }

  /** test_strspn, row four: the empty string spans nothing. */
  lemma StrSpnEmptyString()
    ensures StrSpn("", "abc") == 0 && StrCSpn("", "abc") == 0
  {
  }

  /** The strlen of a buffer is the position of its first NUL, wherever that is found. */
  lemma {:induction false} StrLenIs(s: seq<char>, n: nat)
    requires n <= |s| && At(s, n) == NUL && forall i :: 0 <= i < n ==> s[i] != NUL
    ensures StrLen(s) == n
  {
    if n > 0 {
      StrLenIs(s[1..], n - 1);
    }
  }

  /** test_strcmp, "Hello, Kernel!" and "Hello, KUnit!": equal to itself, 'U' before 'e'. */
  lemma StrCmpHello(kernel: seq<char>, kunit: seq<char>)
    requires kernel == "Hello, Kernel!" && kunit == "Hello, KUnit!"
    ensures StrCmp(kernel, kernel) == 0
    ensures StrCmp(kunit, kernel) < 0 && StrCmp(kernel, kunit) > 0
  {
    StrOfPlain(kernel);
    StrOfPlain(kunit);
    LexFirstDifference(kunit, kernel, 8);
  }

  /** test_strcmp: the empty string comes before a non-empty one and equals itself. */
  lemma StrCmpEmpty(empty: seq<char>, other: seq<char>)
    requires empty == "" && other == "Non-empty string"
    ensures StrCmp(empty, other) < 0 && StrCmp(empty, empty) == 0
  {
    StrOfPlain(other);
  }

  /** test_strcmp: strings differing in one character are ordered by it. */
  lemma StrCmpOneDifference(x: seq<char>, y: seq<char>)
    requires x == "Abacaba" && y == "Abadaba"
    ensures StrCmp(x, y) < 0
  {
    StrOfPlain(x);
    StrOfPlain(y);
    LexFirstDifference(x, y, 3);
  }

  /** test_strcmp: a proper prefix comes first. */
  lemma StrCmpPrefix(x: seq<char>, y: seq<char>)
    requires x == "Just a string" && y == "Just a string and something else"
    ensures StrCmp(x, y) < 0
  {
    assert y[..|x|] == x;
    PlainPrefixCmp(x, y);
  }

  /** A NUL-free proper prefix compares below its extension. */
  lemma PlainPrefixCmp(x: seq<char>, y: seq<char>)
    requires forall i :: 0 <= i < |y| ==> y[i] != NUL
    requires |x| < |y| && y[..|x|] == x
    ensures StrCmp(x, y) < 0
  {
    assert forall i :: 0 <= i < |x| ==> x[i] == y[i];
    StrOfPlain(x);
    StrOfPlain(y);
    LexProperPrefix(x, y);
  }

  /** test_strncmp on "Hello, KUnit!" and "Hello, Kernel!": 13 characters see the difference, 0 none. */
  lemma StrNCmpHello(kunit: seq<char>, kernel: seq<char>)
    requires kunit == "Hello, KUnit!" && kernel == "Hello, Kernel!"
    ensures StrNCmp(kunit, kunit, 13) == 0
    ensures StrNCmp(kunit, kernel, 13) < 0
    ensures StrNCmp(kernel, kunit, 0) == 0
  {
    StrOfPlain(kunit);
    StrOfPlain(kernel);
    LexFirstDifference(kunit, kernel[..13], 8);
    CountZeroIsEqual(kernel, kunit);
  }

  /** test_strncmp: a count covering only the common prefix compares equal, one more does not. */
  lemma StrNCmpCommonPrefix(x: seq<char>, y: seq<char>)
    requires x == "Abacaba" && y == "Abadaba"
    ensures StrNCmp(x, y, 3) == 0 && StrNCmp(x, y, 4) < 0
  {
    StrOfPlain(x);
    StrOfPlain(y);
    LexFirstDifference(x[..4], y[..4], 3);
  }

  /**
    test_strncmp: with the longer string's strlen as count the proper prefix comes first; with the
    prefix's own strlen the two compare equal.
  */
  lemma StrNCmpPrefix(x: seq<char>, y: seq<char>)
    requires x == "Just a string" && y == "Just a string and something else"
    ensures StrNCmp(x, y, StrLen(y)) < 0 && StrNCmp(x, y, StrLen(x)) == 0
  {
    assert y[..|x|] == x;
    PlainPrefixNCmp(x, y);
  }

  /**
    Over the longer length a NUL-free proper prefix compares below its extension, and over
    its own length the two compare equal.
  */
  lemma PlainPrefixNCmp(x: seq<char>, y: seq<char>)
    requires forall i :: 0 <= i < |y| ==> y[i] != NUL
    requires |x| < |y| && y[..|x|] == x
    ensures StrLen(x) == |x| && StrLen(y) == |y|
    ensures StrNCmp(x, y, |y|) < 0 && StrNCmp(x, y, |x|) == 0
  {
    assert forall i :: 0 <= i < |x| ==> x[i] == y[i];
    StrOfPlain(x);
    StrOfPlain(y);
    LexProperPrefix(x, y);
    assert Take(x, Some(|y|)) == x && Take(y, Some(|y|)) == y;
    assert Take(x, Some(|x|)) == x && Take(y, Some(|x|)) == x;
  }

  /** test_strcasecmp: strings differing only in case compare equal. */
  lemma StrCaseCmpHello(x: seq<char>, y: seq<char>)
    requires x == "Hello, Kernel!" && y == "HeLLO, KErNeL!"
    ensures StrCaseCmp(x, y) == 0
  {
    StrOfPlain(x);
    StrOfPlain(y);
  }

  /** test_strcasecmp: 'a' comes before 'B' once case is ignored, although 'B' has the lower code. */
  lemma StrCaseCmpLetters(a: seq<char>, b: seq<char>)
    requires a == "a" && b == "B"
    ensures StrCaseCmp(a, b) < 0 && StrCaseCmp(b, a) > 0
    ensures StrCaseCmp("", "") == 0
  {
    StrOfPlain(a);
    StrOfPlain(b);
    assert ToLower(a) == "a" && ToLower(b) == "b";
  }

  /** test_strcasecmp: digits and symbols are compared unchanged. */
  lemma StrCaseCmpSymbols(x: seq<char>, y: seq<char>)
    requires x == "-+**.1230ghTTT~^" && y == "-+**.1230Ghttt~^"
    ensures StrCaseCmp(x, y) == 0
  {
    StrOfPlain(x);
    StrOfPlain(y);
  }

  /** test_strncasecmp: strings differing only in case compare equal over the full strlen. */
  lemma StrNCaseCmpCase(x: seq<char>, y: seq<char>)
    requires x == "AbAcAbA" && y == "Abacaba"
    ensures StrNCaseCmp(x, y, StrLen(y)) == 0
  {
    StrOfPlain(x);
    StrOfPlain(y);
  }

  /** test_strncasecmp: only count characters are compared, and a count of 0 compares none. */
  lemma StrNCaseCmpCount(x: seq<char>, y: seq<char>, u: seq<char>, v: seq<char>)
    requires x == "AbaCaBa" && y == "abaCaDa" && u == "Abacaba" && v == "Not abacaba"
    ensures StrNCaseCmp(x, y, 5) == 0 && StrNCaseCmp(u, v, 0) == 0
  {
    StrOfPlain(x);
    StrOfPlain(y);
    assert ToLower(x)[..5] == ToLower(y)[..5];
    CountZeroIsEqual(u, v);
  }

  /** test_strncasecmp: one-character counts order 'a' before 'B'. */
  lemma StrNCaseCmpLetters(a: seq<char>, b: seq<char>)
    requires a == "a" && b == "B"
    ensures StrNCaseCmp(a, b, 1) < 0 && StrNCaseCmp(b, a, 1) > 0
  {
    StrOfPlain(a);
    StrOfPlain(b);
    assert ToLower(a) == "a" && ToLower(b) == "b";
  }

  /** STRCMP_LARGE_BUF_LEN, the size of the long-string tests' buffers. */
  const LargeBufLen: nat := 2048
  /** STRCMP_CHANGE_POINT, the position the long-string tests overwrite. */
  const ChangePoint: nat := 1337

  /** strcmp_fill_buffers: LargeBufLen copies of c, the last one replaced by NUL. */
  function FilledBuffer(c: char): (b: seq<char>)
    ensures |b| == LargeBufLen && b[LargeBufLen - 1] == NUL
    ensures forall i :: 0 <= i < LargeBufLen - 1 ==> b[i] == c
  {
    seq(LargeBufLen, i => if i == LargeBufLen - 1 then NUL else c)
  }

  /**
    A filled buffer with d written at the change point holds a string of LargeBufLen - 1
    characters: c everywhere but at the change point, which holds d.
  */
  lemma ChangedBuffer(c: char, d: char)
    requires c != NUL && d != NUL
    ensures var x := Str(FilledBuffer(c)[ChangePoint := d]);
            && |x| == LargeBufLen - 1
            && forall i :: 0 <= i < |x| ==> x[i] == if i == ChangePoint then d else c
  {
    StrLenIs(FilledBuffer(c)[ChangePoint := d], LargeBufLen - 1);
  }

  /** A filled buffer holds a string of LargeBufLen - 1 copies of c. */
  lemma FilledString(c: char)
    requires c != NUL
    ensures var x := Str(FilledBuffer(c));
            && |x| == LargeBufLen - 1
            && forall i :: 0 <= i < |x| ==> x[i] == c
  {
    StrLenIs(FilledBuffer(c), LargeBufLen - 1);
  }

  /** test_strcmp_long_strings: buffers of 'B', then 'A' and then 'C' written at the change point. */
  lemma StrCmpLongStrings(b: char, lo: char, hi: char)
    requires b == 'B' && lo == 'A' && hi == 'C'
    ensures StrCmp(FilledBuffer(b), FilledBuffer(b)) == 0
    ensures StrCmp(FilledBuffer(b)[ChangePoint := lo], FilledBuffer(b)) < 0
    ensures StrCmp(FilledBuffer(b)[ChangePoint := hi], FilledBuffer(b)) > 0
  {
    var y := Str(FilledBuffer(b));
    FilledString(b);
    ChangedBuffer(b, lo);
    ChangedBuffer(b, hi);
    var xlo := Str(FilledBuffer(b)[ChangePoint := lo]);
    var xhi := Str(FilledBuffer(b)[ChangePoint := hi]);
    assert xlo[..ChangePoint] == y[..ChangePoint] == xhi[..ChangePoint];
    LexFirstDifference(xlo, y, ChangePoint);
    LexFirstDifference(y, xhi, ChangePoint);
  }

  /**
    test_strncmp_long_strings: over the whole buffer as for strcmp; a count ending at the change
    point sees equal strings, one more character sees the 'C'.
  */
  lemma StrNCmpLongStrings(b: char, lo: char, hi: char)
    requires b == 'B' && lo == 'A' && hi == 'C'
    ensures StrNCmp(FilledBuffer(b), FilledBuffer(b), LargeBufLen) == 0
    ensures StrNCmp(FilledBuffer(b)[ChangePoint := lo], FilledBuffer(b), LargeBufLen) < 0
    ensures StrNCmp(FilledBuffer(b)[ChangePoint := hi], FilledBuffer(b), LargeBufLen) > 0
    ensures StrNCmp(FilledBuffer(b)[ChangePoint := hi], FilledBuffer(b), ChangePoint) == 0
    ensures StrNCmp(FilledBuffer(b)[ChangePoint := hi], FilledBuffer(b), ChangePoint + 1) > 0
  {
    var y := Str(FilledBuffer(b));
    FilledString(b);
    ChangedBuffer(b, lo);
    ChangedBuffer(b, hi);
    var xlo := Str(FilledBuffer(b)[ChangePoint := lo]);
    var xhi := Str(FilledBuffer(b)[ChangePoint := hi]);
    assert xlo[..ChangePoint] == y[..ChangePoint] == xhi[..ChangePoint];
    LexFirstDifference(xlo, y, ChangePoint);
    LexFirstDifference(y, xhi, ChangePoint);
    LexFirstDifference(y[..ChangePoint + 1], xhi[..ChangePoint + 1], ChangePoint);
  }

  /** test_strcasecmp_long_strings: 'b' against 'B', then 'a' and then 'C' at the change point. */
  lemma StrCaseCmpLongStrings(lower: char, upper: char, lo: char, hi: char)
    requires lower == 'b' && upper == 'B' && lo == 'a' && hi == 'C'
    ensures StrCaseCmp(FilledBuffer(lower), FilledBuffer(upper)) == 0
    ensures StrCaseCmp(FilledBuffer(lower)[ChangePoint := lo], FilledBuffer(upper)) < 0
    ensures StrCaseCmp(FilledBuffer(lower)[ChangePoint := hi], FilledBuffer(upper)) > 0
  {
    FilledString(lower);
    FilledString(upper);
    ChangedBuffer(lower, lo);
    ChangedBuffer(lower, hi);
    var y := ToLower(Str(FilledBuffer(upper)));
    var x := ToLower(Str(FilledBuffer(lower)));
    var xlo := ToLower(Str(FilledBuffer(lower)[ChangePoint := lo]));
    var xhi := ToLower(Str(FilledBuffer(lower)[ChangePoint := hi]));
    assert x == y;
    assert xlo[..ChangePoint] == y[..ChangePoint] == xhi[..ChangePoint];
    LexFirstDifference(xlo, y, ChangePoint);
    LexFirstDifference(y, xhi, ChangePoint);
  }

  /** test_strncasecmp_long_strings: the strcasecmp cases under a count, as for strncmp. */
  lemma StrNCaseCmpLongStrings(lower: char, upper: char, lo: char, hi: char)
    requires lower == 'b' && upper == 'B' && lo == 'a' && hi == 'C'
    ensures StrNCaseCmp(FilledBuffer(lower), FilledBuffer(upper), LargeBufLen) == 0
    ensures StrNCaseCmp(FilledBuffer(lower)[ChangePoint := lo], FilledBuffer(upper), LargeBufLen) < 0
    ensures StrNCaseCmp(FilledBuffer(lower)[ChangePoint := hi], FilledBuffer(upper), LargeBufLen) > 0
    ensures StrNCaseCmp(FilledBuffer(lower)[ChangePoint := hi], FilledBuffer(upper), ChangePoint) == 0
    ensures StrNCaseCmp(FilledBuffer(lower)[ChangePoint := hi], FilledBuffer(upper), ChangePoint + 1) > 0
  {
    FilledString(lower);
    FilledString(upper);
    ChangedBuffer(lower, lo);
    ChangedBuffer(lower, hi);
    var y := ToLower(Str(FilledBuffer(upper)));
    var x := ToLower(Str(FilledBuffer(lower)));
    var xlo := ToLower(Str(FilledBuffer(lower)[ChangePoint := lo]));
    var xhi := ToLower(Str(FilledBuffer(lower)[ChangePoint := hi]));
    assert x == y;
    assert xlo[..ChangePoint] == y[..ChangePoint] == xhi[..ChangePoint];
    LexFirstDifference(xlo, y, ChangePoint);
    LexFirstDifference(y, xhi, ChangePoint);
    LexFirstDifference(y[..ChangePoint + 1], xhi[..ChangePoint + 1], ChangePoint);
  }
}
