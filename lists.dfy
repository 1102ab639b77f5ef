/**
  The doubly linked `list_head` lists of the kernel, seen as the sequence of their entries from
  the head. `list_add_tail` appends; `list_del` unlinks an entry wherever it sits; an entry is
  on a list at most once.
*/
module Lists {

  lemma AppendAssoc<T>(x: seq<T>, y: seq<T>, z: seq<T>)
    ensures x + y + z == x + (y + z)
  {
  }

  lemma AppendAssoc3<T>(x: seq<T>, y: seq<T>, z: seq<T>, w: seq<T>)
    ensures x + y + z + w == x + (y + z + w)
  {
    AppendAssoc(x, y, z);
    AppendAssoc(x, y + z, w);
  }

  lemma AppendAssoc4<T>(x: seq<T>, y: seq<T>, z: seq<T>, w: seq<T>, v: seq<T>)
    ensures x + y + z + w + v == x + (y + z + w + v)
  {
    AppendAssoc3(x, y, z, w);
    AppendAssoc(x, y + z + w, v);
  }

  /** No entry occurs twice. */
  predicate Distinct<T(==)>(s: seq<T>)
  {
    forall i, j :: 0 <= i < j < |s| ==> s[i] != s[j]
  }

  /** `list_del`: the list without its first occurrence of x. */
  function Remove<T(==)>(s: seq<T>, x: T): (r: seq<T>)
    ensures x !in s ==> r == s
    ensures x in s ==> |r| == |s| - 1
    ensures forall y :: y in r ==> y in s
  {
    if s == [] then []
    else if s[0] == x then s[1..]
    else [s[0]] + Remove(s[1..], x)
  }

  /** Unlinking an entry from a list without repeats keeps every other entry, in order. */
  lemma {:induction false} RemoveDistinct<T>(s: seq<T>, x: T)
    requires Distinct(s)
    ensures Distinct(Remove(s, x)) && x !in Remove(s, x)
    ensures forall y :: y in Remove(s, x) <==> y in s && y != x
  {
    if s != [] && s[0] != x {
      assert Distinct(s[1..]) by {
        forall i, j | 0 <= i < j < |s| - 1 ensures s[1..][i] != s[1..][j] {
          assert s[1..][i] == s[i + 1] && s[1..][j] == s[j + 1];
        }
      }
      RemoveDistinct(s[1..], x);
      var r := Remove(s[1..], x);
      assert s[0] !in s[1..];
      assert Remove(s, x) == [s[0]] + r;
    } else if s != [] {
      assert forall y :: y in s[1..] <==> y in s && y != x by {
        assert forall k :: 1 <= k < |s| ==> s[k] != s[0];
        assert forall y :: y in s ==> y == s[0] || y in s[1..];
      }
      forall i, j | 0 <= i < j < |s| - 1 ensures s[1..][i] != s[1..][j] {
        assert s[1..][i] == s[i + 1] && s[1..][j] == s[j + 1];
      }
    }
  }

  /** Unlinking the first entry leaves the rest. */
  lemma RemoveFirst<T>(s: seq<T>)
    requires s != []
    ensures Remove(s, s[0]) == s[1..]
  {
  }

  /** Appending to a list without repeats an entry not on it keeps it without repeats. */
  lemma AppendDistinct<T>(s: seq<T>, x: T)
    requires Distinct(s) && x !in s
    ensures Distinct(s + [x])
  {
  }

  /** The entries of a log that satisfy p, in order. */
  function Only<T(!new)>(s: seq<T>, p: T -> bool): (r: seq<T>)
    ensures |r| <= |s|
    ensures forall y :: y in r <==> y in s && p(y)
  {
    if s == [] then []
    else if p(s[|s| - 1]) then Only(s[..|s| - 1], p) + [s[|s| - 1]]
    else Only(s[..|s| - 1], p)
  }

  /** Filtering a concatenation filters each part. */
  lemma {:induction false} OnlyAppend<T(!new)>(s: seq<T>, t: seq<T>, p: T -> bool)
    ensures Only(s + t, p) == Only(s, p) + Only(t, p)
    decreases |t|
  {
    if t != [] {
      var u := s + t;
      assert u[..|u| - 1] == s + t[..|t| - 1];
      assert u[|u| - 1] == t[|t| - 1];
      OnlyAppend(s, t[..|t| - 1], p);
    } else {
      assert s + t == s;
    }
  }

  /** A log none of whose entries p accepts has no p-entries. */
  lemma {:induction false} OnlyNone<T(!new)>(t: seq<T>, p: T -> bool)
    requires forall k | 0 <= k < |t| :: !p(t[k])
    ensures Only(t, p) == []
  {
    if t != [] {
      assert !p(t[|t| - 1]);
      OnlyNone(t[..|t| - 1], p);
    }
  }
}
