/** Small value types and sequence functions shared by the other modules. */
module Common {

  datatype Option<T> = None | Some(value: T)

  /** Concatenation of a sequence of sequences, in order: Python's `b''.join(...)`
      over byte chunks and `"".join(...)` over strings. */
  function Flatten<T>(parts: seq<seq<T>>): (r: seq<T>)
    ensures parts == [] ==> r == []
    ensures |parts| == 1 ==> r == parts[0]
  {
    if parts == [] then [] else parts[0] + Flatten(parts[1..])
  }

  /** Joining two lists of parts is joining each and concatenating the results. */
  lemma {:induction false} FlattenAppend<T>(a: seq<seq<T>>, b: seq<seq<T>>)
    ensures Flatten(a + b) == Flatten(a) + Flatten(b)
  {
    if a != [] {
      calc {
        Flatten(a + b);
        { assert (a + b)[1..] == a[1..] + b; }
        a[0] + Flatten(a[1..] + b);
        { FlattenAppend(a[1..], b); }
        a[0] + (Flatten(a[1..]) + Flatten(b));
      }
    } else {
      assert a + b == b;
    }
  }

  /** Every part occurs in the concatenation, in order: the part at index `k`
      starts right after the concatenation of the parts before it. */
  lemma {:induction false} FlattenPart<T>(parts: seq<seq<T>>, k: nat)
    requires k < |parts|
    ensures Flatten(parts) == Flatten(parts[..k]) + parts[k] + Flatten(parts[k + 1..])
  {
    assert parts == parts[..k] + [parts[k]] + parts[k + 1..];
    FlattenAppend(parts[..k] + [parts[k]], parts[k + 1..]);
    FlattenAppend(parts[..k], [parts[k]]);
  }

  /** The last `n` elements of `s` (all of `s` when it is shorter): what a
      queue bounded to `n` elements retains of the items appended to it. */
  function LastN<T>(s: seq<T>, n: nat): (r: seq<T>)
    ensures |r| == if |s| <= n then |s| else n
    ensures s == s[..|s| - |r|] + r
  {
    if |s| <= n then s else s[|s| - n..]
  }

  /** Keeping the last `n` twice in a row, with more appended between, keeps
      the same as keeping the last `n` once at the end. */
  lemma LastNAppend<T>(a: seq<T>, b: seq<T>, n: nat)
    ensures LastN(LastN(a, n) + b, n) == LastN(a + b, n)
  {
    var la := LastN(a, n);
    if |la + b| <= n {
      assert |a + b| <= n || la != a;
      if la != a {
        assert |la| == n;
        assert b == [] && |a + b| > n;
        assert la + b == la;
        assert a + b == a;
      }
    } else {
      var k := |la + b| - n;
      var m := |a + b| - n;
      assert (la + b)[k..] == (a + b)[m..] by {
        assert a == a[..|a| - |la|] + la;
        assert a + b == a[..|a| - |la|] + (la + b);
      }
    }
  }
}
