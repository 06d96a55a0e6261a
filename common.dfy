/** Outcome types for operations that throw, print-and-exit, or return -1. */
module Common {
  datatype Option<T> = None | Some(value: T)

  /** `Err` carries the message the source throws or prints. */
  datatype Result<T> = Ok(value: T) | Err(msg: string)

  /** Sum of a sequence of integers (used for parameter counts). */
  function Sum(s: seq<int>): int
  {
    if s == [] then 0 else Sum(s[..|s| - 1]) + s[|s| - 1]
  }

  /** The sequence in reverse order. */
  function Reverse<T>(s: seq<T>): (r: seq<T>)
    ensures |r| == |s|
  {
    if s == [] then [] else [s[|s| - 1]] + Reverse(s[..|s| - 1])
  }

  lemma {:induction false} ReverseAt<T>(s: seq<T>, k: nat)
    requires k < |s|
    ensures Reverse(s)[k] == s[|s| - 1 - k]
  {
    if k > 0 {
      ReverseAt(s[..|s| - 1], k - 1);
    }
  }

  lemma {:induction false} ReverseAppend<T>(s: seq<T>, t: seq<T>)
    ensures Reverse(s + t) == Reverse(t) + Reverse(s)
  {
    var r := Reverse(s + t);
    var q := Reverse(t) + Reverse(s);
    assert |r| == |q|;
    forall k | 0 <= k < |r| ensures r[k] == q[k] {
      ReverseAt(s + t, k);
      if k < |t| {
        ReverseAt(t, k);
      } else {
        ReverseAt(s, k - |t|);
      }
    }
  }

  lemma {:induction false} ReverseInvolution<T>(s: seq<T>)
    ensures Reverse(Reverse(s)) == s
  {
    forall k | 0 <= k < |s| ensures Reverse(Reverse(s))[k] == s[k] {
      ReverseAt(Reverse(s), k);
      ReverseAt(s, |s| - 1 - k);
    }
  }

  // Sequence identities, stated once so that larger proofs can cite them
  // instead of re-deriving them element by element.

  lemma TakeDrop<T>(s: seq<T>, k: nat)
    requires k <= |s|
    ensures s[..k] + s[k..] == s
  {
  }

  lemma DropDrop<T>(s: seq<T>, c: nat, k: nat)
    requires c + k <= |s|
    ensures s[c..][k..] == s[c + k..] && s[c..][..k] == s[c..c + k]
  {
  }

  lemma TakeOfDrop<T>(s: seq<T>, k: nat, m: nat)
    requires k + m <= |s|
    ensures s[..k] + s[k..][..m] == s[..k + m]
  {
  }

  lemma AppendNil<T>(s: seq<T>)
    ensures s + [] == s && [] + s == s
  {
  }

  lemma AppendAssoc<T>(a: seq<T>, b: seq<T>, c: seq<T>)
    ensures a + (b + c) == a + b + c
  {
  }

  lemma SplitAround<T>(s: seq<T>, a: nat, b: nat)
    requires a <= b <= |s|
    ensures s == s[..a] + s[a..b] + s[b..]
  {
  }

  /** Looking into a concatenation at the seam. */
  lemma AtSeam<T>(front: seq<T>, rest: seq<T>)
    requires |rest| > 0
    ensures (front + rest)[|front|] == rest[0]
    ensures (front + rest)[..|front|] == front && (front + rest)[|front| + 1..] == rest[1..]
  {
  }

  lemma ConsSplit<T>(s: seq<T>)
    requires |s| > 0
    ensures [s[0]] + s[1..] == s && [s[0]][..0] == []
  {
  }
}
