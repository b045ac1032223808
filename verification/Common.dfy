/** What several modules share: kernel/param.h, 32-bit wrap-around and optional values. */
module Common {
  const NPROC: nat := 64
  const MAXOPBLOCKS: nat := 10
  const LOGSIZE: nat := MAXOPBLOCKS * 3
  const NBUF: nat := MAXOPBLOCKS * 3

  const U32: nat := 0x1_0000_0000

  datatype Option<+T> = None | Some(value: T)

  ghost predicate Different(s: seq<nat>) { forall i, j :: 0 <= i < j < |s| ==> s[i] != s[j] }

  ghost function Below(n: nat): (r: set<nat>)
    ensures |r| == n && forall k: nat :: k in r <==> k < n
  {
    if n == 0 then {} else Below(n - 1) + {n - 1}
  }

  lemma {:induction false} SubsetCount(a: set<nat>, b: set<nat>)
    requires a <= b
    ensures |a| <= |b| && (|a| == |b| ==> a == b)
  {
    if a != {} {
      var x :| x in a;
      SubsetCount(a - {x}, b - {x});
    }
  }

  function Elements(s: seq<nat>): set<nat> { set x | x in s }

  lemma {:induction false} ElementsCount(s: seq<nat>)
    ensures |Elements(s)| <= |s| && (Different(s) ==> |Elements(s)| == |s|)
  {
    if s != [] {
      var m := |s| - 1;
      ElementsCount(s[..m]);
      assert s == s[..m] + [s[m]];
      assert Elements(s) == Elements(s[..m]) + {s[m]};
    }
  }

  /** Different numbers below n are at most n, and if there are n then they are all. */
  lemma Pigeonhole(s: seq<nat>, n: nat)
    requires Different(s) && forall i :: 0 <= i < |s| ==> s[i] < n
    ensures |s| <= n && (|s| == n ==> forall b: nat :: b < n ==> b in s)
  {
    ElementsCount(s);
    SubsetCount(Elements(s), Below(n));
    forall b: nat | b < n && |s| == n ensures b in s { assert b in Elements(s); }
  }
}
