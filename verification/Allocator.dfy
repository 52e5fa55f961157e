/** Allocation of VxLAN network identifiers and bridge indexes: the least free numbers of a bit set
    in which every number in use has been marked. */
module Allocator {
  import opened Wrappers

  /** 2^24 - 1, the largest VNI (RFC 7348, section 5) and the largest bridge index handed out. */
  const MaxIndex: nat := 16777215

  /** A growing bit set; Set extends the length, NextClear never looks past it. */
  class BitSet {
    var bits: seq<bool>

    ghost function Marked(): (s: set<nat>)
      reads this
      ensures forall i: nat :: i in s <==> i < |bits| && bits[i]
    {
      set i: nat | i < |bits| && bits[i]
    }

    constructor (length: nat)
      ensures |bits| == length && Marked() == {}
    {
      bits := seq(length, _ => false);
    }

    method Set(i: nat)
      modifies this
      ensures Marked() == old(Marked()) + {i}
      ensures |bits| == if i < old(|bits|) then old(|bits|) else i + 1
    {
      if i >= |bits| {
        bits := bits + seq(i + 1 - |bits|, _ => false);
      }
      bits := bits[i := true];
    }

    /** The least clear index at or after i, below the length. */
    method NextClear(i: nat) returns (next: nat, ok: bool)
      ensures ok ==> i <= next < |bits| && next !in Marked() && forall j: nat | i <= j < next :: j in Marked()
      ensures !ok ==> next == 0 && forall j: nat | i <= j < |bits| :: j in Marked()
    {
      next := i;
      while next < |bits|
        invariant i <= next
        invariant forall j: nat | i <= j < next && j < |bits| :: j in Marked()
      {
        if !bits[next] {
          return next, true;
        }
        next := next + 1;
      }
      return 0, false;
    }
  }

  /** The largest index an allocation may return: the last one inside the bit set, which has length
      MaxIndex unless an index beyond MaxIndex is in use. */
  function Limit(used: set<nat>): nat {
    if exists u | u in used :: u > MaxIndex then MaxIndex else MaxIndex - 1
  }

  /** The least index from `from` up to `limit` that is not in use. */
  function NextFree(used: set<nat>, from: nat, limit: nat): Option<nat>
    decreases limit + 1 - from
  {
    if from > limit then None else if from !in used then Some(from) else NextFree(used, from + 1, limit)
  }

  function Take(used: set<nat>, from: nat, limit: nat, n: nat): Option<seq<nat>>
    decreases n
  {
    if n == 0 then Some([])
    else match NextFree(used, from, limit)
      case None => None
      case Some(x) =>
        match Take(used, x + 1, limit, n - 1)
        case None => None
        case Some(rest) => Some([x] + rest)
  }

  /** What an allocation of n numbers returns when the numbers in `used` are taken. */
  function Allocate(used: set<nat>, n: nat): Option<seq<nat>> {
    Take(used + {0}, 0, Limit(used), n)
  }

  ghost function FreeFrom(used: set<nat>, from: nat, limit: nat): set<nat> {
    set x: nat | from <= x <= limit && x !in used
  }

  /** All numbers an allocation could return: 0 is reserved. */
  ghost function Free(used: set<nat>): set<nat> {
    set x: nat | 1 <= x <= Limit(used) && x !in used
  }

  ghost predicate StrictlyAscending(r: seq<nat>) { forall i, j | 0 <= i < j < |r| :: r[i] < r[j] }

  lemma {:induction false} NextFreeSplits(used: set<nat>, from: nat, limit: nat)
    ensures match NextFree(used, from, limit)
            case None => FreeFrom(used, from, limit) == {}
            case Some(x) =>
              && from <= x <= limit && x !in used
              && FreeFrom(used, from, limit) == {x} + FreeFrom(used, x + 1, limit)
    decreases limit + 1 - from
  {
    if from <= limit && from in used {
      NextFreeSplits(used, from + 1, limit);
      assert FreeFrom(used, from, limit) == FreeFrom(used, from + 1, limit);
    }
  }

  /** `r` consists of the least numbers of `free`, in ascending order. */
  ghost predicate AreLeast(r: seq<nat>, free: set<nat>) {
    && StrictlyAscending(r)
    && (forall x | x in r :: x in free)
    && (forall y | y in free && y !in r :: forall x | x in r :: x < y)
  }

  lemma LeastBefore(x: nat, rest: seq<nat>, free: set<nat>)
    requires AreLeast(rest, free) && forall y | y in free :: x < y
    ensures AreLeast([x] + rest, {x} + free)
  {
    assert forall j | 0 <= j < |rest| :: rest[j] in free;
  }

  lemma {:induction false} TakeExact(used: set<nat>, from: nat, limit: nat, n: nat)
    ensures match Take(used, from, limit, n)
            case None => |FreeFrom(used, from, limit)| < n
            case Some(r) => |r| == n <= |FreeFrom(used, from, limit)| && AreLeast(r, FreeFrom(used, from, limit))
    decreases n
  {
    NextFreeSplits(used, from, limit);
    if n > 0 && NextFree(used, from, limit).Some? {
      var x := NextFree(used, from, limit).value;
      TakeExact(used, x + 1, limit, n - 1);
      assert x !in FreeFrom(used, x + 1, limit);
      if Take(used, x + 1, limit, n - 1).Some? {
        LeastBefore(x, Take(used, x + 1, limit, n - 1).value, FreeFrom(used, x + 1, limit));
      }
    }
  }

  /** The allocator returns exactly the n least free numbers, in ascending order, none of them 0 or above
      2^24 - 1; it fails exactly when fewer than n numbers are free. */
  lemma AllocateExact(used: set<nat>, n: nat)
    ensures Allocate(used, n).Some? <==> |Free(used)| >= n
    ensures Allocate(used, n).Some? ==>
              var r := Allocate(used, n).value;
              && |r| == n && StrictlyAscending(r)
              && (forall x | x in r :: x !in used && 1 <= x <= MaxIndex)
              && (forall y | y in Free(used) && y !in r :: forall x | x in r :: x < y)
  {
    TakeExact(used + {0}, 0, Limit(used), n);
    assert FreeFrom(used + {0}, 0, Limit(used)) == Free(used);
  }

  /** Which numbers are free: those from 1 to 2^24 - 2 that are not in use; the last of the 2^24 - 1 VNIs is out of reach of the
      bit set as it is made, unless something beyond it is in use. */
  lemma FreeMeans(used: set<nat>, x: nat)
    ensures x in Free(used) <==> x !in used && 1 <= x && (x <= 0xFF_FFFE || (x == 0xFF_FFFF && exists u | u in used :: u >= 0x100_0000))
  {
  }

  lemma AllocatedAreFree(used: set<nat>, n: nat)
    requires Allocate(used, n).Some?
    ensures forall x | x in Allocate(used, n).value :: x in Free(used)
  {
    TakeExact(used + {0}, 0, Limit(used), n);
    assert FreeFrom(used + {0}, 0, Limit(used)) == Free(used);
  }

  /** The common tail of GetAvailableVNIs and GetAvailableBrIndex: read the required number of clear
      indexes off a bit set in which 0 and everything in use is marked. */
  method TakeClear(bset: BitSet, required: nat, ghost used: set<nat>) returns (r: Option<seq<nat>>)
    requires bset.Marked() == used + {0}
    requires |bset.bits| >= MaxIndex
    requires forall u | u in used :: u < |bset.bits|
    requires |bset.bits| > MaxIndex ==> |bset.bits| - 1 in used
    ensures r == Allocate(used, required)
  {
    var rlist: seq<nat> := [];
    var next: nat := 0;
    ghost var limit := Limit(used);
    ghost var marked := used + {0};
    assert limit < |bset.bits|;
    assert forall rest: seq<nat> :: rlist + rest == rest;
    for i := 0 to required
      invariant |rlist| == i && bset.Marked() == marked
      invariant Allocate(used, required) ==
                match Take(marked, next, limit, required - i)
                case None => None
                case Some(rest) => Some(rlist + rest)
    {
      var from := next;
      var ok;
      next, ok := bset.NextClear(from);
      if !ok {
        NextFreeIs(bset.Marked(), from, limit, limit + 1);
        return None;
      }
      if next > MaxIndex {
        NextFreeIs(marked, from, limit, next);
        return None;
      }
      assert next <= limit;
      NextFreeIs(marked, from, limit, next);
      assert forall rest: seq<nat> :: (rlist + [next]) + rest == rlist + ([next] + rest);
      rlist := rlist + [next];
      next := next + 1;
    }
    assert rlist + [] == rlist;
    return Some(rlist);
  }

  lemma {:induction false} NextFreeIs(used: set<nat>, from: nat, limit: nat, x: nat)
    requires from <= x || x > limit
    requires forall j: nat | from <= j <= limit && j < x :: j in used
    requires x <= limit ==> x !in used
    ensures NextFree(used, from, limit) == if x <= limit then Some(x) else None
    decreases limit + 1 - from
  {
    if from <= limit && from != x {
      NextFreeIs(used, from + 1, limit, x);
    }
  }

  /** The int32 conversion of the source, with its wrap-around. */
  function Int32(x: nat): int {
    var low := x % 0x1_0000_0000;
    if low < 0x8000_0000 then low else low - 0x1_0000_0000
  }

  /** No number an allocation returns is changed by the conversion to int32. */
  lemma ConversionIsLossless(used: set<nat>, n: nat)
    ensures Allocate(used, n).Some? ==> forall x | x in Allocate(used, n).value :: Int32(x) == x
  {
    AllocateExact(used, n);
  }
}
