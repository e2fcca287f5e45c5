/**
 * The effect of a successful register read on a cache bank: the transport
 * overwrites the window `[start, start + |values|)` with the words it
 * received and leaves every other slot alone.
 */
module Cache {
  import opened Registers

  /** The bank `regs` with the window from `start` replaced by `values`. */
  function Splice(regs: seq<uint16>, start: nat, values: seq<uint16>): (r: seq<uint16>)
    requires start + |values| <= |regs|
    ensures |r| == |regs|
    ensures forall k :: 0 <= k < |r| ==> r[k] == if start <= k < start + |values| then values[k - start] else regs[k]
  {
    regs[..start] + values + regs[start + |values|..]
  }

  /** After the splice, the window holds exactly the received words. */
  lemma SpliceWindow(regs: seq<uint16>, start: nat, values: seq<uint16>)
    requires start + |values| <= |regs|
    ensures Splice(regs, start, values)[start..start + |values|] == values
  {
  }

  /** Slots outside the window keep their old values. */
  lemma SpliceOutside(regs: seq<uint16>, start: nat, values: seq<uint16>, lo: nat, hi: nat)
    requires start + |values| <= |regs|
    requires lo <= hi <= |regs|
    requires hi <= start || start + |values| <= lo
    ensures Splice(regs, start, values)[lo..hi] == regs[lo..hi]
  {
  }

  /** A later read whose window covers an earlier one makes the earlier one irrelevant. */
  lemma SpliceCovered(regs: seq<uint16>, s1: nat, v1: seq<uint16>, s2: nat, v2: seq<uint16>)
    requires s1 + |v1| <= |regs| && s2 + |v2| <= |regs|
    requires s2 <= s1 && s1 + |v1| <= s2 + |v2|
    ensures Splice(Splice(regs, s1, v1), s2, v2) == Splice(regs, s2, v2)
  {
  }

  /** Reads of disjoint windows give the same bank in either order. */
  lemma SpliceDisjointCommute(regs: seq<uint16>, s1: nat, v1: seq<uint16>, s2: nat, v2: seq<uint16>)
    requires s1 + |v1| <= |regs| && s2 + |v2| <= |regs|
    requires s1 + |v1| <= s2 || s2 + |v2| <= s1
    ensures Splice(Splice(regs, s1, v1), s2, v2) == Splice(Splice(regs, s2, v2), s1, v1)
  {
  }
}
