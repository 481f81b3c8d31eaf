/**
 * How `create_hosts` in test/test_acl_plugin.py splits host numbers among the
 * packet-generator interfaces: with m = count / n (floor division), interface k
 * gets [m*k + start, m*(k+1) + start), and the last interface gets everything
 * from m*(n-1) + start up to count + start.
 */
module Hosts {

  /**
   * A test host. Its MAC, IPv4 and IPv6 addresses are all formatted from the
   * interface's sw_if_index and the host number, so the pair identifies it.
   */
  datatype Host = Host(swIfIndex: nat, nr: int)

  /** `macs_per_if`: floor division, as Python 2 does it on non-negative ints. */
  function MacsPerIf(count: nat, nInt: nat): nat
    requires nInt > 0
  {
    count / nInt
  }

  /** `start_nr` of interface k. */
  function BlockStart(count: nat, start: int, nInt: nat, k: nat): int
    requires k < nInt
  {
    MacsPerIf(count, nInt) * k + start
  }

  /** `end_nr` of interface k: the last one runs up to count + start. */
  function BlockEnd(count: nat, start: int, nInt: nat, k: nat): int
    requires k < nInt
  {
    if k == nInt - 1 then count + start else MacsPerIf(count, nInt) * (k + 1) + start
  }

  /** The numbers lo, lo+1, ..., hi-1 (none when hi <= lo), as `range(lo, hi)`. */
  function Interval(lo: int, hi: int): (s: seq<int>)
    ensures |s| == if lo < hi then hi - lo else 0
    ensures forall t :: 0 <= t < |s| ==> s[t] == lo + t
  {
    seq(if lo < hi then hi - lo else 0, t => lo + t)
  }

  /** The hosts `create_hosts` appends to one interface's list. */
  function HostBlock(sw: nat, lo: int, hi: int): (hs: seq<Host>)
    ensures |hs| == |Interval(lo, hi)|
    ensures forall t :: 0 <= t < |hs| ==> hs[t] == Host(sw, lo + t)
  {
    seq(|Interval(lo, hi)|, t => Host(sw, lo + t))
  }

  lemma MulMono(m: nat, a: nat, b: nat)
    requires a <= b
    ensures m * a <= m * b
  {
  }

  /** Every block is a well-formed range, and block k ends where block k+1 starts. */
  lemma BlockShape(count: nat, start: int, nInt: nat, k: nat)
    requires k < nInt
    ensures BlockStart(count, start, nInt, k) <= BlockEnd(count, start, nInt, k)
    ensures k == 0 ==> BlockStart(count, start, nInt, k) == start
    ensures k == nInt - 1 ==> BlockEnd(count, start, nInt, k) == count + start
    ensures k < nInt - 1 ==> BlockEnd(count, start, nInt, k) == BlockStart(count, start, nInt, k + 1)
    ensures k < nInt - 1 ==> BlockEnd(count, start, nInt, k) - BlockStart(count, start, nInt, k) == count / nInt
  {
    var m := MacsPerIf(count, nInt);
    if k == nInt - 1 {
      assert m * nInt <= count;
      assert m * k + m == m * nInt;
    }
  }

  /** Blocks of different interfaces do not overlap: an earlier block ends before a later one starts. */
  lemma BlocksDisjoint(count: nat, start: int, nInt: nat, k1: nat, k2: nat)
    requires k1 < k2 < nInt
    ensures BlockEnd(count, start, nInt, k1) <= BlockStart(count, start, nInt, k2)
  {
    MulMono(MacsPerIf(count, nInt), k1 + 1, k2);
  }

  /** The host numbers of blocks 0..t-1, in interface order. */
  function Blocks(count: nat, start: int, nInt: nat, t: nat): seq<int>
    requires t <= nInt
  {
    if t == 0 then [] else Blocks(count, start, nInt, t - 1) + Interval(BlockStart(count, start, nInt, t - 1), BlockEnd(count, start, nInt, t - 1))
  }

  lemma IntervalAppend(a: int, b: int, c: int)
    requires a <= b <= c
    ensures Interval(a, b) + Interval(b, c) == Interval(a, c)
  {
  }

  /** The first t blocks, laid end to end, are exactly start, start+1, ... up to where block t-1 ends. */
  lemma {:induction false} BlocksPrefix(count: nat, start: int, nInt: nat, t: nat)
    requires 0 < t <= nInt
    ensures Blocks(count, start, nInt, t) == Interval(start, BlockEnd(count, start, nInt, t - 1))
  {
    BlockShape(count, start, nInt, t - 1);
    if t == 1 {
      assert Blocks(count, start, nInt, 0) == [];
    } else {
      BlocksPrefix(count, start, nInt, t - 1);
      BlockShape(count, start, nInt, t - 2);
      IntervalAppend(start, BlockEnd(count, start, nInt, t - 2), BlockEnd(count, start, nInt, t - 1));
    }
  }

  /**
   * The blocks of all interfaces together number every host from start to
   * start + count - 1 once, in order: they are contiguous, disjoint and cover.
   */
  lemma BlocksCover(count: nat, start: int, nInt: nat)
    requires nInt > 0
    ensures Blocks(count, start, nInt, nInt) == Interval(start, start + count)
  {
    BlocksPrefix(count, start, nInt, nInt);
    BlockShape(count, start, nInt, nInt - 1);
  }

  /** With two interfaces the first gets the lower half, rounded down, and the second the rest. */
  lemma TwoInterfaceBlocks(count: nat, start: int)
    ensures BlockStart(count, start, 2, 0) == start && BlockEnd(count, start, 2, 0) == count / 2 + start
    ensures BlockStart(count, start, 2, 1) == count / 2 + start && BlockEnd(count, start, 2, 1) == count + start
  {
  }

  /** The interface whose block holds host number j. */
  function OwnerOf(count: nat, start: int, nInt: nat, j: int): (k: nat)
    requires nInt > 0 && start <= j < start + count
    ensures k < nInt
    ensures BlockStart(count, start, nInt, k) <= j < BlockEnd(count, start, nInt, k)
  {
    var m := MacsPerIf(count, nInt);
    if m == 0 then
      assert BlockStart(count, start, nInt, nInt - 1) == start;
      nInt - 1
    else
      var q := (j - start) / m;
      assert m * q <= j - start < m * (q + 1);
      if q >= nInt - 1 then
        MulMono(m, nInt - 1, q);
        nInt - 1
      else
        q
  }

  /** Each host number of the range lies in exactly one interface's block. */
  lemma UniqueOwner(count: nat, start: int, nInt: nat, j: int, k: nat)
    requires nInt > 0 && start <= j < start + count && k < nInt
    ensures BlockStart(count, start, nInt, k) <= j < BlockEnd(count, start, nInt, k) <==> k == OwnerOf(count, start, nInt, j)
  {
    var o := OwnerOf(count, start, nInt, j);
    if k < o {
      BlocksDisjoint(count, start, nInt, k, o);
    } else if o < k {
      BlocksDisjoint(count, start, nInt, o, k);
    }
  }
}
