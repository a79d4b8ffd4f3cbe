/**
 * The string pattern: which nails get joined by a string. Nails are named by
 * their index in the layout, whose runs are top [0, nx), right [nx, nx + ny),
 * bottom [nx + ny, 2 * nx + ny) and left [2 * nx + ny, 2 * nx + 2 * ny).
 */
module Pairing {

  /** A string from nail `src` to nail `dst`, both indices into the layout. */
  datatype NailPair = NailPair(src: nat, dst: nat)

  /** The pairs (i, i + offset) for i running through lo, lo + 1, ..., hi - 1, appended one by one. */
  function PairRange(lo: nat, hi: nat, offset: nat): (ps: seq<NailPair>)
    ensures |ps| == if lo <= hi then hi - lo else 0
    decreases hi
  {
    if hi <= lo then [] else PairRange(lo, hi - 1, offset) + [NailPair(hi - 1, hi - 1 + offset)]
  }

  lemma {:induction false} PairRangeAt(lo: nat, hi: nat, offset: nat, k: nat)
    requires lo + k < hi
    ensures PairRange(lo, hi, offset)[k] == NailPair(lo + k, lo + k + offset)
  {
    if lo + k < hi - 1 {
      PairRangeAt(lo, hi - 1, offset, k);
    }
  }

  /**
   * The built-in pattern: each top-run nail i is joined to nail i + nx, then
   * each right-run nail i to nail i + ny.
   */
  function StringPairs(nx: nat, ny: nat): (ps: seq<NailPair>)
    ensures |ps| == nx + ny
  {
    PairRange(0, nx, nx) + PairRange(nx, nx + ny, ny)
  }

  /** The pattern has one string per top-run and per right-run nail, with the partner at the fixed offset. */
  lemma StringPairsAt(nx: nat, ny: nat, k: nat)
    requires k < nx + ny
    ensures |StringPairs(nx, ny)| == nx + ny
    ensures k < nx ==> StringPairs(nx, ny)[k] == NailPair(k, k + nx)
    ensures nx <= k ==> StringPairs(nx, ny)[k] == NailPair(k, k + ny)
  {
    if k < nx {
      PairRangeAt(0, nx, nx, k);
    } else {
      PairRangeAt(nx, nx + ny, ny, k - nx);
    }
  }

  /** Every index lies in the layout, and no string joins a nail to itself. */
  lemma StringPairsValid(nx: nat, ny: nat)
    ensures var ps := StringPairs(nx, ny);
      forall k :: 0 <= k < |ps| ==>
        ps[k].src < 2 * nx + 2 * ny && ps[k].dst < 2 * nx + 2 * ny && ps[k].src != ps[k].dst
  {
    forall k | 0 <= k < nx + ny
      ensures var p := StringPairs(nx, ny)[k];
        p.src < 2 * nx + 2 * ny && p.dst < 2 * nx + 2 * ny && p.src != p.dst
    {
      StringPairsAt(nx, ny, k);
    }
  }

  /**
   * Where the partners land. Top-run nails go to [nx, 2 * nx), which is the
   * right run exactly when nx <= ny; right-run nails go to
   * [nx + ny, nx + 2 * ny), which is inside the bottom run exactly when ny <= nx.
   */
  lemma PartnerRuns(nx: nat, ny: nat, k: nat)
    requires k < nx + ny
    ensures var p := StringPairs(nx, ny)[k];
      && (k < nx ==> p.src < nx && nx <= p.dst < 2 * nx)
      && (k < nx ==> (p.dst < nx + ny <==> nx <= ny || k < ny))
      && (nx <= k ==> nx <= p.src < nx + ny && nx + ny <= p.dst < nx + 2 * ny)
      && (nx <= k ==> (p.dst < 2 * nx + ny <==> ny <= nx || k < 2 * nx))
  {
    StringPairsAt(nx, ny, k);
  }
}
