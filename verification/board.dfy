/**
 * The main window's nail board: the two button handlers "Generate Nails" and
 * "Generate Strings", reduced to the state they compute. Drawing is not part
 * of this model; the strings are returned as the index pairs of the nails
 * they join.
 */
module Board {
  import opened Scale
  import opened Geometry
  import opened Pairing

  /** The nail border in meters, fixed in the handler. */
  const NAIL_BORDER: real := 0.05

  /** The border is 20 pixels at 400 pixels per meter. */
  lemma NailBorderPixels()
    ensures MetersToPixels(NAIL_BORDER) == 20
  {
  }

  /** How a button handler ends: normally, or with the Python exception it raises. */
  datatype Status = Completed | ZeroDivisionError | IndexError

  class MainWindow {
    var nailsPx: seq<Vec2>
    var nNailsX: nat
    var nNailsY: nat
    var nNails: nat
    /** Whether "Generate Nails" has been pressed; before that the fields above do not exist. */
    ghost var nailsGenerated: bool

    /**
     * Once "Generate Nails" has been pressed, either it completed, leaving two
     * runs per count with nNails as the list's length, or a count of 1 made
     * it raise, leaving the list it had just emptied.
     */
    ghost predicate Valid()
      reads this
    {
      nailsGenerated ==>
        || (&& nNailsX != 1 && nNailsY != 1
            && |nailsPx| == 2 * nNailsX + 2 * nNailsY
            && nNails == |nailsPx|)
        || ((nNailsX == 1 || nNailsY == 1) && nailsPx == [])
    }

    constructor ()
      ensures Valid() && !nailsGenerated
    {
      nailsPx, nNailsX, nNailsY, nNails := [], 0, 0, 0;
      nailsGenerated := false;
    }

    /**
     * Empties the nail list and stores both counts, then computes the pitches
     * and appends four runs in order top, right, bottom, left. A count of 1
     * divides by zero at the pitch, after the list was emptied and the counts
     * stored; nNails then keeps its old value. The runs are built in a local
     * and stored when complete.
     */
    method GenerateNails(left: int, top: int, right: int, bottom: int, nx: nat, ny: nat)
      returns (status: Status)
      modifies this
      ensures Valid() && nailsGenerated
      ensures nNailsX == nx && nNailsY == ny
      ensures status != IndexError
      ensures status == ZeroDivisionError <==> nx == 1 || ny == 1
      ensures status == ZeroDivisionError ==> nailsPx == [] && nNails == old(nNails)
      ensures status == Completed ==>
        && nailsPx == Layout(Rect(left, top, right, bottom), MetersToPixels(NAIL_BORDER), nx, ny)
        && nNails == |nailsPx| == 2 * nx + 2 * ny
    {
      var rect := Rect(left, top, right, bottom);
      nailsPx := [];
      nailsGenerated := true;
      var border := MetersToPixels(NAIL_BORDER);
      var c := InsetCorners(rect, border);
      nNailsX, nNailsY := nx, ny;
      if nx == 1 || ny == 1 {
        return ZeroDivisionError;
      }
      var pitchX := Pitch(AxisLength(Sub(c.br, c.bl)), nx);
      var pitchY := Pitch(AxisLength(Sub(c.tr, c.br)), ny);

      var nails: seq<Vec2> := [];
      for i := 0 to nx
        modifies {}
        invariant nails == Run(c.tl, Vec2(pitchX, 0.0), i)
      {
        RunAppend([], c.tl, Vec2(pitchX, 0.0), i);
        nails := nails + [Add(c.tl, Mul(i as real, Vec2(pitchX, 0.0)))];
      }
      ghost var topRun := nails;
      for i := 0 to ny
        modifies {}
        invariant nails == topRun + Run(c.tr, Vec2(0.0, pitchY), i)
      {
        RunAppend(topRun, c.tr, Vec2(0.0, pitchY), i);
        nails := nails + [Add(c.tr, Mul(i as real, Vec2(0.0, pitchY)))];
      }
      ghost var upperRuns := nails;
      for i := 0 to nx
        modifies {}
        invariant nails == upperRuns + Run(c.br, Vec2(-pitchX, 0.0), i)
      {
        RunAppend(upperRuns, c.br, Vec2(-pitchX, 0.0), i);
        nails := nails + [Add(c.br, Mul(i as real, Vec2(-pitchX, 0.0)))];
      }
      ghost var threeRuns := nails;
      for i := 0 to ny
        modifies {}
        invariant nails == threeRuns + Run(c.bl, Vec2(0.0, -pitchY), i)
      {
        RunAppend(threeRuns, c.bl, Vec2(0.0, -pitchY), i);
        nails := nails + [Add(c.bl, Mul(i as real, Vec2(0.0, -pitchY)))];
      }
      nailsPx := nails;
      nNails := |nailsPx|;
      return Completed;
    }

    /**
     * The index loops of "Generate Strings": top-run nail i is joined to nail
     * i + nx, then right-run nail i to nail i + ny. After a completed
     * "Generate Nails" every index is in range; after one that raised, the
     * list is empty and the first index read raises IndexError.
     */
    method GenerateStrings() returns (pairs: seq<NailPair>, status: Status)
      requires Valid() && nailsGenerated
      ensures status != ZeroDivisionError
      ensures status == IndexError <==> nNailsX == 1 || nNailsY == 1
      ensures status == IndexError ==> pairs == []
      ensures status == Completed ==> pairs == StringPairs(nNailsX, nNailsY)
      ensures forall k :: 0 <= k < |pairs| ==> pairs[k].src < |nailsPx| && pairs[k].dst < |nailsPx|
    {
      var nails, nx, ny := nailsPx, nNailsX, nNailsY;
      pairs, status := [], Completed;
      for i := 0 to nx
        invariant pairs == PairRange(0, i, nx)
        invariant nails == [] ==> i == 0
      {
        if |nails| <= i + nx {
          return pairs, IndexError;
        }
        // the two nails the string is drawn between
        var p1, p2 := nails[i], nails[i + nx];
        pairs := pairs + [NailPair(i, i + nx)];
      }
      ghost var topPairs := pairs;
      for i := nx to nx + ny
        invariant pairs == topPairs + PairRange(nx, i, ny)
        invariant nails == [] ==> i == nx
      {
        if |nails| <= i + ny {
          return pairs, IndexError;
        }
        // the two nails the string is drawn between
        var p1, p2 := nails[i], nails[i + ny];
        pairs := pairs + [NailPair(i, i + ny)];
      }
      StringPairsValid(nx, ny);
    }
  }

  /**
   * Pressing "Generate Nails" twice with the same inputs leaves the same nail
   * list and ends the same way.
   */
  method RegenerateNails(w: MainWindow, left: int, top: int, right: int, bottom: int, nx: nat, ny: nat)
    returns (first: seq<Vec2>, firstStatus: Status, secondStatus: Status)
    modifies w
    ensures w.nailsPx == first && firstStatus == secondStatus
    ensures firstStatus == Completed ==> |first| == 2 * nx + 2 * ny
    ensures firstStatus == ZeroDivisionError ==> first == []
  {
    firstStatus := w.GenerateNails(left, top, right, bottom, nx, ny);
    first := w.nailsPx;
    secondStatus := w.GenerateNails(left, top, right, bottom, nx, ny);
  }

  /**
   * What the strings join on the board. With nx <= ny the top-run nail m is
   * joined to the right-run nail m; with ny <= nx the right-run nail m is
   * joined to the bottom-run nail m.
   */
  lemma StringEnds(r: Rect, border: int, nx: nat, ny: nat, k: nat)
    requires nx != 1 && ny != 1
    requires k < nx + ny
    ensures var c, L, p := InsetCorners(r, border), Layout(r, border, nx, ny), StringPairs(nx, ny)[k];
      && p.src < |L| && p.dst < |L|
      && (k < nx && nx <= ny ==>
            && L[p.src] == Add(c.tl, Mul(k as real, TopStep(r, border, nx)))
            && L[p.dst] == Add(c.tr, Mul(k as real, RightStep(r, border, ny))))
      && (nx <= k && ny <= nx ==>
            && L[p.src] == Add(c.tr, Mul((k - nx) as real, RightStep(r, border, ny)))
            && L[p.dst] == Add(c.br, Mul((k - nx) as real, BottomStep(r, border, nx))))
  {
    StringPairsAt(nx, ny, k);
    var p := StringPairs(nx, ny)[k];
    NailAt(r, border, nx, ny, p.src);
    NailAt(r, border, nx, ny, p.dst);
  }
}
