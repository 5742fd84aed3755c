/** The drag handlers of the network view. A node's `fx`/`fy` pin it in place while set;
    the simulation's `alphaTarget` keeps it warm while a drag is under way. The physics that
    moves `x`/`y` is not part of this model. */
module Drag {
  import opened Results

  /** A simulation node: its position and its pin. */
  class SimNode {
    var x: real
    var y: real
    var fx: Option<real>
    var fy: Option<real>

    constructor (x: real, y: real)
      ensures this.x == x && this.y == y && fx.None? && fy.None?
    {
      this.x := x;
      this.y := y;
      fx := None;
      fy := None;
    }

    /** The node is held in place. */
    predicate Pinned()
      reads this
    {
      fx.Some? && fy.Some?
    }
  }

  /** The part of the simulation the handlers touch: its alpha target and whether its timer
      runs. */
  class Simulation {
    var alphaTarget: real
    var running: bool

    constructor ()
      ensures alphaTarget == 0.0 && running
    {
      alphaTarget := 0.0;
      running := true;
    }
  }

  const DragAlphaTarget: real := 0.3

  /** `dragstarted`: the first concurrent drag (`active` counts the others) warms the
      simulation and restarts it; the node is pinned where it stands. */
  method DragStarted(sim: Simulation, d: SimNode, active: nat)
    modifies sim, d
    ensures d.x == old(d.x) && d.y == old(d.y)
    ensures d.fx == Some(d.x) && d.fy == Some(d.y) && d.Pinned()
    ensures active == 0 ==> sim.alphaTarget == DragAlphaTarget && sim.running
    ensures active != 0 ==> sim.alphaTarget == old(sim.alphaTarget) && sim.running == old(sim.running)
  {
    if active == 0 {
      sim.alphaTarget := DragAlphaTarget;
      sim.running := true;
    }
    d.fx := Some(d.x);
    d.fy := Some(d.y);
  }

  /** `dragged`: the pin follows the pointer; the position is left to the simulation. */
  method Dragged(d: SimNode, px: real, py: real)
    modifies d
    ensures d.fx == Some(px) && d.fy == Some(py) && d.Pinned()
    ensures d.x == old(d.x) && d.y == old(d.y)
  {
    d.fx := Some(px);
    d.fy := Some(py);
  }

  /** `dragended`: the last drag to end lets the simulation cool; the node is released. */
  method DragEnded(sim: Simulation, d: SimNode, active: nat)
    modifies sim, d
    ensures d.fx.None? && d.fy.None? && !d.Pinned()
    ensures d.x == old(d.x) && d.y == old(d.y)
    ensures active == 0 ==> sim.alphaTarget == 0.0
    ensures active != 0 ==> sim.alphaTarget == old(sim.alphaTarget)
    ensures sim.running == old(sim.running)
  {
    if active == 0 {
      sim.alphaTarget := 0.0;
    }
    d.fx := None;
    d.fy := None;
  }
}
