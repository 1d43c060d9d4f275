/**
 * The engine's signal-routing graph, seen as a set of directed edges between
 * audio nodes (src/audio/AudioEngine.ts:81-119). Each `connect(a, b)` call of the
 * host adds the edge (a, b); `disconnect()` on a node removes its outgoing edges.
 * No signal processing is modelled.
 */
module Routing {

  /** A playback element, identified abstractly. */
  type ElementId = nat

  /**
   * The nodes of the graph. The host gives every playback element at most one
   * media-element source node, so a source node is named by its element.
   * `Eq(i)` is the i-th peaking filter of the equaliser chain.
   */
  datatype NodeId =
    | Source(element: ElementId)
    | Eq(band: nat)
    | Compressor
    | Gain
    | Dry
    | Convolver
    | Wet
    | Panner
    | Analyser
    | Destination

  type Edge = (NodeId, NodeId)

  /** The number of equaliser bands the engine builds. */
  const BandCount: nat := 10

  /** The node that feeds equaliser band `i` when source `el` is wired. */
  function Prev(el: ElementId, i: nat): NodeId
  {
    if i == 0 then Source(el) else Eq(i - 1)
  }

  /** The edges the equaliser loop adds: source -> Eq(0) -> ... -> Eq(n-1). */
  function EqChain(el: ElementId, n: nat): set<Edge>
  {
    set i | 0 <= i < n :: (Prev(el, i), Eq(i))
  }

  /** The fixed edges after the equaliser chain: compressor, gain, the dry and wet paths, panner, analyser, output. */
  function Tail(last: NodeId): set<Edge>
  {
    {(last, Compressor), (Compressor, Gain),
     (Gain, Dry), (Gain, Convolver), (Convolver, Wet),
     (Wet, Panner), (Dry, Panner),
     (Panner, Analyser), (Analyser, Destination)}
  }

  /** Every edge that wiring source `el` through `n` equaliser bands adds. */
  function Route(el: ElementId, n: nat): set<Edge>
  {
    EqChain(el, n) + Tail(Prev(el, n))
  }

  /** The graph after `node.disconnect()`: every edge leaving `node` is gone. */
  function Disconnect(edges: set<Edge>, node: NodeId): set<Edge>
  {
    set e | e in edges && e.0 != node
  }

  /** The graph after `connectSourceNode` wires source `el` through the ten bands. */
  function Wire(edges: set<Edge>, el: ElementId): set<Edge>
  {
    Disconnect(edges, Source(el)) + Route(el, BandCount)
  }

  lemma EqChainGrow(el: ElementId, n: nat)
    ensures EqChain(el, n + 1) == EqChain(el, n) + {(Prev(el, n), Eq(n))}
  {
    var lhs, rhs := EqChain(el, n + 1), EqChain(el, n) + {(Prev(el, n), Eq(n))};
    forall e | e in lhs ensures e in rhs {
      var i :| 0 <= i < n + 1 && e == (Prev(el, i), Eq(i));
      if i < n {
        assert e in EqChain(el, n);
      }
    }
    assert (Prev(el, n), Eq(n)) in lhs;
  }

  /** `p` is a walk along edges of `edges`. */
  ghost predicate IsPath(edges: set<Edge>, p: seq<NodeId>)
  {
    |p| >= 1 && forall j :: 0 <= j < |p| - 1 ==> (p[j], p[j + 1]) in edges
  }

  /** Signal entering `a` can flow to `b`. */
  ghost predicate Reaches(edges: set<Edge>, a: NodeId, b: NodeId)
  {
    exists p :: IsPath(edges, p) && p[0] == a && p[|p| - 1] == b
  }

  /** The nodes `connectSourceNode(el)` puts on the path to the output. */
  predicate OnRoute(el: ElementId, m: NodeId)
  {
    match m
    case Source(e) => e == el
    case Eq(i) => i < BandCount
    case _ => true
  }

  /** Distance-like measure towards `Destination` along the wired route. */
  function Rank(m: NodeId): nat
  {
    match m
    case Destination => 0
    case Analyser => 1
    case Panner => 2
    case Wet => 3
    case Dry => 3
    case Convolver => 4
    case Gain => 5
    case Compressor => 6
    case Eq(i) => if i < BandCount then 7 + BandCount - i else 0
    case Source(_) => 8 + BandCount
  }

  lemma StepReaches(edges: set<Edge>, a: NodeId, c: NodeId, b: NodeId)
    requires (a, c) in edges && Reaches(edges, c, b)
    ensures Reaches(edges, a, b)
  {
    var p :| IsPath(edges, p) && p[0] == c && p[|p| - 1] == b;
    var q := [a] + p;
    assert forall j :: 1 <= j < |q| ==> q[j] == p[j - 1];
    assert IsPath(edges, q);
  }

  lemma ReachesMonotone(small: set<Edge>, large: set<Edge>, a: NodeId, b: NodeId)
    requires small <= large && Reaches(small, a, b)
    ensures Reaches(large, a, b)
  {
    var p :| IsPath(small, p) && p[0] == a && p[|p| - 1] == b;
    assert IsPath(large, p);
  }

  /** Every node of the wired route carries signal on to the output. */
  lemma {:induction false} RouteReachesDestination(el: ElementId, m: NodeId)
    requires OnRoute(el, m)
    ensures Reaches(Route(el, BandCount), m, Destination)
    decreases Rank(m)
  {
    var r := Route(el, BandCount);
    var tail := Tail(Prev(el, BandCount));
    assert tail <= r;
    match m
    case Destination =>
      assert IsPath(r, [Destination]);
    case Analyser =>
      RouteReachesDestination(el, Destination);
      StepReaches(r, Analyser, Destination, Destination);
    case Panner =>
      RouteReachesDestination(el, Analyser);
      StepReaches(r, Panner, Analyser, Destination);
    case Wet =>
      RouteReachesDestination(el, Panner);
      StepReaches(r, Wet, Panner, Destination);
    case Dry =>
      RouteReachesDestination(el, Panner);
      StepReaches(r, Dry, Panner, Destination);
    case Convolver =>
      RouteReachesDestination(el, Wet);
      StepReaches(r, Convolver, Wet, Destination);
    case Gain =>
      RouteReachesDestination(el, Dry);
      StepReaches(r, Gain, Dry, Destination);
    case Compressor =>
      RouteReachesDestination(el, Gain);
      StepReaches(r, Compressor, Gain, Destination);
    case Eq(i) =>
      if i + 1 < BandCount {
        assert (Prev(el, i + 1), Eq(i + 1)) in EqChain(el, BandCount);
        RouteReachesDestination(el, Eq(i + 1));
        StepReaches(r, Eq(i), Eq(i + 1), Destination);
      } else {
        assert Prev(el, BandCount) == Eq(i);
        RouteReachesDestination(el, Compressor);
        StepReaches(r, Eq(i), Compressor, Destination);
      }
    case Source(_) =>
      assert (Prev(el, 0), Eq(0)) in EqChain(el, BandCount);
      RouteReachesDestination(el, Eq(0));
      StepReaches(r, Source(el), Eq(0), Destination);
  }

  /** After wiring source `el` into any graph, every node on the route reaches the output. */
  lemma WireReachesDestination(edges: set<Edge>, el: ElementId)
    ensures forall m :: OnRoute(el, m) ==> Reaches(Wire(edges, el), m, Destination)
  {
    forall m | OnRoute(el, m)
      ensures Reaches(Wire(edges, el), m, Destination)
    {
      RouteReachesDestination(el, m);
      ReachesMonotone(Route(el, BandCount), Wire(edges, el), m, Destination);
    }
  }

  /** After wiring source `el`, the only edge that leaves it goes into band 0. */
  lemma WireSourceEdge(edges: set<Edge>, el: ElementId)
    ensures forall n :: (Source(el), n) in Wire(edges, el) <==> n == Eq(0)
  {
    var w := Wire(edges, el);
    forall n | (Source(el), n) in w
      ensures n == Eq(0)
    {
      var e := (Source(el), n);
      assert e !in Disconnect(edges, Source(el));
      assert e !in Tail(Prev(el, BandCount));
      assert e in EqChain(el, BandCount);
      var i :| 0 <= i < BandCount && e == (Prev(el, i), Eq(i));
    }
    assert (Prev(el, 0), Eq(0)) in EqChain(el, BandCount);
  }

  /** Wiring another source keeps every edge of a route already wired. */
  lemma WireKeepsRoute(edges: set<Edge>, a: ElementId, b: ElementId)
    requires Route(a, BandCount) <= edges && a != b
    ensures Route(a, BandCount) <= Wire(edges, b)
  {
    var route := Route(a, BandCount);
    var kept := Disconnect(edges, Source(b));
    forall e | e in route
      ensures e in kept
    {
      if e in EqChain(a, BandCount) {
        var i :| 0 <= i < BandCount && e == (Prev(a, i), Eq(i));
      } else {
        assert e in Tail(Prev(a, BandCount));
      }
    }
    assert kept <= Wire(edges, b);
  }

  /** Wiring the same source twice gives the same graph as wiring it once. */
  lemma WireIdempotent(edges: set<Edge>, el: ElementId)
    ensures Wire(Wire(edges, el), el) == Wire(edges, el)
  {
    var once := Wire(edges, el);
    forall e | e in Wire(once, el)
      ensures e in once
    {
    }
    forall e | e in once
      ensures e in Wire(once, el)
    {
    }
  }

  /**
   * Wiring a source leaves every edge that does not leave that source in place;
   * in particular the edges of a previously wired, different source survive.
   */
  lemma WireKeepsOtherEdges(edges: set<Edge>, el: ElementId, e: Edge)
    requires e in edges && e.0 != Source(el)
    ensures e in Wire(edges, el)
  {
  }
}
