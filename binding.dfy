/**
 * Binding playback elements to the engine (src/audio/AudioEngine.ts:121-128).
 *
 * `connectToElement` remembers only the element bound last, yet the host gives each
 * element at most one media-element source node and throws `InvalidStateError` on a
 * second request. Binding a, then b, then a again therefore asks for a second
 * source node for a and throws. This module shows that for the code as written and
 * gives a binding that remembers every element it has already given a source node,
 * which never asks the host twice for the same element.
 */
module ElementBinding {
  import opened Wrappers
  import opened Routing
  import opened EngineSpec

  /** No element occurs twice in a log of source-creation calls. */
  predicate NoRepeats(log: seq<ElementId>)
  {
    forall i, j :: 0 <= i < j < |log| ==> log[i] != log[j]
  }

  /**
   * One call of `connectToElement` for an element other than the one bound last, as
   * far as binding is concerned: the element becomes the bound one, the host is
   * asked once for its source node, and it throws exactly when it made one before.
   */
  lemma BindingBookkeeping(s: EngineState, el: ElementId)
    requires s.connectedElement != Some(el)
    ensures var p := ConnectToElementStep(s, el);
      && p.0.ctx
      && p.0.connectedElement == Some(el)
      && p.0.creations == s.creations + [el]
      && p.0.hostSources == s.hostSources + {el}
      && (p.1 == Threw(InvalidStateError) <==> el in s.hostSources)
      && (p.1 == Returned <==> el !in s.hostSources)
      && p.0.source == (if el in s.hostSources then s.source else Some(el))
  {
    var s1 := if !s.ctx then InitStep(s) else s;
    assert s1.ctx && s1.connectedElement == s.connectedElement && s1.source == s.source;
    assert s1.hostSources == s.hostSources && s1.creations == s.creations;
  }

  /** As written: binding a, then b, on an engine that has bound nothing yet. */
  lemma TwoBindings(s: EngineState, a: ElementId, b: ElementId)
    requires s.connectedElement.None? && s.hostSources == {} && s.creations == [] && a != b
    ensures var first := ConnectToElementStep(s, a);
      var second := ConnectToElementStep(first.0, b);
      && first.1 == Returned && second.1 == Returned
      && second.0.creations == [a, b]
      && second.0.connectedElement == Some(b) && second.0.source == Some(b)
      && a in second.0.hostSources
  {
    var first := ConnectToElementStep(s, a);
    BindingBookkeeping(s, a);
    assert first.0.creations == [a] && b !in first.0.hostSources;
    BindingBookkeeping(first.0, b);
  }

  /**
   * As written: binding a, b, a on an engine that has bound nothing yet repeats the
   * creation for a and throws `InvalidStateError` out of the call. Element a is then
   * recorded as bound while `source` still names b, and a fourth bind of a returns at
   * once without touching the host.
   */
  lemma RebindAfterOtherThrows(s: EngineState, a: ElementId, b: ElementId)
    requires s.connectedElement.None? && s.hostSources == {} && s.creations == [] && a != b
    ensures var first := ConnectToElementStep(s, a);
      var second := ConnectToElementStep(first.0, b);
      var third := ConnectToElementStep(second.0, a);
      && first.1 == Returned && second.1 == Returned
      && third.1 == Threw(InvalidStateError)
      && third.0.creations == [a, b, a] && !NoRepeats(third.0.creations)
      && third.0.connectedElement == Some(a) && third.0.source == Some(b)
      && ConnectToElementStep(third.0, a) == (third.0, Returned)
  {
    var first := ConnectToElementStep(s, a);
    var second := ConnectToElementStep(first.0, b);
    TwoBindings(s, a, b);
    BindingBookkeeping(second.0, a);
    var third := ConnectToElementStep(second.0, a);
    assert third.0.creations[0] == third.0.creations[2];
    assert third.0.ctx;
  }

  /**
   * As written, on a valid engine: after binding a, b, a, both sources still feed
   * the equaliser chain, since wiring b disconnected only b's own node, so the
   * signals of a and b are mixed into the output while `source` names b alone.
   */
  lemma RebindLeavesBothSourcesWired(s: EngineState, a: ElementId, b: ElementId)
    requires Inv(s) && s.connectedElement.None? && s.hostSources == {} && a != b
    ensures var first := ConnectToElementStep(s, a);
      var second := ConnectToElementStep(first.0, b);
      var third := ConnectToElementStep(second.0, a);
      && third.1 == Threw(InvalidStateError) && third.0.source == Some(b)
      && (Source(a), Eq(0)) in third.0.edges && (Source(b), Eq(0)) in third.0.edges
      && Reaches(third.0.edges, Source(a), Destination)
      && Reaches(third.0.edges, Source(b), Destination)
  {
    var first := ConnectToElementStep(s, a);
    ConnectOtherElement(s, a);
    assert first.0.hostSources == {a} && first.0.edges == Wire(s.edges, a);
    var second := ConnectToElementStep(first.0, b);
    ConnectOtherElement(first.0, b);
    assert second.0.edges == Wire(first.0.edges, b) && a in second.0.hostSources;
    var third := ConnectToElementStep(second.0, a);
    ConnectOtherElement(second.0, a);
    assert third.0.edges == second.0.edges;
    WireKeepsRoute(first.0.edges, a, b);
    assert (Prev(a, 0), Eq(0)) in EqChain(a, BandCount);
    assert (Prev(b, 0), Eq(0)) in EqChain(b, BandCount);
    RouteReachesDestination(a, Source(a));
    ReachesMonotone(Route(a, BandCount), third.0.edges, Source(a), Destination);
    WireReachesDestination(first.0.edges, b);
  }

  /**
   * The intended binding: `sources` holds every element that already has a source
   * node. A known element has its existing node rewired; only an unknown one is
   * passed to the host.
   */
  function ConnectToElementCachedStep(s: EngineState, sources: set<ElementId>, el: ElementId)
    : (EngineState, set<ElementId>, Outcome)
  {
    var s1 := if !s.ctx then InitStep(s) else s;
    if s1.connectedElement == Some(el) then (s1, sources, Returned)
    else if el in sources then
      (ConnectSourceStep(s1.(connectedElement := Some(el)), Some(el)), sources, Returned)
    else
      var (t, r) := BindStep(s1, el);
      (t, if r.Returned? then sources + {el} else sources, r)
  }

  /** The record of sources agrees with the host, and no element was created twice. */
  ghost predicate CacheAgrees(s: EngineState, sources: set<ElementId>)
  {
    Inv(s) && sources == s.hostSources && NoRepeats(s.creations)
  }

  /** Rewiring the existing source of an element that already has one keeps the record in step. */
  lemma RewireKnownSource(s: EngineState, sources: set<ElementId>, el: ElementId)
    requires CacheAgrees(s, sources) && s.ctx && el in sources
    ensures var t := ConnectSourceStep(s.(connectedElement := Some(el)), Some(el));
      && CacheAgrees(t, sources)
      && t.connectedElement == Some(el) && t.source == Some(el)
      && t.edges == Wire(s.edges, el)
      && (forall m :: OnRoute(el, m) ==> Reaches(t.edges, m, Destination))
  {
    var s2 := s.(connectedElement := Some(el));
    assert Inv(s2);
    ConnectSourceRoutes(s2, Some(el));
  }

  /** Asking the host for a source of an element it has not met keeps the record in step. */
  lemma CreateNewSource(s: EngineState, sources: set<ElementId>, el: ElementId)
    requires CacheAgrees(s, sources) && s.ctx && el !in sources
    ensures var (t, r) := BindStep(s, el);
      && r == Returned
      && CacheAgrees(t, sources + {el})
      && t.connectedElement == Some(el) && t.source == Some(el)
      && t.edges == Wire(s.edges, el)
      && (forall m :: OnRoute(el, m) ==> Reaches(t.edges, m, Destination))
  {
    RequestSourceKeepsInv(s, el);
    var s3 := CreateSourceStep(s.(connectedElement := Some(el)), el).0;
    assert el !in s.creations;
    assert s3.creations == s.creations + [el];
    assert NoRepeats(s3.creations);
    ConnectSourceRoutes(s3, Some(el));
  }

  /**
   * With a record that agrees with the host, binding never throws, never creates a
   * source twice, and leaves the new element bound and wired to the output.
   */
  lemma CachedBindingNeverRecreates(s: EngineState, sources: set<ElementId>, el: ElementId)
    requires CacheAgrees(s, sources)
    ensures var (t, c, r) := ConnectToElementCachedStep(s, sources, el);
      && r == Returned
      && CacheAgrees(t, c)
      && t.connectedElement == Some(el)
      && (s.connectedElement != Some(el) ==>
            && t.source == Some(el)
            && t.edges == Wire(s.edges, el)
            && (forall m :: OnRoute(el, m) ==> Reaches(t.edges, m, Destination)))
  {
    var s1 := if !s.ctx then InitStep(s) else s;
    if !s.ctx {
      InitEstablishes(s);
    }
    assert CacheAgrees(s1, sources) && s1.ctx;
    assert s1.edges == s.edges && s1.connectedElement == s.connectedElement;
    if s1.connectedElement == Some(el) {
    } else if el in sources {
      RewireKnownSource(s1, sources, el);
    } else {
      CreateNewSource(s1, sources, el);
    }
  }

  /**
   * One call of the intended binding for an element other than the one bound
   * last, as far as binding is concerned: the host is asked only for an element it
   * has not met, and the element's source becomes the wired one.
   */
  lemma CachedBookkeeping(s: EngineState, sources: set<ElementId>, el: ElementId)
    requires s.connectedElement != Some(el) && sources == s.hostSources
    ensures var p := ConnectToElementCachedStep(s, sources, el);
      && p.2 == Returned
      && p.0.ctx && p.0.connectedElement == Some(el) && p.0.source == Some(el)
      && p.1 == sources + {el} && p.0.hostSources == s.hostSources + {el}
      && (el in sources ==> p.0.creations == s.creations)
      && (el !in sources ==> p.0.creations == s.creations + [el])
  {
    var s1 := if !s.ctx then InitStep(s) else s;
    assert s1.ctx && s1.connectedElement == s.connectedElement;
    assert s1.hostSources == s.hostSources && s1.creations == s.creations;
  }

  /** The intended binding of a, then b, on an engine that has bound nothing yet. */
  lemma CachedTwoBindings(s: EngineState, a: ElementId, b: ElementId)
    requires s.connectedElement.None? && s.hostSources == {} && s.creations == [] && a != b
    ensures var first := ConnectToElementCachedStep(s, {}, a);
      var second := ConnectToElementCachedStep(first.0, first.1, b);
      && first.2 == Returned && second.2 == Returned
      && second.0.creations == [a, b]
      && second.0.connectedElement == Some(b)
      && second.1 == second.0.hostSources && a in second.1
  {
    var first := ConnectToElementCachedStep(s, {}, a);
    CachedBookkeeping(s, {}, a);
    assert first.0.creations == [a] && first.1 == first.0.hostSources;
    assert b !in first.1;
    CachedBookkeeping(first.0, first.1, b);
  }

  /**
   * Corrected: binding a, b, a on an engine that has bound nothing yet creates one
   * source per element and rebinds a.
   */
  lemma CachedRebindReusesSource(s: EngineState, a: ElementId, b: ElementId)
    requires s.connectedElement.None? && s.hostSources == {} && s.creations == [] && a != b
    ensures var first := ConnectToElementCachedStep(s, {}, a);
      var second := ConnectToElementCachedStep(first.0, first.1, b);
      var third := ConnectToElementCachedStep(second.0, second.1, a);
      && first.2 == Returned && second.2 == Returned && third.2 == Returned
      && third.0.creations == [a, b] && NoRepeats(third.0.creations)
      && third.0.connectedElement == Some(a) && third.0.source == Some(a)
  {
    var first := ConnectToElementCachedStep(s, {}, a);
    var second := ConnectToElementCachedStep(first.0, first.1, b);
    CachedTwoBindings(s, a, b);
    CachedBookkeeping(second.0, second.1, a);
  }
}
