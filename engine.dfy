/**
 * The `AudioEngine` class of src/audio/AudioEngine.ts, with the fields it updates in
 * place. Every method is proved to leave the state that the matching function of
 * `EngineSpec` describes; what those functions promise is proved there.
 *
 * Host nodes are reduced to the parameters the engine writes: `gainNode` holds the
 * preamp gain value, `panner` the pan, `wetGain` and `dryGain` their gains,
 * `eqNodes` the ten filters' parameters, `analyser` the transform size and
 * `convolver` its impulse response. `edges` is the host's connection graph and
 * `hostSources` the elements the host has already given a source node.
 */
module Engine {
  import opened Wrappers
  import opened Decibels
  import opened Routing
  import opened EngineSpec

  class AudioEngine {
    var ctx: bool
    var source: Option<ElementId>
    var analyser: Option<nat>
    var gainNode: Option<Amplitude>
    var eqNodes: seq<Band>
    var panner: Option<real>
    var convolver: Option<ConvolverNode>
    var compressor: bool
    var wetGain: Option<real>
    var dryGain: Option<real>
    var connectedElement: Option<ElementId>
    var reverbMix: real

    // State of the host audio system that the engine drives.
    var edges: set<Edge>
    var hostSources: set<ElementId>

    // Every parameter write and every source-creation call, in order.
    ghost var writes: seq<ParamWrite>
    ghost var creations: seq<ElementId>

    /** The engine as a value. */
    ghost function State(): EngineState
      reads this
    {
      EngineState(ctx, gainNode, panner, convolver, analyser, compressor, wetGain, dryGain,
                  eqNodes, reverbMix, connectedElement, source, edges, hostSources,
                  writes, creations)
    }

    ghost predicate Valid()
      reads this
    {
      Inv(State())
    }

    constructor ()
      ensures Valid() && State() == Initial()
    {
      ctx := false;
      source := None;
      analyser := None;
      gainNode := None;
      eqNodes := [];
      panner := None;
      convolver := None;
      compressor := false;
      wetGain := None;
      dryGain := None;
      connectedElement := None;
      reverbMix := DefaultReverbMix;
      edges := {};
      hostSources := {};
      writes := [];
      creations := [];
    }

    /** Creates the context and every node, once; a second call returns at once. */
    method Init()
      requires Valid()
      modifies this
      ensures Valid() && ctx
      ensures State() == InitStep(old(State()))
      ensures old(ctx) ==> State() == old(State())
    {
      if ctx {
        return;
      }
      ghost var s := State();
      ghost var created := s.(ctx := true, gainNode := Some(Linear(1.0)), panner := Some(0.0),
                              convolver := Some(ConvolverNode(None)), analyser := Some(FftSize),
                              compressor := true, wetGain := Some(1.0), dryGain := Some(1.0));
      CreateNodes();
      assert State() == created;
      SetReverbMix(reverbMix);

      eqNodes := InitialBands();

      CreateImpulseResponse(DefaultImpulse.seconds, DefaultImpulse.decay);
      InitEstablishes(s);
    }

    /** Creates the context and the nodes, each with its host default. */
    method CreateNodes()
      modifies this`ctx, this`gainNode, this`panner, this`convolver, this`analyser,
               this`compressor, this`wetGain, this`dryGain
      ensures ctx && gainNode == Some(Linear(1.0)) && panner == Some(0.0)
      ensures convolver == Some(ConvolverNode(None)) && analyser == Some(FftSize)
      ensures compressor && wetGain == Some(1.0) && dryGain == Some(1.0)
    {
      ctx := true;
      gainNode := Some(Linear(1.0));
      panner := Some(0.0);
      convolver := Some(ConvolverNode(None));
      analyser := Some(FftSize);
      compressor := true;
      wetGain := Some(1.0);
      dryGain := Some(1.0);
    }

    /** Installs a two-channel impulse response; does nothing without a context or convolver. */
    method CreateImpulseResponse(seconds: real, decay: real)
      modifies this`convolver
      ensures State() == ImpulseStep(old(State()), seconds, decay)
    {
      if !ctx || convolver.None? {
        return;
      }
      convolver := Some(ConvolverNode(Some(Impulse(2, seconds, decay))));
    }

    /**
     * Removes the source's outgoing edges, then wires it through every equaliser
     * band in turn, the compressor, the gain, the dry and wet paths, the panner,
     * the analyser and the output.
     */
    method ConnectSourceNode(sourceNode: Option<ElementId>)
      requires Valid()
      modifies this
      ensures Valid()
      ensures State() == ConnectSourceStep(old(State()), sourceNode)
    {
      if !ctx || sourceNode.None? {
        return;
      }
      ConnectSourceKeepsInv(State(), sourceNode);
      source := sourceNode;
      var el := sourceNode.value;
      edges := Disconnect(edges, Source(el));
      ConnectChain(el);
      WiredState(old(State()), sourceNode, edges);
    }

    /**
     * The connections of `connectSourceNode` after the disconnect: the source into
     * the first band, each band into the next, then the fixed tail.
     */
    method ConnectChain(el: ElementId)
      modifies this`edges
      ensures edges == old(edges) + EqChain(el, |eqNodes|) + Tail(Prev(el, |eqNodes|))
    {
      ghost var base := edges;
      var node := Source(el);
      var i := 0;
      while i < |eqNodes|
        invariant 0 <= i <= |eqNodes|
        invariant node == Prev(el, i)
        invariant edges == base + EqChain(el, i)
      {
        EqChainGrow(el, i);
        edges := edges + {(node, Eq(i))};
        node := Eq(i);
        i := i + 1;
      }
      edges := edges + Tail(node);
    }

    /** The host's `createMediaElementSource`: throws if `el` already has a source node. */
    method CreateMediaElementSource(el: ElementId) returns (r: Outcome)
      modifies this`hostSources, this`creations
      ensures (State(), r) == CreateSourceStep(old(State()), el)
    {
      creations := creations + [el];
      if el in hostSources {
        return Threw(InvalidStateError);
      }
      hostSources := hostSources + {el};
      r := Returned;
    }

    /**
     * Binds a playback element: initialises first if needed, refuses to rebind the
     * element bound last, and otherwise creates its source node and routes it.
     */
    method ConnectToElement(el: ElementId) returns (r: Outcome)
      requires Valid()
      modifies this
      ensures Valid()
      ensures (State(), r) == ConnectToElementStep(old(State()), el)
    {
      if !ctx {
        Init();
      }
      if connectedElement == Some(el) {
        return Returned;
      }
      r := BindElement(el);
    }

    /** The part of `ConnectToElement` that runs for an element other than the one bound last. */
    method BindElement(el: ElementId) returns (r: Outcome)
      requires Valid() && ctx
      modifies this
      ensures Valid()
      ensures (State(), r) == BindStep(old(State()), el)
    {
      RequestSourceKeepsInv(State(), el);
      connectedElement := Some(el);
      r := CreateMediaElementSource(el);
      if r.Returned? {
        ConnectSourceNode(Some(el));
      }
    }

    method SetPreampGain(dbGain: real)
      requires Valid()
      modifies this`gainNode, this`writes
      ensures Valid()
      ensures State() == SetPreampGainStep(old(State()), dbGain)
    {
      PreampGainSetter(State(), dbGain);
      if gainNode.Some? && ctx {
        gainNode := Some(FromDecibels(dbGain));
        writes := writes + [PreampWrite(dbGain)];
      }
    }

    method SetBandGain(index: int, db: real)
      requires Valid()
      modifies this`eqNodes, this`writes
      ensures Valid()
      ensures State() == SetBandGainStep(old(State()), index, db)
    {
      BandGainSetter(State(), index, db);
      if !(0 <= index < |eqNodes|) || !ctx {
        return;
      }
      eqNodes := eqNodes[index := eqNodes[index].(gain := db)];
      writes := writes + [BandWrite(index, db)];
    }

    method SetPanner(value: real)
      requires Valid()
      modifies this`panner, this`writes
      ensures Valid()
      ensures State() == SetPannerStep(old(State()), value)
    {
      PannerSetter(State(), value);
      if panner.None? || !ctx {
        return;
      }
      panner := Some(value);
      writes := writes + [PanWrite(value)];
    }

    /** Stores the clamped ratio and, with a context, sets wet to it and dry to its complement. */
    method SetReverbMix(mix: real)
      modifies this`reverbMix, this`wetGain, this`dryGain, this`writes
      ensures State() == SetReverbMixStep(old(State()), mix)
      ensures old(Valid()) ==> Valid()
    {
      if old(Valid()) {
        ReverbMixCrossfade(State(), mix);
      }
      reverbMix := Clamp01(mix);
      if wetGain.None? || dryGain.None? {
        return;
      }
      if !ctx {
        return;
      }
      wetGain := Some(reverbMix);
      dryGain := Some(1.0 - reverbMix);
      writes := writes + [WetWrite(reverbMix), DryWrite(1.0 - reverbMix)];
    }

    /** The ten band frequencies, whatever the engine's state. */
    method GetFrequencies() returns (r: seq<real>)
      ensures r == Bands
      ensures |r| == BandCount && StrictlyIncreasing(r)
    {
      BandsAreIncreasing();
      r := Bands;
    }

    /**
     * The length of the spectrum snapshot: none before `init`, otherwise the
     * analyser's bin count, half its transform size.
     */
    method GetAnalyserData() returns (r: Option<nat>)
      requires Valid()
      ensures r.None? <==> !ctx
      ensures ctx ==> r == Some(1024)
    {
      if analyser.None? {
        return None;
      }
      r := Some(analyser.value / 2);
    }

    /** Applies the fields present in `preset`: preamp, panner, reverb mix, then each eq entry. */
    method ApplyPreset(preset: Option<Preset>)
      requires Valid()
      modifies this`gainNode, this`panner, this`reverbMix, this`wetGain, this`dryGain, this`eqNodes, this`writes
      ensures Valid()
      ensures State() == ApplyPresetStep(old(State()), preset)
    {
      if preset.None? {
        return;
      }
      var p := preset.value;
      ApplyScalarFields(p);
      if p.eq.Some? {
        ApplyEqGains(p.eq.value);
      }
    }

    /** The preamp, panner and reverb-mix fields of a preset, each only when present. */
    method ApplyScalarFields(p: Preset)
      requires Valid()
      modifies this`gainNode, this`panner, this`reverbMix, this`wetGain, this`dryGain, this`writes
      ensures Valid()
      ensures State() == ApplyScalars(old(State()), p)
    {
      if p.preamp.Some? {
        SetPreampGain(p.preamp.value);
      }
      if p.panner.Some? {
        SetPanner(p.panner.value);
      }
      if p.reverbMix.Some? {
        SetReverbMix(p.reverbMix.value);
      }
    }

    /** `setBandGain(i, gains[i])` for each entry of a preset's eq list, in order. */
    method ApplyEqGains(gains: seq<real>)
      requires Valid()
      modifies this`eqNodes, this`writes
      ensures Valid()
      ensures State() == ApplyEq(old(State()), gains)
    {
      var i := 0;
      while i < |gains|
        invariant 0 <= i <= |gains|
        invariant Valid()
        invariant State() == ApplyEq(old(State()), gains[..i])
      {
        assert gains[..i + 1][..i] == gains[..i];
        SetBandGain(i, gains[i]);
        i := i + 1;
      }
      assert gains[..|gains|] == gains;
    }
  }
}
