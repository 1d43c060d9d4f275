# AudioEngine: a verified model of the engine's state machine

`src/audio/AudioEngine.ts` arranges and sets the parameters of a Web Audio graph:
a ten-band peaking equaliser, a dynamics compressor, a preamp gain, a reverb
(convolver) with a linear wet/dry crossfade, a stereo panner and an analyser. It
binds a playback element to that graph and applies presets. This project models
the engine's own logic and treats every host node as the parameter values the
engine writes to it. The connection graph is modelled as a set of directed edges.
No signal processing is modelled.

- `wrappers.dfy`, module `Wrappers`: the `Option` type.
- `decibels.dfy`, module `Decibels`: the preamp's gain value. The value stays
  symbolic (`FromDecibels(db)`), and a lemma gives the exact value of
  `10^(db/20)` at every multiple of 20 dB, where it is rational.
- `routing.dfy`, module `Routing`: the node names, the host's `connect` and
  `disconnect` as operations on a set of edges (`disconnect()` on a node removes
  exactly the edges leaving it, which is the definition `Disconnect`), the edges
  that `connectSourceNode` adds, and reachability in the edge graph.
- `engine_spec.dfy`, module `EngineSpec`:
  - the engine's fields as one value, `EngineState`, together with the host's
    record of which elements already have a source node;
  - its invariant `Inv`;
  - one step function per operation;
  - the lemmas that state what each operation promises.
- `engine.dfy`, module `Engine`: class `AudioEngine`, with the fields the
  TypeScript class updates in place. Each method is proved to leave exactly the
  state its step function gives, and to keep `Valid()`, that is `Inv` of its
  fields. `connectSourceNode`'s `forEach` over the bands is a `while` loop with
  its invariants (`ConnectChain`). `applyPreset`'s `forEach` over the eq list is
  another (`ApplyEqGains`).
- `binding.dfy`, module `ElementBinding`: what binding playback elements does in
  a row, as written and corrected (see Findings).

Two ghost logs give order a meaning:
- `writes` records every `setValueAtTime` call;
- `creations` records every `createMediaElementSource` call.

The host's rule is that an element gets at most one media-element source node,
and a second request throws `InvalidStateError`. The field `hostSources` models
that rule.

## Model

| member | source | states |
|---|---|---|
| Decibels.DecibelsAtMultiplesOfTwenty | src/audio/AudioEngine.ts:131 | a gain of 20·k dB is exactly the linear value 10^k (or 1/10^-k for negative k); 0 dB is exactly 1 |
| Routing.EqChainGrow | src/audio/AudioEngine.ts:95-99 | each turn of the band loop adds exactly the edge from the node reached so far into the next band |
| Routing.RouteReachesDestination | src/audio/AudioEngine.ts:89-118 | on the route wired through ten bands, the source, every band, the compressor, gain, dry, convolver, wet, panner and analyser all reach the destination |
| Routing.WireReachesDestination | src/audio/AudioEngine.ts:81-119 | after `connectSourceNode(el)` on any previous graph, every node of the chain reaches the destination |
| Routing.WireSourceEdge | src/audio/AudioEngine.ts:86-97 | after wiring, the only edge leaving the source goes into band 0, in both directions of the equivalence |
| Routing.WireKeepsRoute | src/audio/AudioEngine.ts:84-87 | wiring a second source keeps every edge of a first source's route, since `disconnect()` on the new source removes only that node's edges |
| Routing.WireIdempotent | src/audio/AudioEngine.ts:81-119 | wiring the same source twice gives the same edge set as wiring it once |
| Routing.WireKeepsOtherEdges | src/audio/AudioEngine.ts:85-87 | wiring keeps every edge that does not leave the new source, so a previously wired different source stays connected |
| EngineSpec.Clamp01 | src/audio/AudioEngine.ts:147 | `max(0, min(1, x))` lies in [0, 1], is x inside the interval, 0 below it and 1 above it |
| EngineSpec.BandsAreIncreasing | src/audio/AudioEngine.ts:30 | the ten band frequencies are strictly increasing |
| EngineSpec.InitialIsValid | src/audio/AudioEngine.ts:16-32 | a new engine has no context, null nodes, stored mix 0.3, and satisfies the invariant |
| EngineSpec.ReverbMixCrossfade | src/audio/AudioEngine.ts:145-152 | the stored ratio becomes the clamped input; with a context, wet = ratio and dry = 1 - ratio (sum 1, both in [0, 1]), written wet then dry; before `init` only the ratio changes; the invariant is kept |
| EngineSpec.InitIdempotent | src/audio/AudioEngine.ts:36-37 | after `init` the context exists; a second `init` and any `init` with a context change nothing |
| EngineSpec.InitEstablishes | src/audio/AudioEngine.ts:36-68 | the first `init` builds ten bands with frequency `bands[i]`, Q 1.0 + 0.3·i and gain 0, preamp gain 1.0 and pan 0, sets wet/dry from the stored ratio, and keeps the invariant; binding, routing and host records are untouched |
| EngineSpec.InitDefaultMix | src/audio/AudioEngine.ts:32-53 | on a new engine `init` leaves wet at 0.3 and dry at 0.7 |
| EngineSpec.PreampGainSetter | src/audio/AudioEngine.ts:130-133 | with a context the gain node's value becomes `FromDecibels(db)`, one write is logged and nothing else changes; before `init` nothing changes |
| EngineSpec.PreampGainExamples | src/audio/AudioEngine.ts:131-132 | `setPreampGain(0)` gives linear gain exactly 1 and `setPreampGain(20)` exactly 10 |
| EngineSpec.BandGainSetter | src/audio/AudioEngine.ts:135-138 | with a context and 0 <= index < 10 exactly band index's gain becomes db and other bands are unchanged; any other index, or no context, changes nothing |
| EngineSpec.PannerSetter | src/audio/AudioEngine.ts:140-143 | with a context the pan becomes the value as given, unclamped; before `init` nothing changes |
| EngineSpec.ApplyEqEffect | src/audio/AudioEngine.ts:185-187 | with a context, the eq loop overlays the list on the bands from band 0, ignores entries past the last band, and logs one write per applied band in index order |
| EngineSpec.ApplyEqDormant | src/audio/AudioEngine.ts:185-187 | before `init` the eq loop changes nothing |
| EngineSpec.ScalarsEffect | src/audio/AudioEngine.ts:182-184 | the preamp, panner and mix fields change only the preamp, pan, ratio and wet/dry, each only when present, writing in the order preamp, pan, mix |
| EngineSpec.PresetKeepsInv | src/audio/AudioEngine.ts:180-188 | applying a preset keeps the invariant, and a missing preset changes nothing |
| EngineSpec.PresetEffect | src/audio/AudioEngine.ts:180-188 | a preset changes exactly the parameters whose fields are present; bands below min(n, 10) take the listed values and the others keep theirs; every other field is unchanged |
| EngineSpec.PresetWriteOrder | src/audio/AudioEngine.ts:180-188 | the writes a preset makes are, in order: preamp, pan, wet/dry, then bands by index; none before `init` |
| EngineSpec.PresetEqExample | src/audio/AudioEngine.ts:185-187 | a preset with eq [3, -2] sets band 0 to 3 and band 1 to -2 and leaves bands 2..9 unchanged |
| EngineSpec.ConnectSourceRoutes | src/audio/AudioEngine.ts:81-119 | without a context or a source nothing changes; otherwise the source is recorded, its old out-edges are replaced by the full chain, every chain node reaches the destination, other edges stay, the only source edge enters band 0, and repeating the call changes nothing |
| EngineSpec.ConnectSameElement | src/audio/AudioEngine.ts:123 | binding the element bound last changes nothing and creates no source |
| EngineSpec.ConnectOtherElement | src/audio/AudioEngine.ts:121-128 | binding another element initialises first if needed, records the element, makes exactly one source creation; if the host accepts, the new source is wired to the output; if the host throws, routing is unchanged; apart from the binding, the routing and the host's source record, the result is exactly the state `init` leaves (the old state itself when a context existed), so preamp, pan, bands, mix, wet/dry and the write log are `init`'s or unchanged |
| ElementBinding.BindingBookkeeping | src/audio/AudioEngine.ts:122-127 | one call with an element other than the last one bound leaves a context, binds the element, logs one creation, and throws exactly when the host has made a source for it before |
| ElementBinding.TwoBindings | src/audio/AudioEngine.ts:121-128 | binding a and then b from an engine that has bound nothing returns normally twice, logs creations [a, b] and leaves b bound and wired |
| ElementBinding.RebindAfterOtherThrows | src/audio/AudioEngine.ts:123-126 | binding a, b, a logs creations [a, b, a], so a is created twice, and the third call lets `InvalidStateError` escape with a recorded as bound while `source` still names b; a fourth bind of a then returns at once without any change |
| ElementBinding.RebindLeavesBothSourcesWired | src/audio/AudioEngine.ts:84-87 | after binding a, b, a on a valid engine, the third call throws `InvalidStateError` and `source` names b, yet both a's and b's source nodes still feed band 0 and reach the output, because wiring b disconnected only b's own node |
| ElementBinding.CachedBindingNeverRecreates | src/audio/AudioEngine.ts:125-127 | corrected binding: with a record of sourced elements that agrees with the host, a call never throws, never logs a creation twice, keeps the record in step, and leaves the element bound and wired to the output |
| ElementBinding.CachedBookkeeping | src/audio/AudioEngine.ts:125-127 | corrected binding: one call asks the host only for an element it has not met, and wires that element's source |
| ElementBinding.CachedTwoBindings | src/audio/AudioEngine.ts:121-128 | corrected binding of a and then b logs creations [a, b] and leaves b bound |
| ElementBinding.CachedRebindReusesSource | src/audio/AudioEngine.ts:121-128 | corrected binding of a, b, a returns normally each time, logs creations [a, b] without repeats, and leaves a bound with its source wired |
| Engine.AudioEngine.constructor | src/audio/AudioEngine.ts:16-34 | a new engine is valid and equals the initial state |
| Engine.AudioEngine.Init | src/audio/AudioEngine.ts:36-68 | `init` leaves exactly `InitStep` of the old state, keeps `Valid()`, always leaves a context, and changes nothing when one already exists |
| Engine.AudioEngine.CreateNodes | src/audio/AudioEngine.ts:38-52 | creates the context and every node with its default: gain 1.0, pan 0, an empty convolver, analyser size 2048, the compressor, and wet/dry gains |
| Engine.AudioEngine.CreateImpulseResponse | src/audio/AudioEngine.ts:166-178 | installs a two-channel impulse response of the given duration and decay, and does nothing without a context or convolver |
| Engine.AudioEngine.ConnectSourceNode | src/audio/AudioEngine.ts:81-119 | leaves exactly `ConnectSourceStep` of the old state and keeps `Valid()` |
| Engine.AudioEngine.ConnectChain | src/audio/AudioEngine.ts:95-118 | the band loop and the fixed connections add exactly the chain edges, with the loop invariant that after i turns the bands 0..i-1 are chained |
| Engine.AudioEngine.CreateMediaElementSource | src/audio/AudioEngine.ts:126 | the host call logs the request and either registers the element's source or throws `InvalidStateError` if it has one |
| Engine.AudioEngine.ConnectToElement | src/audio/AudioEngine.ts:121-128 | returns and leaves exactly `ConnectToElementStep` of the old state, keeping `Valid()` |
| Engine.AudioEngine.BindElement | src/audio/AudioEngine.ts:124-127 | for an element other than the last one bound, returns and leaves exactly `BindStep` of the old state, keeping `Valid()` |
| Engine.AudioEngine.SetPreampGain | src/audio/AudioEngine.ts:130-133 | leaves exactly `SetPreampGainStep` of the old state and keeps `Valid()` |
| Engine.AudioEngine.SetBandGain | src/audio/AudioEngine.ts:135-138 | leaves exactly `SetBandGainStep` of the old state and keeps `Valid()` |
| Engine.AudioEngine.SetPanner | src/audio/AudioEngine.ts:140-143 | leaves exactly `SetPannerStep` of the old state and keeps `Valid()` |
| Engine.AudioEngine.SetReverbMix | src/audio/AudioEngine.ts:145-152 | leaves exactly `SetReverbMixStep` of the old state and keeps `Valid()` |
| Engine.AudioEngine.GetFrequencies | src/audio/AudioEngine.ts:154-156 | returns the ten fixed band frequencies, strictly increasing, whatever the state |
| Engine.AudioEngine.GetAnalyserData | src/audio/AudioEngine.ts:158-164 | returns nothing exactly when there is no context, and otherwise a snapshot of 1024 bins (half the transform size 2048) |
| Engine.AudioEngine.ApplyPreset | src/audio/AudioEngine.ts:180-188 | leaves exactly `ApplyPresetStep` of the old state and keeps `Valid()` |
| Engine.AudioEngine.ApplyScalarFields | src/audio/AudioEngine.ts:182-184 | leaves exactly `ApplyScalars` of the old state and keeps `Valid()` |
| Engine.AudioEngine.ApplyEqGains | src/audio/AudioEngine.ts:185-187 | the eq loop leaves exactly `ApplyEq` of the old state, with the invariant that after i turns the first i entries have been applied |

## Left out

- Signal processing: filtering, compression, convolution, panning and FFT
  analysis are done by the host. Each node is modelled only as the parameter
  values the engine writes to it.
- Numbers: they are modelled as mathematical reals, so there is no NaN, no
  infinity and no floating-point rounding. For example, `1 - mix` and
  `1.0 + i * 0.3` are exact here.
- Decibels: `Math.pow(10, db / 20)` is kept symbolic (`FromDecibels(db)`). It is
  evaluated exactly only at multiples of 20 dB, where the value is rational.
- `resume` (src/audio/AudioEngine.ts:70-79) is left out. It is an asynchronous
  host state change whose rejection is logged and swallowed.
- Engine.AudioEngine.CreateImpulseResponse: the impulse samples
  (src/audio/AudioEngine.ts:168-176) are left out. They come from `Math.random`
  and a floating-point envelope, and the buffer length `rate * durationSeconds`
  comes from the host's sample rate. The model records only the channel count,
  duration and decay that are installed.
- Other engines and contexts: the host allows one source node per element
  across all contexts, but the invariant `Inv` requires the host's record
  `hostSources` to be empty before `init` and afterwards to hold only the
  elements of this engine's own `creations`. The model therefore assumes that no
  other engine instance (the class is exported beside the singleton, lines 15
  and 191) or other code has created a source node for an element. The binding
  lemmas of `ElementBinding` hold under that assumption.
- Engine.AudioEngine.GetAnalyserData: returns the snapshot's length, not its
  contents. The contents are filled in by the host analyser.
- Engine.AudioEngine.Init: `init` is `async`, but nothing in it awaits. The model
  runs it synchronously, as the unawaited call in `connectToElement` does.
- The vendor-prefixed fallback for `AudioContext` (line 38), the default singleton
  export (line 191) and the unused `presets` field (line 31) are not modelled.
- Engine.AudioEngine.SetBandGain: the index is an integer. A fractional or NaN
  index, which JavaScript would also reject through the `!this.eqNodes[index]`
  guard, is not representable.
- Engine.AudioEngine.GetFrequencies: returns the band list as a value.
  The TypeScript method returns the field's own array, so a caller could mutate
  it. That aliasing is not modelled.
- Preset validation: `applyPreset` accepts any object at run time. The model
  takes a well-typed `Preset`, or no preset for a falsy argument. It does not
  model an `eq` field that is present but not an array, for which the
  `Array.isArray` guard skips the loop.

## Findings

| source | as written | input that shows it | evidently intended | confidence | as-written member | corrected member |
|---|---|---|---|---|---|---|
| src/audio/AudioEngine.ts:121-128 | `connectToElement` remembers only the element bound last and calls `createMediaElementSource` for every other element | on an engine that has bound nothing, bind element a, then b, then a again (a ≠ b): the third call asks the host for a second source node for a, and the host throws `InvalidStateError`, which escapes from `connectToElement`; a is then recorded as bound while `source` names b, both sources still feed the chain (line 86 disconnects only the new source node), and every later bind of a returns at once | each element's source node is created once (the comment on line 125) and reused when the element is bound again | high, not executed | ElementBinding.RebindAfterOtherThrows | ElementBinding.CachedBindingNeverRecreates |

The class `Engine.AudioEngine` models the code as written. The corrected binding
is `ElementBinding.ConnectToElementCachedStep`. It keeps a record of the
elements that already have a source node and rewires an element's existing node
instead of asking the host again. `ElementBinding.CachedRebindReusesSource` shows
that a, b, a then succeeds, with one creation per element.
