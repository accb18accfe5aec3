/**
 * The buffer fills of tools/synths/noise.js. `Noise` fills its buffer with
 * white noise, one draw per sample; `RandomSource` fills it in `steps`
 * equal blocks, one draw per block, and exposes its playback speed and gain
 * as operator parameters. The values `Math.random()` returns are given as a
 * sequence of draws, and only the one channel the buffers are built with is
 * modelled.
 */
module Noise {
  import opened JsCore
  import opened SynthOperator

  /** `Math.random() * 2 - 1` for the draw r. */
  function Sample(r: real): real
  {
    r * 2.0 - 1.0
  }

  /** The white-noise buffer for the given draws, one per sample. */
  function NoiseSamples(draws: seq<real>): (out: seq<real>)
    ensures |out| == |draws|
  {
    seq(|draws|, i requires 0 <= i < |draws| => Sample(draws[i]))
  }

  /** The fill loop of the `Noise` constructor. */
  method FillNoise(buf: array<real>, draws: seq<real>)
    requires |draws| == buf.Length
    modifies buf
    ensures buf[..] == NoiseSamples(draws)
  {
    var i := 0;
    while i < buf.Length
      invariant 0 <= i <= buf.Length
      invariant forall k :: 0 <= k < i ==> buf[k] == Sample(draws[k])
    {
      buf[i] := Sample(draws[i]);
      i := i + 1;
    }
    assert forall k :: 0 <= k < buf.Length ==> buf[..][k] == NoiseSamples(draws)[k];
  }

  /** The value the block holding sample k gets, for blocks of `sps`
      samples; samples past the last block keep theirs (see `StepFill`). */
  function StepValue(draws: seq<real>, sps: nat, k: nat): real
  {
    if sps > 0 && k / sps < |draws| then Sample(draws[k / sps]) else 0.0
  }

  /** The buffer after the fill loops of the `RandomSource` constructor:
      `samplesPerStep = floor(length / steps)`, block s gets draw s, and the
      samples at or past `steps * samplesPerStep` keep their values. With no
      steps, no block is filled. */
  function StepFill(prev: seq<real>, steps: nat, draws: seq<real>): (out: seq<real>)
    requires |draws| == steps
    ensures |out| == |prev|
  {
    if steps == 0 then prev
    else
      var sps := |prev| / steps;
      seq(|prev|, k requires 0 <= k < |prev| => if k < steps * sps then StepValue(draws, sps, k) else prev[k])
  }

  /** The fill loops of the `RandomSource` constructor. */
  method FillSteps(buf: array<real>, steps: nat, draws: seq<real>)
    requires |draws| == steps
    modifies buf
    ensures buf[..] == StepFill(old(buf[..]), steps, draws)
  {
    if steps == 0 {
      return;
    }
    var sps := buf.Length / steps;
    var step := 0;
    while step < steps
      invariant 0 <= step <= steps
      invariant forall k :: 0 <= k < buf.Length ==>
        buf[k] == if k < step * sps then StepValue(draws, sps, k) else old(buf[k])
    {
      var randomValue := Sample(draws[step]);
      var i := 0;
      while i < sps
        invariant 0 <= i <= sps
        invariant forall k :: 0 <= k < buf.Length ==>
          buf[k] == if k < step * sps + i then StepValue(draws, sps, k) else old(buf[k])
      {
        WriteInBlock(buf.Length, steps, step, i);
        buf[step * sps + i] := randomValue;
        i := i + 1;
      }
      assert step * sps + sps == (step + 1) * sps;
      step := step + 1;
    }
    assert forall k :: 0 <= k < buf.Length ==> buf[..][k] == StepFill(old(buf[..]), steps, draws)[k];
  }

  /** Sample i of block `step` lies inside the buffer and inside that block. */
  lemma WriteInBlock(length: nat, steps: nat, step: nat, i: nat)
    requires steps > 0 && step < steps && i < length / steps
    ensures step * (length / steps) + i < length
    ensures (step * (length / steps) + i) / (length / steps) == step
  {
    var sps := length / steps;
    assert step * sps + i < (step + 1) * sps;
    assert (step + 1) * sps <= steps * sps;
    assert steps * sps <= length;
    DivInBlock(step, sps, i);
  }

  lemma DivInBlock(step: nat, sps: nat, i: nat)
    requires i < sps
    ensures (step * sps + i) / sps == step
  {
    var m := step * sps + i;
    var q := m / sps;
    var r := m % sps;
    assert (q - step) * sps == i - r;
    if q > step {
      AtLeastOnce(q - step, sps);
    } else if q < step {
      AtLeastOnce(step - q, sps);
    }
  }

  lemma AtLeastOnce(a: int, b: nat)
    requires a >= 1
    ensures a * b >= b
  {
  }

  /** The id of the source's `playbackRate` and of its gain's `gain`. */
  const PlaybackRate: nat := 0
  const SourceGain: nat := 1

  /** The two `exposeParam` calls of the `RandomSource` constructor. */
  function RandomSourceParams(s: OpState, now: real): OpState
  {
    var withSpeed := ExposeParamOf(s, "speed", AudioParam(PlaybackRate), 1.0, 0.0, 8.0, now);
    ExposeParamOf(withSpeed, "gain", AudioParam(SourceGain), 1.0, -1000.0, 1000.0, now)
  }

  /** `new Noise(ctx)` with a buffer of `length` samples: the buffer, and
      the operator with its gain node, id `gainNode`, as outlet. */
  method NewNoise(length: nat, draws: seq<real>, gainNode: nat) returns (buf: array<real>, op: Operator)
    requires |draws| == length
    ensures fresh(buf) && fresh(op)
    ensures buf[..] == NoiseSamples(draws)
    ensures op.State() == OpState(map[], []) && op.outlet == Some(gainNode)
  {
    buf := new real[length](_ => 0.0);
    FillNoise(buf, draws);
    op := new Operator(Some(gainNode), false, 0.0);
  }

  /** `new RandomSource(ctx, bufferLength, steps)` with a buffer of
      `length` samples, which a new AudioBuffer holds as zeros. */
  method NewRandomSource(length: nat, steps: nat, draws: seq<real>, gainNode: nat, now: real) returns (buf: array<real>, op: Operator)
    requires |draws| == steps
    ensures fresh(buf) && fresh(op)
    ensures buf[..] == StepFill(seq(length, _ => 0.0), steps, draws)
    ensures op.State() == RandomSourceParams(OpState(map[], []), now) && op.outlet == Some(gainNode)
  {
    buf := new real[length](_ => 0.0);
    assert buf[..] == seq(length, _ => 0.0);
    FillSteps(buf, steps, draws);
    op := new Operator(Some(gainNode), false, 0.0);
    op.ExposeParam("speed", AudioParam(PlaybackRate), 1.0, 0.0, 8.0, 0.0, now);
    op.ExposeParam("gain", AudioParam(SourceGain), 1.0, -1000.0, 1000.0, 0.0, now);
  }

  // ---------------------------------------------------------------------------
  // Properties
  // ---------------------------------------------------------------------------

  /** Draws in [0, 1) give white noise in [-1, 1). */
  lemma NoiseInRange(draws: seq<real>)
    requires forall i :: 0 <= i < |draws| ==> 0.0 <= draws[i] < 1.0
    ensures forall i :: 0 <= i < |draws| ==> -1.0 <= NoiseSamples(draws)[i] < 1.0
  {
  }

  /** Every sample of block s holds the block's one draw, mapped to
      [-1, 1). */
  lemma BlockValues(prev: seq<real>, steps: nat, draws: seq<real>, s: nat, j: nat)
    requires |draws| == steps && s < steps && j < |prev| / steps
    ensures s * (|prev| / steps) + j < |prev|
    ensures StepFill(prev, steps, draws)[s * (|prev| / steps) + j] == Sample(draws[s])
  {
    var sps := |prev| / steps;
    WriteInBlock(|prev|, steps, s, j);
    assert s * sps + j < steps * sps by {
      assert s * sps + j < (s + 1) * sps <= steps * sps;
    }
  }

  /** The blocks cover all but fewer than `steps` samples, and the samples
      past them are never written. */
  lemma TailUntouched(prev: seq<real>, steps: nat, draws: seq<real>, k: nat)
    requires |draws| == steps && steps > 0
    ensures steps * (|prev| / steps) <= |prev| < steps * (|prev| / steps) + steps
    ensures steps * (|prev| / steps) <= k < |prev| ==> StepFill(prev, steps, draws)[k] == prev[k]
  {
  }

  /** Draws in [0, 1) put every filled sample in [-1, 1). */
  lemma StepsInRange(prev: seq<real>, steps: nat, draws: seq<real>, k: nat)
    requires |draws| == steps && steps > 0 && k < steps * (|prev| / steps) && k < |prev|
    requires forall i :: 0 <= i < |draws| ==> 0.0 <= draws[i] < 1.0
    ensures -1.0 <= StepFill(prev, steps, draws)[k] < 1.0
  {
    var sps := |prev| / steps;
    assert sps > 0;
    assert k / sps < steps;
  }

  /** The source exposes `speed` (1 in [0, 8]) on its playback rate and
      `gain` (1 in [-1000, 1000]) on its gain, and sets both to 1 at once. */
  lemma RandomSourceExposes(now: real)
    ensures var r := RandomSourceParams(OpState(map[], []), now);
            r.params == map["speed" := ParamEntry(1.0, 0.0, 8.0, AudioParam(PlaybackRate)),
                             "gain" := ParamEntry(1.0, -1000.0, 1000.0, AudioParam(SourceGain))]
            && r.log == [SetValueAt(PlaybackRate, 1.0, now), SetValueAt(SourceGain, 1.0, now)]
  {
    var s0 := OpState(map[], []);
    ExposeRegistersAndApplies(s0, "speed", AudioParam(PlaybackRate), 1.0, 0.0, 8.0, now);
    var s1 := ExposeParamOf(s0, "speed", AudioParam(PlaybackRate), 1.0, 0.0, 8.0, now);
    ExposeRegistersAndApplies(s1, "gain", AudioParam(SourceGain), 1.0, -1000.0, 1000.0, now);
  }
}
