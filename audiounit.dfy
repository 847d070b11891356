/** The object-safe unit interface: a unit with a fixed number of inputs
    and outputs, sample and block processing, the default structural-hash
    rule and the analyses derived from `route` (response, latency) and
    from `tick` (mono and stereo pulls, mono and stereo filtering). */
module AudioUnit {
  import opened Signals

  /** The largest block `process` accepts without an adapter. */
  const MAX_BUFFER_SIZE: nat := 64

  /** One sample per channel. */
  type Frame = seq<real>

  function Min(a: nat, b: nat): nat { if a <= b then a else b }

  /** The first `size` frames of per-channel buffers: frame `k` holds
      sample `k` of every channel. */
  function Frames(input: seq<seq<real>>, size: nat): (r: seq<Frame>)
    requires forall c :: 0 <= c < |input| ==> size <= |input[c]|
    ensures |r| == size
    ensures forall k :: 0 <= k < size ==> |r[k]| == |input|
    ensures forall k, c :: 0 <= k < size && 0 <= c < |input| ==> r[k][c] == input[c][k]
  {
    seq(size, k requires 0 <= k < size => seq(|input|, c requires 0 <= c < |input| => input[c][k]))
  }

  /** `n` frames of a unit without inputs. */
  function Silence(n: nat): (r: seq<Frame>)
    ensures |r| == n && forall k :: 0 <= k < n ==> r[k] == []
  {
    seq(n, _ => [])
  }

  lemma SilenceAdd(a: nat, b: nat)
    ensures Silence(a) + Silence(b) == Silence(a + b)
  {
    assert forall k :: 0 <= k < a + b ==> (Silence(a) + Silence(b))[k] == Silence(a + b)[k];
  }

  lemma FramesOfNoChannels(input: seq<seq<real>>, size: nat)
    requires |input| == 0
    ensures Frames(input, size) == Silence(size)
  {
  }

  /** Frames whose buffers agree on the first `size` samples are equal. */
  lemma FramesPrefix(input: seq<seq<real>>, size: nat, m: nat)
    requires forall c :: 0 <= c < |input| ==> size <= |input[c]|
    requires m <= size
    ensures Frames(input, size)[..m] == Frames(input, m)
  {
  }

  /** Copying samples `i .. i+n` of `input` to positions `0 .. n` of
      `scratch` and reading `m <= n` frames of `scratch` continues the
      frames of `input` after position `i`. */
  lemma FramesShift(input: seq<seq<real>>, scratch: seq<seq<real>>, i: nat, n: nat, m: nat)
    requires |scratch| == |input|
    requires forall c :: 0 <= c < |input| ==> i + n <= |input[c]| && n <= |scratch[c]|
    requires forall c, j :: 0 <= c < |input| && 0 <= j < n ==> scratch[c][j] == input[c][i + j]
    requires m <= n
    ensures Frames(input, i) + Frames(scratch, m) == Frames(input, i + m)
  {
    var l, r := Frames(input, i) + Frames(scratch, m), Frames(input, i + m);
    forall k | 0 <= k < i + m
      ensures l[k] == r[k]
    {
      if k < i {
        assert l[k] == Frames(input, i)[k];
      } else {
        assert l[k] == Frames(scratch, m)[k - i];
      }
    }
  }

  /** A boxed unit. How it turns inputs into outputs is abstract: `respond`
      gives output channel `c` after the input frames received since the
      last reset, so the unit is causal and deterministic; `router` gives
      channel `k` of the frame its `route` returns. */
  class Unit {
    const numInputs: nat
    const numOutputs: nat
    const id: u64
    const respond: (seq<Frame>, nat) -> real
    const router: (SignalFrame, real, nat) -> Signal
    /** Whether the unit overrides `set_hash`; the default ignores the seed. */
    const usesHash: bool

    /** Input frames processed since the last reset. */
    var history: seq<Frame>
    /** The pseudorandom seed last installed by `set_hash`. */
    var seed: u64
    var sampleRate: real

    ghost predicate Valid()
      reads this
    {
      forall k :: 0 <= k < |history| ==> |history[k]| == numInputs
    }

    constructor (numInputs: nat, numOutputs: nat, id: u64,
                 respond: (seq<Frame>, nat) -> real,
                 router: (SignalFrame, real, nat) -> Signal,
                 usesHash: bool)
      ensures Valid()
      ensures this.numInputs == numInputs && this.numOutputs == numOutputs && this.id == id
      ensures this.respond == respond && this.router == router && this.usesHash == usesHash
      ensures history == [] && seed == 0 && sampleRate == DEFAULT_SR
    {
      this.numInputs, this.numOutputs, this.id := numInputs, numOutputs, id;
      this.respond, this.router, this.usesHash := respond, router, usesHash;
      history, seed, sampleRate := [], 0, DEFAULT_SR;
    }

    /** The output frame after input history `h`. */
    function OutputFrame(h: seq<Frame>): (f: Frame)
      ensures |f| == numOutputs
      ensures forall c :: 0 <= c < numOutputs ==> f[c] == respond(h, c)
    {
      seq(numOutputs, c requires 0 <= c < numOutputs => respond(h, c))
    }

    /** What `process` writes: channel `c`, position `j` is the output after
        history `h` followed by the first `j + 1` of `frames`. */
    function Render(h: seq<Frame>, frames: seq<Frame>): (block: seq<seq<real>>)
      ensures |block| == numOutputs
      ensures forall c :: 0 <= c < numOutputs ==> |block[c]| == |frames|
      ensures forall c, j :: 0 <= c < numOutputs && 0 <= j < |frames| ==>
        block[c][j] == respond(h + frames[..j + 1], c)
    {
      seq(numOutputs, c requires 0 <= c < numOutputs => seq(|frames|, j requires 0 <= j < |frames| => respond(h + frames[..j + 1], c)))
    }

    /** The routed frame for `input` at `frequency`. */
    function Route(input: SignalFrame, frequency: real): (output: SignalFrame)
      requires |input| == numInputs
      ensures |output| == numOutputs
      ensures forall k :: 0 <= k < numOutputs ==> output[k] == router(input, frequency, k)
    {
      seq(numOutputs, k requires 0 <= k < numOutputs => router(input, frequency, k))
    }

    method Reset()
      modifies this`history
      ensures Valid() && history == []
    {
      history := [];
    }

    method SetSampleRate(sampleRate: real)
      modifies this`sampleRate
      ensures this.sampleRate == sampleRate
    {
      this.sampleRate := sampleRate;
    }

    /** Process one frame. */
    method Tick(input: Frame) returns (output: Frame)
      requires Valid() && |input| == numInputs
      modifies this`history
      ensures Valid()
      ensures history == old(history) + [input]
      ensures output == OutputFrame(history)
    {
      history := history + [input];
      output := OutputFrame(history);
    }

    /** Process `size <= MAX_BUFFER_SIZE` frames: the same outputs as `size`
        calls of `Tick` with the same frames. */
    method Process(size: nat, input: seq<seq<real>>) returns (block: seq<seq<real>>)
      requires Valid() && size <= MAX_BUFFER_SIZE
      requires |input| == numInputs && forall c :: 0 <= c < |input| ==> size <= |input[c]|
      modifies this`history
      ensures Valid()
      ensures history == old(history) + Frames(input, size)
      ensures block == Render(old(history), Frames(input, size))
    {
      block := Render(history, Frames(input, size));
      history := history + Frames(input, size);
    }

    /** The default `set_hash` does nothing; a unit that uses the seed
        stores it. */
    method SetHash(hash: u64)
      modifies this`seed
      ensures seed == if usesHash then hash else old(seed)
    {
      if usesHash {
        seed := hash;
      }
    }

    /** The default `ping`: unless probing, install the incoming state as
        the seed, then return the incoming hash combined with the id. */
    method Ping(probe: bool, hash: AttoHash, scheme: HashScheme) returns (result: AttoHash)
      modifies this`seed
      ensures result == scheme.hash(hash, id)
      ensures seed == if !probe && usesHash then scheme.state(hash) else old(seed)
    {
      if !probe {
        SetHash(scheme.state(hash));
      }
      result := scheme.hash(hash, id);
    }

    /** Frequency response of `output` at `frequency`: route a unit response
        from every input and read the output channel. */
    function Response(output: nat, frequency: real): (r: Option<Complex>)
      requires output < numOutputs
      ensures r.Some? <==> router(ResponseSeed(numInputs), frequency, output).Response?
      ensures r.Some? ==> r.value == router(ResponseSeed(numInputs), frequency, output).gain
    {
      match Route(ResponseSeed(numInputs), frequency)[output]
      case Response(rx, _) => Some(rx)
      case _ => None
    }

    /** Causal latency: route zero latency from every input and take the
        minimum latency over the outputs. The frequency is irrelevant. */
    method Latency() returns (result: Option<real>)
      ensures numOutputs == 0 ==> result == None
      ensures result == MinLatency(Route(LatencySeed(numInputs), 1.0))
    {
      if numOutputs == 0 {
        return None;
      }
      var input := LatencySeed(numInputs);
      var response := Route(input, 1.0);
      result := None;
      var output := 0;
      while output < numOutputs
        invariant 0 <= output <= numOutputs
        invariant result == MinLatency(response[..output])
      {
        assert response[..output + 1][..output] == response[..output];
        match (result, response[output]) {
          case (None, Latency(x)) => result := Some(x);
          case (Some(r), Latency(x)) => result := Some(MinReal(r, x));
          case _ =>
        }
        output := output + 1;
      }
      assert response[..numOutputs] == response;
    }

    /** Next sample of a generator with one output, or the average of two. */
    method GetMono() returns (r: Outcome<real>)
      requires Valid() && numInputs == 0
      modifies this`history
      ensures Valid()
      ensures numOutputs != 1 && numOutputs != 2 ==> r == Panic && history == old(history)
      ensures numOutputs == 1 || numOutputs == 2 ==>
        history == old(history) + [[]] && r == Ok(MonoOf(OutputFrame(history)))
    {
      if numOutputs == 1 {
        var output := Tick([]);
        r := Ok(output[0]);
      } else if numOutputs == 2 {
        var output := Tick([]);
        r := Ok((output[0] + output[1]) * 0.5);
      } else {
        r := Panic;
      }
    }

    /** Next stereo sample of a generator, duplicating a single output. */
    method GetStereo() returns (r: Outcome<(real, real)>)
      requires Valid() && numInputs == 0
      modifies this`history
      ensures Valid()
      ensures numOutputs != 1 && numOutputs != 2 ==> r == Panic && history == old(history)
      ensures numOutputs == 1 || numOutputs == 2 ==>
        history == old(history) + [[]] && r == Ok(StereoOf(OutputFrame(history)))
    {
      if numOutputs == 1 {
        var output := Tick([]);
        r := Ok((output[0], output[0]));
      } else if numOutputs == 2 {
        var output := Tick([]);
        r := Ok((output[0], output[1]));
      } else {
        r := Panic;
      }
    }

    /** Filter one mono sample through a unit with one input and one output. */
    method FilterMono(x: real) returns (y: real)
      requires Valid() && numInputs == 1 && numOutputs == 1
      modifies this`history
      ensures Valid()
      ensures history == old(history) + [[x]]
      ensures y == respond(history, 0)
    {
      var output := Tick([x]);
      y := output[0];
    }

    /** Filter one stereo sample through a unit with two inputs and two outputs. */
    method FilterStereo(x: real, y: real) returns (r: (real, real))
      requires Valid() && numInputs == 2 && numOutputs == 2
      modifies this`history
      ensures Valid()
      ensures history == old(history) + [[x, y]]
      ensures r == (respond(history, 0), respond(history, 1))
    {
      var output := Tick([x, y]);
      r := (output[0], output[1]);
    }

    /** Preallocation has no observable effect on an abstract unit. */
    method Allocate()
    {
    }
  }

  /** Every input carries the unit response `1 + 0i`. */
  function ResponseSeed(n: nat): (f: SignalFrame)
    ensures |f| == n && forall i :: 0 <= i < n ==> f[i] == Response(Complex(1.0, 0.0), 0.0)
  {
    seq(n, _ => Response(Complex(1.0, 0.0), 0.0))
  }

  /** Every input carries zero latency. */
  function LatencySeed(n: nat): (f: SignalFrame)
    ensures |f| == n && forall i :: 0 <= i < n ==> f[i] == Latency(0.0)
  {
    seq(n, _ => Latency(0.0))
  }

  function MinReal(a: real, b: real): real { if a <= b then a else b }

  /** One step of the latency fold: a latency lowers the running minimum,
      anything else leaves it. */
  function MinStep(acc: Option<real>, s: Signal): Option<real>
  {
    match (acc, s)
    case (None, Latency(x)) => Some(x)
    case (Some(r), Latency(x)) => Some(MinReal(r, x))
    case _ => acc
  }

  /** The latency fold over a frame, left to right. */
  function MinLatency(frame: SignalFrame): Option<real>
  {
    if frame == [] then None else MinStep(MinLatency(frame[..|frame| - 1]), frame[|frame| - 1])
  }

  /** The fold finds the least latency of the frame, and finds none exactly
      when no channel carries a latency. */
  lemma {:induction false} MinLatencyIsMinimum(frame: SignalFrame)
    ensures MinLatency(frame).None? <==> forall k :: 0 <= k < |frame| ==> !frame[k].Latency?
    ensures MinLatency(frame).Some? ==>
      (exists k :: 0 <= k < |frame| && frame[k] == Latency(MinLatency(frame).value))
    ensures MinLatency(frame).Some? ==>
      forall k :: 0 <= k < |frame| && frame[k].Latency? ==> MinLatency(frame).value <= frame[k].samples
  {
    if frame != [] {
      var init := frame[..|frame| - 1];
      var last := frame[|frame| - 1];
      MinLatencyIsMinimum(init);
      assert forall k :: 0 <= k < |init| ==> init[k] == frame[k];
      match MinLatency(init)
      case None =>
      case Some(r) =>
        var k :| 0 <= k < |init| && init[k] == Latency(r);
        assert frame[k] == Latency(r);
    }
  }

  /** The mono sample `get_mono` returns for a frame of one or two outputs. */
  function MonoOf(frame: Frame): real
    requires |frame| == 1 || |frame| == 2
  {
    if |frame| == 1 then frame[0] else (frame[0] + frame[1]) * 0.5
  }

  /** The stereo pair `get_stereo` returns for a frame of one or two outputs. */
  function StereoOf(frame: Frame): (real, real)
    requires |frame| == 1 || |frame| == 2
  {
    if |frame| == 1 then (frame[0], frame[0]) else (frame[0], frame[1])
  }

  /** The mono pull is the average of the stereo pull, for one output as
      well as for two. */
  lemma MonoIsStereoAverage(frame: Frame)
    requires |frame| == 1 || |frame| == 2
    ensures MonoOf(frame) == (StereoOf(frame).0 + StereoOf(frame).1) * 0.5
    ensures |frame| == 2 ==> StereoOf(frame) == (frame[0], frame[1])
  {
  }

  /** A pass-through unit (every output channel routes the input channel of
      the same index) has response exactly `1 + 0i` and latency zero. */
  lemma PassThroughAnalysis(u: Unit, output: nat, frequency: real)
    requires u.numInputs == u.numOutputs && output < u.numOutputs
    requires forall f: SignalFrame, x: real, k: nat :: k < |f| ==> u.router(f, x, k) == f[k]
    ensures u.Response(output, frequency) == Some(Complex(1.0, 0.0))
    ensures MinLatency(u.Route(LatencySeed(u.numInputs), 1.0)) == Some(0.0)
  {
    var routed := u.Route(LatencySeed(u.numInputs), 1.0);
    assert routed == LatencySeed(u.numInputs);
    MinLatencyIsMinimum(routed);
    assert routed[0].Latency?;
  }
}
