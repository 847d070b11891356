/** The two block adapters around a boxed unit: the big block adapter,
    which accepts `process` calls of any size by splitting them into
    chunks of at most `MAX_BUFFER_SIZE`, and the block rate adapter, which
    pulls full blocks from a generator and hands them out at whatever
    rate the caller asks for. Caller output buffers are `array2`s indexed
    by (channel, sample). */
module BlockAdapter {
  import opened Signals
  import opened AudioUnit

  /** `dst[c, dstStart + j] := src[c][srcStart + j]` for every channel `c`
      and `j < n`; nothing else in `dst` changes. */
  method CopyBlock(src: seq<seq<real>>, srcStart: nat, dst: array2<real>, dstStart: nat, n: nat)
    requires |src| == dst.Length0
    requires forall c :: 0 <= c < |src| ==> srcStart + n <= |src[c]|
    requires dstStart + n <= dst.Length1
    modifies dst
    ensures forall c, k :: 0 <= c < dst.Length0 && 0 <= k < dst.Length1 ==>
      dst[c, k] == if dstStart <= k < dstStart + n then src[c][srcStart + k - dstStart] else old(dst[c, k])
  {
    var ch := 0;
    while ch < |src|
      invariant 0 <= ch <= |src|
      invariant forall c, k :: 0 <= c < dst.Length0 && 0 <= k < dst.Length1 ==>
        dst[c, k] == if c < ch && dstStart <= k < dstStart + n then src[c][srcStart + k - dstStart] else old(dst[c, k])
    {
      var j := 0;
      while j < n
        invariant 0 <= j <= n
        invariant forall c, k :: 0 <= c < dst.Length0 && 0 <= k < dst.Length1 ==>
          dst[c, k] ==
            if (c < ch && dstStart <= k < dstStart + n) || (c == ch && dstStart <= k < dstStart + j)
            then src[c][srcStart + k - dstStart]
            else old(dst[c, k])
      {
        dst[ch, dstStart + j] := src[ch][srcStart + j];
        j := j + 1;
      }
      ch := ch + 1;
    }
  }

  /** A vector resized to `n` samples: truncated, or padded with zeros. */
  function Resized(b: seq<real>, n: nat): (r: seq<real>)
    ensures |r| == n
    ensures forall j :: 0 <= j < n && j < |b| ==> r[j] == b[j]
    ensures forall j :: |b| <= j < n ==> r[j] == 0.0
  {
    if n <= |b| then b[..n] else b + seq(n - |b|, _ => 0.0)
  }

  /** The chunk lengths of an oversized `process(size)`: each is
      `min(remaining, MAX_BUFFER_SIZE)`. */
  function ChunkPlan(size: nat): seq<nat>
    decreases size
  {
    if size == 0 then [] else [Min(size, MAX_BUFFER_SIZE)] + ChunkPlan(size - Min(size, MAX_BUFFER_SIZE))
  }

  function Sum(s: seq<nat>): nat
  {
    if s == [] then 0 else s[0] + Sum(s[1..])
  }

  /** The chunks cover the request exactly: their lengths add up to
      `size`, each is between 1 and `MAX_BUFFER_SIZE`, every chunk but the
      last is full, and there are `ceil(size / MAX_BUFFER_SIZE)` of them. */
  lemma {:induction false} ChunkPlanCovers(size: nat)
    ensures Sum(ChunkPlan(size)) == size
    ensures forall k :: 0 <= k < |ChunkPlan(size)| ==> 1 <= ChunkPlan(size)[k] <= MAX_BUFFER_SIZE
    ensures forall k :: 0 <= k < |ChunkPlan(size)| - 1 ==> ChunkPlan(size)[k] == MAX_BUFFER_SIZE
    ensures |ChunkPlan(size)| == (size + MAX_BUFFER_SIZE - 1) / MAX_BUFFER_SIZE
    decreases size
  {
    if size > 0 {
      var n := Min(size, MAX_BUFFER_SIZE);
      ChunkPlanCovers(size - n);
      var plan := ChunkPlan(size);
      assert plan == [n] + ChunkPlan(size - n);
      assert plan[1..] == ChunkPlan(size - n);
      if size - n > 0 {
        assert n == MAX_BUFFER_SIZE;
      }
    }
  }

  /** The frames a chunk's source sees, up to its `j`-th sample, are the
      caller's frames up to sample `i + j`. */
  lemma ChunkFrames(h0: seq<Frame>, input: seq<seq<real>>, scratch: seq<seq<real>>, i: nat, n: nat, j: nat)
    requires |scratch| == |input| && j < n
    requires forall c :: 0 <= c < |input| ==> i + n <= |input[c]| && n <= |scratch[c]|
    requires forall c, jj :: 0 <= c < |input| && 0 <= jj < n ==> scratch[c][jj] == input[c][i + jj]
    ensures h0 + Frames(input, i) + Frames(scratch, n)[..j + 1] == h0 + Frames(input, i + j + 1)
  {
    FramesPrefix(scratch, n, j + 1);
    FramesShift(input, scratch, i, n, j + 1);
  }

  /** The block a chunk renders from the scratch vectors is the source's
      output for the caller's frames up to each sample. */
  lemma RenderChunk(u: Unit, h0: seq<Frame>, input: seq<seq<real>>, scratch: seq<seq<real>>, i: nat, n: nat)
    requires |scratch| == |input|
    requires forall c :: 0 <= c < |input| ==> i + n <= |input[c]| && n <= |scratch[c]|
    requires forall c, jj :: 0 <= c < |input| && 0 <= jj < n ==> scratch[c][jj] == input[c][i + jj]
    ensures forall c, j :: 0 <= c < u.numOutputs && 0 <= j < n ==>
      u.Render(h0 + Frames(input, i), Frames(scratch, n))[c][j] == u.respond(h0 + Frames(input, i + j + 1), c)
  {
    forall c, j | 0 <= c < u.numOutputs && 0 <= j < n
      ensures u.Render(h0 + Frames(input, i), Frames(scratch, n))[c][j] == u.respond(h0 + Frames(input, i + j + 1), c)
    {
      ChunkFrames(h0, input, scratch, i, n, j);
    }
  }

  /** A fresh block pulled from a generator after `d` frames of silence
      holds the generator's stream from position `d` on. */
  lemma RenderSilence(u: Unit, origin: seq<Frame>, d: nat)
    ensures forall c, k :: 0 <= c < u.numOutputs && 0 <= k < MAX_BUFFER_SIZE ==>
      u.Render(origin + Silence(d), Silence(MAX_BUFFER_SIZE))[c][k] == u.respond(origin + Silence(d + k + 1), c)
  {
    forall c, k | 0 <= c < u.numOutputs && 0 <= k < MAX_BUFFER_SIZE
      ensures u.Render(origin + Silence(d), Silence(MAX_BUFFER_SIZE))[c][k] == u.respond(origin + Silence(d + k + 1), c)
    {
      assert Silence(MAX_BUFFER_SIZE)[..k + 1] == Silence(k + 1);
      SilenceAdd(d, k + 1);
      assert origin + Silence(d) + Silence(k + 1) == origin + Silence(d + k + 1);
    }
  }

  /** Lets a caller `process` any number of samples through a unit that
      accepts at most `MAX_BUFFER_SIZE` per call. `inputBuffers` and
      `outputBuffers` are the scratch vectors, one per source channel. */
  class BigBlockAdapter {
    const source: Unit
    var inputBuffers: seq<seq<real>>
    var outputBuffers: seq<seq<real>>

    ghost predicate Valid()
      reads this, source
    {
      source.Valid() && |inputBuffers| == source.numInputs && |outputBuffers| == source.numOutputs
    }

    /** Every scratch vector holds a full block. */
    predicate ScratchReady()
      reads this
    {
      (forall c :: 0 <= c < |inputBuffers| ==> |inputBuffers[c]| == MAX_BUFFER_SIZE) &&
      (forall c :: 0 <= c < |outputBuffers| ==> |outputBuffers[c]| == MAX_BUFFER_SIZE)
    }

    constructor (source: Unit)
      requires source.Valid()
      ensures Valid() && this.source == source
      ensures inputBuffers == seq(source.numInputs, _ => [])
      ensures outputBuffers == seq(source.numOutputs, _ => [])
    {
      this.source := source;
      inputBuffers := seq(source.numInputs, _ => []);
      outputBuffers := seq(source.numOutputs, _ => []);
    }

    function Inputs(): (n: nat)
      reads this
      ensures n == source.numInputs
    {
      source.numInputs
    }

    function Outputs(): (n: nat)
      reads this
      ensures n == source.numOutputs
    {
      source.numOutputs
    }

    /** Resize every scratch vector to `MAX_BUFFER_SIZE`. */
    method ResizeScratch()
      requires Valid()
      modifies this`inputBuffers, this`outputBuffers
      ensures Valid() && ScratchReady()
      ensures |inputBuffers| == |old(inputBuffers)| && |outputBuffers| == |old(outputBuffers)|
      ensures forall c :: 0 <= c < |inputBuffers| ==> inputBuffers[c] == Resized(old(inputBuffers[c]), MAX_BUFFER_SIZE)
      ensures forall c :: 0 <= c < |outputBuffers| ==> outputBuffers[c] == Resized(old(outputBuffers[c]), MAX_BUFFER_SIZE)
    {
      var c := 0;
      while c < |inputBuffers|
        invariant 0 <= c <= |inputBuffers| && |inputBuffers| == |old(inputBuffers)|
        invariant forall d :: 0 <= d < |inputBuffers| ==>
          inputBuffers[d] == if d < c then Resized(old(inputBuffers[d]), MAX_BUFFER_SIZE) else old(inputBuffers[d])
        invariant outputBuffers == old(outputBuffers)
      {
        inputBuffers := inputBuffers[c := Resized(inputBuffers[c], MAX_BUFFER_SIZE)];
        c := c + 1;
      }
      c := 0;
      while c < |outputBuffers|
        invariant 0 <= c <= |outputBuffers| && |outputBuffers| == |old(outputBuffers)|
        invariant forall d :: 0 <= d < |outputBuffers| ==>
          outputBuffers[d] == if d < c then Resized(old(outputBuffers[d]), MAX_BUFFER_SIZE) else old(outputBuffers[d])
        invariant |inputBuffers| == |old(inputBuffers)|
        invariant forall d :: 0 <= d < |inputBuffers| ==> inputBuffers[d] == Resized(old(inputBuffers[d]), MAX_BUFFER_SIZE)
      {
        outputBuffers := outputBuffers[c := Resized(outputBuffers[c], MAX_BUFFER_SIZE)];
        c := c + 1;
      }
    }

    /** Copy samples `i .. i+n` of every input channel to the front of its
        scratch vector. */
    method LoadChunk(input: seq<seq<real>>, i: nat, n: nat)
      requires |input| == |inputBuffers| && n <= MAX_BUFFER_SIZE
      requires forall c :: 0 <= c < |input| ==> i + n <= |input[c]|
      requires forall c :: 0 <= c < |inputBuffers| ==> |inputBuffers[c]| == MAX_BUFFER_SIZE
      modifies this`inputBuffers
      ensures |inputBuffers| == |old(inputBuffers)|
      ensures forall c :: 0 <= c < |inputBuffers| ==> |inputBuffers[c]| == MAX_BUFFER_SIZE
      ensures forall c, j :: 0 <= c < |inputBuffers| && 0 <= j < n ==> inputBuffers[c][j] == input[c][i + j]
      ensures forall c, j :: 0 <= c < |inputBuffers| && n <= j < MAX_BUFFER_SIZE ==> inputBuffers[c][j] == old(inputBuffers[c][j])
    {
      var ch := 0;
      while ch < |inputBuffers|
        invariant 0 <= ch <= |inputBuffers| && |inputBuffers| == |old(inputBuffers)|
        invariant forall c :: 0 <= c < |inputBuffers| ==> |inputBuffers[c]| == MAX_BUFFER_SIZE
        invariant forall c, j :: 0 <= c < ch && 0 <= j < n ==> inputBuffers[c][j] == input[c][i + j]
        invariant forall c, j :: 0 <= c < |inputBuffers| && n <= j < MAX_BUFFER_SIZE ==> inputBuffers[c][j] == old(inputBuffers[c][j])
      {
        var j := 0;
        while j < n
          invariant 0 <= j <= n
          invariant |inputBuffers| == |old(inputBuffers)|
          invariant forall c :: 0 <= c < |inputBuffers| ==> |inputBuffers[c]| == MAX_BUFFER_SIZE
          invariant forall c, jj :: 0 <= c < ch && 0 <= jj < n ==> inputBuffers[c][jj] == input[c][i + jj]
          invariant forall jj :: 0 <= jj < j ==> inputBuffers[ch][jj] == input[ch][i + jj]
          invariant forall c, jj :: 0 <= c < |inputBuffers| && n <= jj < MAX_BUFFER_SIZE ==> inputBuffers[c][jj] == old(inputBuffers[c][jj])
        {
          inputBuffers := inputBuffers[ch := inputBuffers[ch][j := input[ch][i + j]]];
          j := j + 1;
        }
        ch := ch + 1;
      }
    }

    /** Process `size` samples of any size. Up to `MAX_BUFFER_SIZE` the call
        goes straight to the source; beyond it the request is split into
        the chunks of `ChunkPlan(size)`, each passed through the scratch
        vectors. Either way the output is the source's own output for the
        same input frames, and the source has consumed exactly those frames. */
    method Process(size: nat, input: seq<seq<real>>, output: array2<real>) returns (ghost chunks: seq<nat>)
      requires Valid()
      requires |input| == source.numInputs && forall c :: 0 <= c < |input| ==> size <= |input[c]|
      requires output.Length0 == source.numOutputs && size <= output.Length1
      modifies this`inputBuffers, this`outputBuffers, source`history, output
      ensures Valid()
      ensures source.history == old(source.history) + Frames(input, size)
      ensures forall c, k :: 0 <= c < output.Length0 && 0 <= k < size ==>
        output[c, k] == source.respond(old(source.history) + Frames(input, k + 1), c)
      ensures forall c, k :: 0 <= c < output.Length0 && size <= k < output.Length1 ==>
        output[c, k] == old(output[c, k])
      ensures size > MAX_BUFFER_SIZE ==> ScratchReady() && chunks == ChunkPlan(size)
      ensures size <= MAX_BUFFER_SIZE ==>
        chunks == [size] && inputBuffers == old(inputBuffers) && outputBuffers == old(outputBuffers)
    {
      if size > MAX_BUFFER_SIZE {
        chunks := ProcessChunked(size, input, output);
      } else {
        ProcessDirect(size, input, output);
        chunks := [size];
      }
    }

    /** The oversized branch of `Process`: resize the scratch vectors, then
        pass the request through them chunk by chunk. */
    method ProcessChunked(size: nat, input: seq<seq<real>>, output: array2<real>) returns (ghost chunks: seq<nat>)
      requires Valid()
      requires |input| == source.numInputs && forall c :: 0 <= c < |input| ==> size <= |input[c]|
      requires output.Length0 == source.numOutputs && size <= output.Length1
      modifies this`inputBuffers, this`outputBuffers, source`history, output
      ensures Valid() && ScratchReady() && chunks == ChunkPlan(size)
      ensures source.history == old(source.history) + Frames(input, size)
      ensures forall c, k :: 0 <= c < output.Length0 && 0 <= k < size ==>
        output[c, k] == source.respond(old(source.history) + Frames(input, k + 1), c)
      ensures forall c, k :: 0 <= c < output.Length0 && size <= k < output.Length1 ==>
        output[c, k] == old(output[c, k])
    {
      ghost var h0 := source.history;
      ResizeScratch();
      var i := 0;
      chunks := [];
      while i < size
        invariant 0 <= i <= size
        invariant Valid() && ScratchReady()
        invariant source.history == h0 + Frames(input, i)
        invariant forall c, k :: 0 <= c < output.Length0 && 0 <= k < i ==>
          output[c, k] == source.respond(h0 + Frames(input, k + 1), c)
        invariant forall c, k :: 0 <= c < output.Length0 && i <= k < output.Length1 ==>
          output[c, k] == old(output[c, k])
        invariant chunks + ChunkPlan(size - i) == ChunkPlan(size)
        decreases size - i
      {
        var n := Min(size - i, MAX_BUFFER_SIZE);
        ProcessChunk(input, i, n, output, h0);
        assert ChunkPlan(size - i) == [n] + ChunkPlan(size - (i + n));
        chunks := chunks + [n];
        i := i + n;
      }
    }

    /** The small branch of `Process`: the call goes straight to the source. */
    method ProcessDirect(size: nat, input: seq<seq<real>>, output: array2<real>)
      requires Valid() && size <= MAX_BUFFER_SIZE
      requires |input| == source.numInputs && forall c :: 0 <= c < |input| ==> size <= |input[c]|
      requires output.Length0 == source.numOutputs && size <= output.Length1
      modifies source`history, output
      ensures Valid()
      ensures source.history == old(source.history) + Frames(input, size)
      ensures forall c, k :: 0 <= c < output.Length0 && 0 <= k < size ==>
        output[c, k] == source.respond(old(source.history) + Frames(input, k + 1), c)
      ensures forall c, k :: 0 <= c < output.Length0 && size <= k < output.Length1 ==>
        output[c, k] == old(output[c, k])
    {
      var block := source.Process(size, input);
      CopyBlock(block, 0, output, 0, size);
      forall k | 0 <= k < size {
        FramesPrefix(input, size, k + 1);
      }
    }

    /** One chunk of an oversized `process`: samples `i .. i+n` go through
        the scratch vectors to the source and back to `output`. */
    method ProcessChunk(input: seq<seq<real>>, i: nat, n: nat, output: array2<real>, ghost h0: seq<Frame>)
      requires Valid() && ScratchReady() && n <= MAX_BUFFER_SIZE
      requires |input| == source.numInputs && forall c :: 0 <= c < |input| ==> i + n <= |input[c]|
      requires output.Length0 == source.numOutputs && i + n <= output.Length1
      requires source.history == h0 + Frames(input, i)
      modifies this`inputBuffers, this`outputBuffers, source`history, output
      ensures Valid() && ScratchReady()
      ensures source.history == h0 + Frames(input, i + n)
      ensures forall c, k :: 0 <= c < output.Length0 && 0 <= k < output.Length1 ==>
        output[c, k] == if i <= k < i + n then source.respond(h0 + Frames(input, k + 1), c) else old(output[c, k])
    {
      RenderChunkToScratch(input, i, n, h0);
      CopyBlock(outputBuffers, 0, output, i, n);
    }

    /** The first half of a chunk: load it into the input scratch vectors,
        let the source process it and keep the block in the output scratch
        vectors. */
    method RenderChunkToScratch(input: seq<seq<real>>, i: nat, n: nat, ghost h0: seq<Frame>)
      requires Valid() && ScratchReady() && n <= MAX_BUFFER_SIZE
      requires |input| == source.numInputs && forall c :: 0 <= c < |input| ==> i + n <= |input[c]|
      requires source.history == h0 + Frames(input, i)
      modifies this`inputBuffers, this`outputBuffers, source`history
      ensures Valid() && ScratchReady()
      ensures source.history == h0 + Frames(input, i + n)
      ensures forall c, j :: 0 <= c < |outputBuffers| && 0 <= j < n ==>
        outputBuffers[c][j] == source.respond(h0 + Frames(input, i + j + 1), c)
    {
      LoadChunk(input, i, n);
      ghost var scratchIn := inputBuffers;
      var block := source.Process(n, inputBuffers);
      RenderChunk(source, h0, input, scratchIn, i, n);
      StoreBlock(block, n);
      FramesShift(input, scratchIn, i, n, n);
    }

    /** Put a freshly rendered chunk at the front of the output scratch vectors. */
    method StoreBlock(block: seq<seq<real>>, n: nat)
      requires |block| == |outputBuffers| && n <= MAX_BUFFER_SIZE
      requires forall c :: 0 <= c < |block| ==> |block[c]| == n
      requires forall c :: 0 <= c < |outputBuffers| ==> |outputBuffers[c]| == MAX_BUFFER_SIZE
      modifies this`outputBuffers
      ensures |outputBuffers| == |block|
      ensures forall c :: 0 <= c < |outputBuffers| ==> |outputBuffers[c]| == MAX_BUFFER_SIZE
      ensures forall c, j :: 0 <= c < |block| && 0 <= j < n ==> outputBuffers[c][j] == block[c][j]
      ensures forall c, j :: 0 <= c < |block| && n <= j < MAX_BUFFER_SIZE ==> outputBuffers[c][j] == old(outputBuffers[c][j])
    {
      var scratch := outputBuffers;
      outputBuffers := seq(|scratch|, c requires 0 <= c < |scratch| => block[c] + scratch[c][n..]);
    }

    /** Size every scratch vector for a full block ahead of real-time use. */
    method Allocate()
      requires Valid()
      modifies this`inputBuffers, this`outputBuffers
      ensures Valid() && ScratchReady()
      ensures forall c :: 0 <= c < |inputBuffers| ==> inputBuffers[c] == Resized(old(inputBuffers[c]), MAX_BUFFER_SIZE)
      ensures forall c :: 0 <= c < |outputBuffers| ==> outputBuffers[c] == Resized(old(outputBuffers[c]), MAX_BUFFER_SIZE)
    {
      ResizeScratch();
      source.Allocate();
    }
  }

  /** Turns a generator (a unit without inputs) into a producer of full
      blocks: `buffer` holds the current block of `channels` channels and
      `index` is the next unread position; `index == MAX_BUFFER_SIZE` means
      the block is used up. `origin` and `delivered` are the generator's
      history when the adapter was created or reset and every frame the
      adapter has handed out since. */
  class BlockRateAdapter {
    const unit: Unit
    const channels: nat
    var buffer: seq<seq<real>>
    var index: nat
    ghost var origin: seq<Frame>
    ghost var delivered: seq<Frame>

    /** Channel `c` of the generator's output at position `p` after `origin`. */
    ghost function StreamAt(p: nat, c: nat): real
      reads this
    {
      unit.respond(origin + Silence(p + 1), c)
    }

    ghost predicate Valid()
      reads this, unit
    {
      && unit.Valid() && unit.numInputs == 0 && channels == unit.numOutputs
      && index <= MAX_BUFFER_SIZE
      && unit.history == origin + Silence(|delivered| + MAX_BUFFER_SIZE - index)
      && (forall k :: 0 <= k < |delivered| ==> delivered[k] == unit.OutputFrame(origin + Silence(k + 1)))
      && (index < MAX_BUFFER_SIZE ==>
            && index <= |delivered|
            && |buffer| == channels
            && (forall c :: 0 <= c < channels ==> |buffer[c]| == MAX_BUFFER_SIZE)
            && (forall c, k :: 0 <= c < channels && 0 <= k < MAX_BUFFER_SIZE ==>
                  buffer[c][k] == StreamAt(|delivered| - index + k, c)))
    }

    constructor (unit: Unit)
      requires unit.Valid() && unit.numInputs == 0
      ensures Valid() && this.unit == unit && channels == unit.numOutputs
      ensures index == MAX_BUFFER_SIZE && buffer == []
      ensures origin == unit.history && delivered == []
    {
      this.unit := unit;
      channels := unit.numOutputs;
      buffer := [];
      index := MAX_BUFFER_SIZE;
      origin := unit.history;
      delivered := [];
    }

    function Inputs(): (n: nat)
      ensures n == 0
    {
      0
    }

    function Outputs(): (n: nat)
      ensures n == channels
    {
      channels
    }

    /** Pull the next block when the current one is used up. */
    method Refill()
      requires Valid() && index == MAX_BUFFER_SIZE
      modifies this`buffer, this`index, unit`history
      ensures Valid() && index == 0
      ensures unit.history == old(unit.history) + Silence(MAX_BUFFER_SIZE)
    {
      ghost var h := unit.history;
      FramesOfNoChannels([], MAX_BUFFER_SIZE);
      buffer := unit.Process(MAX_BUFFER_SIZE, []);
      index := 0;
      assert buffer == unit.Render(origin + Silence(|delivered|), Silence(MAX_BUFFER_SIZE));
      RenderSilence(unit, origin, |delivered|);
      SilenceAdd(|delivered|, MAX_BUFFER_SIZE);
      assert unit.history == origin + Silence(|delivered| + MAX_BUFFER_SIZE);
    }

    /** Hand out the next frame, refilling only when the block is used up. */
    method Tick(input: Frame) returns (output: Frame)
      requires Valid()
      modifies this`buffer, this`index, this`delivered, unit`history
      ensures Valid()
      ensures delivered == old(delivered) + [output]
      ensures output == unit.OutputFrame(origin + Silence(|old(delivered)| + 1))
      ensures old(index) == MAX_BUFFER_SIZE ==>
        unit.history == old(unit.history) + Silence(MAX_BUFFER_SIZE) && index == 1
      ensures old(index) < MAX_BUFFER_SIZE ==>
        unit.history == old(unit.history) && buffer == old(buffer) && index == old(index) + 1
    {
      if index == MAX_BUFFER_SIZE {
        Refill();
      }
      output := Take();
    }

    /** Read the frame at the cursor of a block in use and advance. */
    method Take() returns (output: Frame)
      requires Valid() && index < MAX_BUFFER_SIZE
      modifies this`index, this`delivered
      ensures Valid() && index == old(index) + 1
      ensures delivered == old(delivered) + [output]
      ensures output == unit.OutputFrame(origin + Silence(|old(delivered)| + 1))
    {
      var block, at := buffer, index;
      output := seq(channels, c requires 0 <= c < channels => block[c][at]);
      ghost var sent := |delivered|;
      assert output == unit.OutputFrame(origin + Silence(sent + 1)) by {
        forall c | 0 <= c < channels
          ensures output[c] == StreamAt(sent - at + at, c)
        {
        }
      }
      index := index + 1;
      delivered := delivered + [output];
    }

    /** Hand out the next `size` frames into `output`, in steps of
        `min(size - i, MAX_BUFFER_SIZE - index)`, refilling only when the
        block is used up. What the caller receives is the continuation of
        the generator's stream, however the calls are sized. */
    method Process(size: nat, input: seq<seq<real>>, output: array2<real>)
      requires Valid()
      requires |input| == 0 && output.Length0 == channels && size <= output.Length1
      modifies this`buffer, this`index, this`delivered, unit`history, output
      ensures Valid()
      ensures |delivered| == |old(delivered)| + size && delivered[..|old(delivered)|] == old(delivered)
      ensures forall c, k :: 0 <= c < channels && 0 <= k < size ==>
        output[c, k] == StreamAt(|old(delivered)| + k, c)
      ensures forall c, k :: 0 <= c < channels && size <= k < output.Length1 ==>
        output[c, k] == old(output[c, k])
    {
      var i := 0;
      while i < size
        invariant 0 <= i <= size
        invariant Valid()
        invariant |delivered| == |old(delivered)| + i && delivered[..|old(delivered)|] == old(delivered)
        invariant forall c, k :: 0 <= c < channels && 0 <= k < i ==>
          output[c, k] == StreamAt(|old(delivered)| + k, c)
        invariant forall c, k :: 0 <= c < channels && i <= k < output.Length1 ==>
          output[c, k] == old(output[c, k])
        decreases size - i
      {
        if index == MAX_BUFFER_SIZE {
          FramesOfNoChannels(input, MAX_BUFFER_SIZE);
          Refill();
        }
        var n := Min(size - i, MAX_BUFFER_SIZE - index);
        Serve(n, output, i);
        i := i + n;
      }
    }

    /** Copy the next `n` unread samples of the block to positions
        `i .. i+n` of `output` and advance the cursor past them. */
    method Serve(n: nat, output: array2<real>, i: nat)
      requires Valid() && index + n <= MAX_BUFFER_SIZE
      requires output.Length0 == channels && i + n <= output.Length1
      requires 0 < n
      modifies this`index, this`delivered, output
      ensures Valid() && index == old(index) + n
      ensures |delivered| == |old(delivered)| + n && delivered[..|old(delivered)|] == old(delivered)
      ensures forall c, k :: 0 <= c < channels && 0 <= k < output.Length1 ==>
        output[c, k] == if i <= k < i + n then StreamAt(|old(delivered)| + k - i, c) else old(output[c, k])
    {
      CopyBlock(buffer, index, output, i, n);
      Advance(n);
    }

    /** Move the cursor past `n` unread samples, recording the frames they
        hand out (which `Valid` pins down as the generator's stream). */
    method Advance(n: nat)
      requires Valid() && index + n <= MAX_BUFFER_SIZE && 0 < n
      modifies this`index, this`delivered
      ensures Valid() && index == old(index) + n
      ensures |delivered| == |old(delivered)| + n && delivered[..|old(delivered)|] == old(delivered)
    {
      ghost var start, sent := origin, |delivered|;
      delivered := delivered + seq(n, k requires 0 <= k < n => unit.OutputFrame(start + Silence(sent + k + 1)));
      index := index + n;
    }

    /** Reset the generator and mark the block as used up. */
    method Reset()
      requires Valid()
      modifies this`index, this`origin, this`delivered, unit`history
      ensures Valid() && index == MAX_BUFFER_SIZE
      ensures unit.history == [] && origin == [] && delivered == []
    {
      unit.Reset();
      index := MAX_BUFFER_SIZE;
      origin := [];
      delivered := [];
    }

    method SetSampleRate(sampleRate: real)
      requires Valid()
      modifies unit`sampleRate
      ensures Valid() && unit.sampleRate == sampleRate
    {
      unit.SetSampleRate(sampleRate);
    }

    /** Size the block buffer for `channels` channels; a block in use is kept. */
    method Allocate()
      requires Valid()
      modifies this`buffer
      ensures Valid() && |buffer| == channels
      ensures forall c :: 0 <= c < channels ==> |buffer[c]| == MAX_BUFFER_SIZE
      ensures index < MAX_BUFFER_SIZE ==> buffer == old(buffer)
    {
      if !(|buffer| == channels && forall c :: 0 <= c < channels ==> |buffer[c]| == MAX_BUFFER_SIZE) {
        buffer := seq(channels, _ => seq(MAX_BUFFER_SIZE, _ => 0.0));
      }
      unit.Allocate();
    }
  }
}
