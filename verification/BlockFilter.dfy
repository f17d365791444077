/** The software filter: a buffer of the last 80 samples, shifted by 16 for every symbol, and a direct-form
    filter over it. It computes the same convolution as the pipelined filter. */
module BlockFilter {
  import opened FirDatapath

  const BLOCK := 16
  const BUFFER := 80

  // ----- the sliding window -----

  /** The buffer holds the last 80 of the first t samples, with zeros before the start. */
  ghost predicate Window(buffer: seq<int>, xs: seq<int>, t: nat) {
    |buffer| == BUFFER && forall i :: 0 <= i < BUFFER ==> buffer[i] == At(xs, t - BUFFER + i)
  }

  /** Move the buffer down by 16 places and put the next 16 samples at its end, in place. */
  method ShiftIn(buffer: array<int>, signal: seq<int>, base: nat)
    requires buffer.Length == BUFFER && base + BLOCK <= |signal|
    modifies buffer
    ensures buffer[..] == old(buffer[..])[BLOCK..] + signal[base..base+BLOCK]
  {
    ghost var was := buffer[..];
    ghost var moved := was[BLOCK..] + signal[base..base+BLOCK];
    var i := 0;
    while i < BLOCK
      invariant i <= BLOCK
      invariant forall j :: 0 <= j < BUFFER ==> buffer[j] == if j % 16 < i then moved[j] else was[j]
    {
      buffer[i] := buffer[i+16];
      buffer[i+16] := buffer[i+32];
      buffer[i+32] := buffer[i+48];
      buffer[i+48] := buffer[i+64];
      buffer[i+64] := signal[base+i];
      i := i + 1;
    }
    assert buffer[..] == moved;
  }

  lemma WindowSlides(buffer: seq<int>, xs: seq<int>, t: nat)
    requires Window(buffer, xs, t) && t + BLOCK <= |xs|
    ensures Window(buffer[BLOCK..] + xs[t..t+BLOCK], xs, t + BLOCK)
  {
    var b := buffer[BLOCK..] + xs[t..t+BLOCK];
    forall i | 0 <= i < BUFFER ensures b[i] == At(xs, t + BLOCK - BUFFER + i) {
      if i < BUFFER - BLOCK { assert b[i] == buffer[i+BLOCK]; }
    }
  }

  // ----- the direct form -----

  /** The first n products of the filter for the i-th result. */
  function Direct(filter: seq<int>, data: seq<int>, i: nat, n: nat): int
    requires n <= |filter| && i + |filter| < |data|
  {
    if n == 0 then 0 else Direct(filter, data, i, n - 1) + filter[n-1] * data[i + |filter| - (n - 1)]
  }

  /** The direct-form filter over a block. */
  method ParallelFir(filter: seq<int>, data: array<int>, dataSize: nat, result: array<int>)
    requires dataSize <= result.Length && dataSize + |filter| <= data.Length && result != data
    modifies result
    ensures forall i :: 0 <= i < dataSize ==> result[i] == Direct(filter, data[..], i, |filter|)
    ensures forall i :: dataSize <= i < result.Length ==> result[i] == old(result[i])
  {
    var i := 0;
    while i < dataSize
      invariant i <= dataSize
      invariant forall k :: 0 <= k < i ==> result[k] == Direct(filter, data[..], k, |filter|)
      invariant forall k :: i <= k < result.Length ==> result[k] == old(result[k])
    {
      result[i] := 0;
      var j := 0;
      while j < |filter|
        invariant j <= |filter| && result[i] == Direct(filter, data[..], i, j)
        invariant forall k :: 0 <= k < i ==> result[k] == Direct(filter, data[..], k, |filter|)
        invariant forall k :: i < k < result.Length ==> result[k] == old(result[k])
      {
        var dataIndex := i + |filter| - j;
        result[i] := result[i] + filter[j] * data[dataIndex];
        j := j + 1;
      }
      i := i + 1;
    }
  }

  lemma {:induction false} DirectIsConvolution(filter: seq<int>, buffer: seq<int>, xs: seq<int>, t: nat, i: nat, n: nat)
    requires Window(buffer, xs, t) && n <= |filter| && i + |filter| < BUFFER
    ensures Direct(filter, buffer, i, n) == Convolution(filter, xs, t - BUFFER + i + |filter|, n)
    decreases n
  {
    if n > 0 { DirectIsConvolution(filter, buffer, xs, t, i, n - 1); }
  }

  /** Filter all complete symbols of a signal, one block after the other. */
  method FilterSymbols(filter: seq<int>, signal: seq<int>, symbols: nat) returns (filtered: seq<int>)
    requires |filter| == BUFFER - BLOCK && symbols * BLOCK <= |signal|
    ensures |filtered| == symbols * BLOCK
    ensures forall k :: 0 <= k < |filtered| ==> filtered[k] == Convolution(filter, signal, k, |filter|)
  {
    var buffer, result := new int[BUFFER](_ => 0), new int[BLOCK](_ => 0);
    filtered := [];
    var iSymbol := 0;
    while iSymbol < symbols
      invariant iSymbol <= symbols && |filtered| == iSymbol * BLOCK
      invariant Window(buffer[..], signal, iSymbol * BLOCK)
      invariant forall k :: 0 <= k < |filtered| ==> filtered[k] == Convolution(filter, signal, k, |filter|)
    {
      var base := iSymbol * BLOCK;
      WindowSlides(buffer[..], signal, base);
      ShiftIn(buffer, signal, base);
      ParallelFir(filter, buffer, BLOCK, result);
      forall i | 0 <= i < BLOCK ensures result[i] == Convolution(filter, signal, base + i, |filter|) {
        DirectIsConvolution(filter, buffer[..], signal, base + BLOCK, i, |filter|);
      }
      filtered := filtered + result[..];
      iSymbol := iSymbol + 1;
    }
  }

  /** Block by block or sample by sample: what the software computes for sample k is what the pipelined
      filter shows after the activation on sample k + levels + 2. */
  lemma BlockIsStream(filter: seq<int>, buffer: seq<int>, states: seq<FirState>, xs: seq<int>, symbol: nat, i: nat)
    requires |filter| == BUFFER - BLOCK && FirRun(filter, states, xs) && i < BLOCK
    requires Window(buffer, xs, (symbol + 1) * BLOCK)
    requires symbol * BLOCK + i + LevelNumber(|filter|) + 2 < |xs|
    ensures Direct(filter, buffer, i, |filter|) == states[symbol * BLOCK + i + LevelNumber(|filter|) + 3].y
  {
    DirectIsConvolution(filter, buffer, xs, (symbol + 1) * BLOCK, i, |filter|);
    FirIsConvolution(filter, states, xs, symbol * BLOCK + i + LevelNumber(|filter|) + 2);
  }
}
