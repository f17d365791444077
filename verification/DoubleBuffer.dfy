/** The hand-off of sample blocks in the W-CDMA receiver: two filters fill one of two buffers while a third
    processor decodes the other, coordinated by four locks. Each access to a lock, a shared pointer or a
    buffer is a step of its own. */
module DoubleBuffer {
  import opened DramTypes

  /** Where a filter processor is in its round: reading its lock, setting it, loading the two shared pointers,
      writing samples, and releasing the decoder. */
  datatype FilterPlace = Waiting | Setting | Loading | LoadingOld | Writing | Signalling
  {
    /** It has taken the round's permission. */
    predicate Started() { Loading? || LoadingOld? || Writing? || Signalling? }
  }

  /** A filter: its place, finished symbols, and its own copies of the pointers. */
  datatype Filter = Filter(place: FilterPlace, symbols: nat, signal: nat, signalOld: nat)

  /** Where the decoder is: taking the two results, switching the buffers, releasing the filters, decoding. */
  datatype DecoderPlace = WaitingFor(i: nat) | Taking(i: nat) | KeepingOld | Switching | Releasing(i: nat) | Decoding

  /** go[i] and ready[i] are filter i's locks, true when set; blocks[i][b] is the symbol whose samples filter i
      last completed in buffer b, None while it is being overwritten. */
  datatype State = State(filters: seq<Filter>, go: seq<bool>, ready: seq<bool>,
                         decoder: DecoderPlace, symbols: nat, currentBuffer: nat,
                         inputSignal: nat, inputSignalOld: nat,
                         blocks: seq<seq<Option<nat>>>, decoded: seq<(Option<nat>, Option<nat>)>)

  /** The situation once the buffers are cleared: both filters may start. */
  ghost predicate Initial(s: State) {
    && |s.filters| == 2 && (forall i :: 0 <= i < 2 ==> s.filters[i].place.Waiting? && s.filters[i].symbols == 0)
    && s.go == [false, false] && s.ready == [true, true] && s.decoder == WaitingFor(0) && s.symbols == 0
    && s.currentBuffer == 0 && s.inputSignal == 0 && s.inputSignalOld == 1
    && |s.blocks| == 2 && |s.blocks[0]| == |s.blocks[1]| == 2 && s.decoded == []
  }

  ghost predicate Shape(s: State) {
    && |s.filters| == |s.go| == |s.ready| == |s.blocks| == 2 && |s.blocks[0]| == |s.blocks[1]| == 2
    && s.currentBuffer < 2 && s.inputSignal < 2 && s.inputSignalOld < 2
    && (s.decoder.WaitingFor? || s.decoder.Taking? || s.decoder.Releasing? ==> s.decoder.i < 2)
  }

  // ----- steps -----

  ghost predicate FilterStep(n: nat, s: State, i: nat, s': State)
    requires Shape(s) && i < 2
  {
    var f := s.filters[i];
    match f.place
    case Waiting => f.symbols < n && !s.go[i] && s' == s.(filters := s.filters[i := f.(place := Setting)])
    case Setting => s' == s.(filters := s.filters[i := f.(place := Loading)], go := s.go[i := true])
    case Loading => s' == s.(filters := s.filters[i := f.(place := LoadingOld, signal := s.inputSignal)])
    case LoadingOld => s' == s.(filters := s.filters[i := f.(place := Writing, signalOld := s.inputSignalOld)])
    case Writing =>
      && f.signal < 2
      && (|| s' == s.(blocks := s.blocks[i := s.blocks[i][f.signal := None]])
          || s' == s.(blocks := s.blocks[i := s.blocks[i][f.signal := Some(f.symbols)]],
                      filters := s.filters[i := f.(place := Signalling)]))
    case Signalling =>
      s' == s.(ready := s.ready[i := false], filters := s.filters[i := f.(place := Waiting, symbols := f.symbols + 1)])
  }

  ghost predicate DecoderStep(n: nat, s: State, s': State)
    requires Shape(s)
  {
    match s.decoder
    case WaitingFor(i) => s.symbols < n && !s.ready[i] && s' == s.(decoder := Taking(i))
    case Taking(i) => s' == s.(ready := s.ready[i := true], decoder := if i == 0 then WaitingFor(1) else KeepingOld)
    case KeepingOld => s' == s.(inputSignalOld := s.inputSignal, decoder := Switching)
    case Switching =>
      var b := (s.currentBuffer + 1) % 2;
      s' == s.(currentBuffer := b, inputSignal := b, decoder := Releasing(0))
    case Releasing(i) => s' == s.(go := s.go[i := false], decoder := if i == 0 then Releasing(1) else Decoding)
    case Decoding =>
      s' == s.(decoded := s.decoded + [(s.blocks[0][s.inputSignalOld], s.blocks[1][s.inputSignalOld])],
               symbols := s.symbols + 1, decoder := WaitingFor(0))
  }

  /** Any processor may take the next step. */
  ghost predicate Step(n: nat, s: State, s': State)
    requires Shape(s)
  {
    FilterStep(n, s, 0, s') || FilterStep(n, s, 1, s') || DecoderStep(n, s, s')
  }

  // ----- the invariant -----

  /** How many results of filter i the decoder has taken. */
  function Taken(d: DecoderPlace, symbols: nat, i: nat): nat {
    symbols + match d
              case WaitingFor(j) => if i < j then 1 else 0
              case Taking(j) => if i < j then 1 else 0
              case _ => 1
  }

  /** How many permissions the decoder has given filter i, the first at the start. */
  function Given(d: DecoderPlace, symbols: nat, i: nat): nat {
    1 + symbols + match d
                  case Releasing(j) => if i < j then 1 else 0
                  case Decoding => 1
                  case _ => 0
  }

  /** How often the buffers have been switched. */
  function Switches(d: DecoderPlace, symbols: nat): nat { symbols + if d.Releasing? || d.Decoding? then 1 else 0 }

  /** Permissions filter i has taken, and blocks it has completed. */
  function Begun(f: Filter): nat { f.symbols + if f.place.Started() then 1 else 0 }

  function Written(f: Filter): nat { f.symbols + if f.place.Signalling? then 1 else 0 }

  /** One filter with its locks and blocks, given the counts of permissions given and results taken. */
  ghost predicate Tuned(f: Filter, go: bool, ready: bool, blocks: seq<Option<nat>>, given: nat, taken: nat)
    requires |blocks| == 2
  {
    && Begun(f) <= given <= Begun(f) + 1 && (!go <==> given == Begun(f) + 1)
    && taken <= f.symbols <= taken + 1 && (!ready <==> f.symbols == taken + 1)
    && (f.place.Setting? ==> !go)
    && (f.place.LoadingOld? || f.place.Writing? || f.place.Signalling? ==> f.signal == f.symbols % 2)
    && (Written(f) >= 1 ==> blocks[(Written(f) - 1) % 2] == Some(Written(f) - 1))
    && (Written(f) >= 2 && !f.place.Writing? ==> blocks[(Written(f) - 2) % 2] == Some(Written(f) - 2))
  }

  ghost predicate FilterOk(s: State, i: nat)
    requires Shape(s) && i < 2
  {
    Tuned(s.filters[i], s.go[i], s.ready[i], s.blocks[i], Given(s.decoder, s.symbols, i), Taken(s.decoder, s.symbols, i)) && (s.decoder == Taking(i) ==> !s.ready[i])
  }

  ghost predicate Inv(s: State) {
    && Shape(s) && FilterOk(s, 0) && FilterOk(s, 1)
    && s.inputSignal == s.currentBuffer == Switches(s.decoder, s.symbols) % 2
    && (s.decoder.Switching? || s.decoder.Releasing? || s.decoder.Decoding? ==> s.inputSignalOld == s.symbols % 2)
    && |s.decoded| == s.symbols
    && forall k :: 0 <= k < |s.decoded| ==> s.decoded[k] == (Some(k), Some(k))
  }

  lemma InitialInv(s: State)
    requires Initial(s)
    ensures Inv(s)
  {}

  /** A filter at work is always on the symbol, and so in the buffer, after the one being decoded. */
  lemma WhereFiltersAre(s: State, i: nat)
    requires Inv(s) && i < 2
    ensures s.filters[i].place.Started() ==> s.filters[i].symbols == Switches(s.decoder, s.symbols)
    ensures s.decoder.KeepingOld? || s.decoder.Switching? ==> !s.filters[i].place.Started()
    ensures s.decoder.Decoding? ==> s.symbols + 1 <= s.filters[i].symbols && Written(s.filters[i]) <= s.symbols + 2
  {}

  /** A filter's own step. */
  ghost predicate Moves(f: Filter, go: bool, ready: bool, blocks: seq<Option<nat>>, inputSignal: nat,
                        f': Filter, go': bool, ready': bool, blocks': seq<Option<nat>>)
  {
    match f.place
    case Waiting => f' == f.(place := Setting) && !go && go' == go && ready' == ready && blocks' == blocks
    case Setting => f' == f.(place := Loading) && go' && ready' == ready && blocks' == blocks
    case Loading => f' == f.(place := LoadingOld, signal := inputSignal) && go' == go && ready' == ready && blocks' == blocks
    case LoadingOld => f' == f.(place := Writing, signalOld := f'.signalOld) && go' == go && ready' == ready && blocks' == blocks
    case Writing =>
      && f.signal < |blocks| && go' == go && ready' == ready
      && (|| (f' == f && blocks' == blocks[f.signal := None])
          || (f' == f.(place := Signalling) && blocks' == blocks[f.signal := Some(f.symbols)]))
    case Signalling => f' == f.(place := Waiting, symbols := f.symbols + 1) && go' == go && !ready' && blocks' == blocks
  }

  lemma MovesTuned(f: Filter, go: bool, ready: bool, blocks: seq<Option<nat>>, inputSignal: nat,
                   f': Filter, go': bool, ready': bool, blocks': seq<Option<nat>>, given: nat, taken: nat)
    requires |blocks| == |blocks'| == 2 && Tuned(f, go, ready, blocks, given, taken) && taken <= given <= taken + 1
    requires Moves(f, go, ready, blocks, inputSignal, f', go', ready', blocks')
    requires f.place.Loading? ==> inputSignal == f.symbols % 2
    ensures Tuned(f', go', ready', blocks', given, taken)
    ensures !ready ==> !ready'
  {}

  lemma GivenAndTaken(s: State, i: nat)
    requires i < 2
    ensures Taken(s.decoder, s.symbols, i) <= Given(s.decoder, s.symbols, i) <= Taken(s.decoder, s.symbols, i) + 1
  {}

  /** A filter's step touches only its own place, locks and blocks. */
  lemma FilterStepMoves(n: nat, s: State, i: nat, s': State)
    requires Shape(s) && i < 2 && FilterStep(n, s, i, s')
    ensures Shape(s')
    ensures Moves(s.filters[i], s.go[i], s.ready[i], s.blocks[i], s.inputSignal, s'.filters[i], s'.go[i], s'.ready[i], s'.blocks[i])
    ensures var j := 1 - i;
      s'.filters[j] == s.filters[j] && s'.go[j] == s.go[j] && s'.ready[j] == s.ready[j] && s'.blocks[j] == s.blocks[j]
    ensures s' == s.(filters := s'.filters, go := s'.go, ready := s'.ready, blocks := s'.blocks)
  {}

  lemma FilterStepKeeps(n: nat, s: State, i: nat, s': State)
    requires Inv(s) && i < 2 && FilterStep(n, s, i, s')
    ensures Inv(s')
  {
    hide FilterStep, Moves, Tuned, Taken, Given;
    WhereFiltersAre(s, i);
    FilterStepMoves(n, s, i, s');
    GivenAndTaken(s, i);
    MovesTuned(s.filters[i], s.go[i], s.ready[i], s.blocks[i], s.inputSignal,
               s'.filters[i], s'.go[i], s'.ready[i], s'.blocks[i], Given(s.decoder, s.symbols, i), Taken(s.decoder, s.symbols, i));
    assert FilterOk(s', 1 - i) && FilterOk(s', i);
  }

  /** What the decoder's steps do to a filter's locks and counts. */
  lemma DecoderTuned(f: Filter, go: bool, ready: bool, blocks: seq<Option<nat>>, given: nat, taken: nat)
    requires |blocks| == 2 && Tuned(f, go, ready, blocks, given, taken)
    ensures !ready ==> Tuned(f, go, true, blocks, given, taken + 1)
    ensures given == Begun(f) ==> Tuned(f, false, ready, blocks, given + 1, taken)
  {}

  /** The decoder's step for filter i: it takes its result, gives it permission, or leaves it alone. */
  lemma DecoderStepMoves(n: nat, s: State, i: nat, s': State)
    requires Shape(s) && i < 2 && DecoderStep(n, s, s')
    ensures Shape(s') && s'.filters == s.filters && s'.blocks == s.blocks
    ensures s'.go[i] == if s.decoder == Releasing(i) then false else s.go[i]
    ensures s'.ready[i] == if s.decoder == Taking(i) then true else s.ready[i]
    ensures Given(s'.decoder, s'.symbols, i) == Given(s.decoder, s.symbols, i) + if s.decoder == Releasing(i) then 1 else 0
    ensures Taken(s'.decoder, s'.symbols, i) == Taken(s.decoder, s.symbols, i) + if s.decoder == Taking(i) then 1 else 0
    ensures s'.decoder == Taking(i) ==> !s'.ready[i]
  {}

  lemma DecoderStepKeepsFilter(n: nat, s: State, i: nat, s': State)
    requires Inv(s) && i < 2 && DecoderStep(n, s, s')
    ensures Shape(s') && FilterOk(s', i)
  {
    hide DecoderStep, Tuned, Taken, Given;
    PermissionsUsed(s, i);
    DecoderStepMoves(n, s, i, s');
    DecoderTuned(s.filters[i], s.go[i], s.ready[i], s.blocks[i], Given(s.decoder, s.symbols, i), Taken(s.decoder, s.symbols, i));
  }

  lemma DecoderStepKeeps(n: nat, s: State, s': State)
    requires Inv(s) && DecoderStep(n, s, s')
    ensures Inv(s')
  {
    hide FilterOk;
    DecoderStepKeepsFilter(n, s, 0, s');
    DecoderStepKeepsFilter(n, s, 1, s');
    if s.decoder.Decoding? { DecodesItsSymbol(s); }
  }

  /** When the decoder releases a filter the filter has used up its last permission. */
  lemma PermissionsUsed(s: State, i: nat)
    requires Inv(s) && i < 2
    ensures s.decoder == Releasing(i) ==> Given(s.decoder, s.symbols, i) == Begun(s.filters[i])
    ensures s.decoder.WaitingFor? && !s.ready[i] && s.decoder.i == i ==> s.filters[i].symbols == Taken(s.decoder, s.symbols, i) + 1
  {}

  /** While a symbol is being decoded its buffer holds exactly that symbol from both filters. */
  lemma DecodesItsSymbol(s: State)
    requires Inv(s) && s.decoder.Decoding?
    ensures s.blocks[0][s.inputSignalOld] == s.blocks[1][s.inputSignalOld] == Some(s.symbols)
  {
    WhereFiltersAre(s, 0);
    WhereFiltersAre(s, 1);
  }

  // ----- runs -----

  ghost predicate IsRun(n: nat, run: seq<State>) {
    && |run| > 0 && Initial(run[0])
    && forall k :: 0 <= k < |run| - 1 ==> Shape(run[k]) && Step(n, run[k], run[k+1])
  }

  lemma {:induction false} AlwaysInv(n: nat, run: seq<State>, k: nat)
    requires IsRun(n, run) && k < |run|
    ensures Inv(run[k])
    decreases k
  {
    hide Inv, FilterStep, DecoderStep, Initial;
    if k == 0 {
      InitialInv(run[0]);
    } else {
      AlwaysInv(n, run, k - 1);
      var s, s' := run[k-1], run[k-1+1];
      assert Step(n, s, s');
      if FilterStep(n, s, 0, s') { FilterStepKeeps(n, s, 0, s'); }
      else if FilterStep(n, s, 1, s') { FilterStepKeeps(n, s, 1, s'); }
      else { DecoderStepKeeps(n, s, s'); }
    }
  }

  /** In every interleaving: a filter never writes the buffer being decoded, its symbol count is never behind
      the decoder's and at most one ahead, and the symbols decoded are 0, 1, 2, ... each from both filters. */
  lemma HandOffIsSafe(n: nat, run: seq<State>, k: nat, i: nat)
    requires IsRun(n, run) && k < |run| && i < 2
    ensures Shape(run[k])
    ensures var s := run[k];
      && (s.filters[i].place.Writing? && s.decoder.Decoding? ==> s.filters[i].signal != s.inputSignalOld)
      && Taken(s.decoder, s.symbols, i) <= s.filters[i].symbols <= Taken(s.decoder, s.symbols, i) + 1
      && |s.decoded| == s.symbols && forall m :: 0 <= m < |s.decoded| ==> s.decoded[m] == (Some(m), Some(m))
  {
    AlwaysInv(n, run, k);
    WhereFiltersAre(run[k], i);
  }

  // ----- progress -----

  function Left(n: nat, done: nat): nat { if done < n then n - done else 0 }

  function FilterSteps(p: FilterPlace): nat {
    match p
    case Waiting => 6
    case Setting => 5
    case Loading => 4
    case LoadingOld => 3
    case Writing => 2
    case Signalling => 1
  }

  function DecoderSteps(d: DecoderPlace): nat {
    match d
    case WaitingFor(i) => if i == 0 then 9 else 7
    case Taking(i) => if i == 0 then 8 else 6
    case KeepingOld => 5
    case Switching => 4
    case Releasing(i) => if i == 0 then 3 else 2
    case Decoding => 1
  }

  function FilterWork(n: nat, f: Filter): int { 6 * Left(n, f.symbols) + FilterSteps(f.place) }

  /** Steps still to be taken, not counting samples overwritten again. */
  ghost function Work(n: nat, s: State): nat
    requires Shape(s)
  {
    FilterWork(n, s.filters[0]) + FilterWork(n, s.filters[1]) + 9 * Left(n, s.symbols) + DecoderSteps(s.decoder)
  }

  /** The step a filter takes next; writing, its last sample. */
  ghost function FilterMove(s: State, i: nat): State
    requires Inv(s) && i < 2
  {
    var f := s.filters[i];
    match f.place
    case Waiting => s.(filters := s.filters[i := f.(place := Setting)])
    case Setting => s.(filters := s.filters[i := f.(place := Loading)], go := s.go[i := true])
    case Loading => s.(filters := s.filters[i := f.(place := LoadingOld, signal := s.inputSignal)])
    case LoadingOld => s.(filters := s.filters[i := f.(place := Writing, signalOld := s.inputSignalOld)])
    case Writing =>
      s.(blocks := s.blocks[i := s.blocks[i][f.signal := Some(f.symbols)]], filters := s.filters[i := f.(place := Signalling)])
    case Signalling =>
      s.(ready := s.ready[i := false], filters := s.filters[i := f.(place := Waiting, symbols := f.symbols + 1)])
  }

  ghost function DecoderMove(s: State): State
    requires Inv(s)
  {
    match s.decoder
    case WaitingFor(i) => s.(decoder := Taking(i))
    case Taking(i) => s.(ready := s.ready[i := true], decoder := if i == 0 then WaitingFor(1) else KeepingOld)
    case KeepingOld => s.(inputSignalOld := s.inputSignal, decoder := Switching)
    case Switching =>
      var b := (s.currentBuffer + 1) % 2;
      s.(currentBuffer := b, inputSignal := b, decoder := Releasing(0))
    case Releasing(i) => s.(go := s.go[i := false], decoder := if i == 0 then Releasing(1) else Decoding)
    case Decoding =>
      s.(decoded := s.decoded + [(s.blocks[0][s.inputSignalOld], s.blocks[1][s.inputSignalOld])],
         symbols := s.symbols + 1, decoder := WaitingFor(0))
  }

  /** While the decoder waits for a filter's result the filter is on that symbol, and may start it if it has not. */
  lemma AwaitedFilterMoves(n: nat, s: State, i: nat)
    requires Inv(s) && s.symbols < n && s.decoder == WaitingFor(i) && s.ready[i]
    ensures i < 2 && s.filters[i].symbols == s.symbols && FilterStep(n, s, i, FilterMove(s, i))
    ensures Shape(FilterMove(s, i)) && Work(n, FilterMove(s, i)) < Work(n, s)
  {
    assert FilterOk(s, i);
  }

  lemma DecoderMoves(n: nat, s: State)
    requires Inv(s) && s.symbols < n && (s.decoder.WaitingFor? ==> !s.ready[s.decoder.i])
    ensures DecoderStep(n, s, DecoderMove(s))
    ensures Shape(DecoderMove(s)) && Work(n, DecoderMove(s)) < Work(n, s)
  {}

  /** The processors never block each other: as long as a symbol is left to decode, some processor can take a step
      that brings its decoding nearer. */
  lemma NoDeadlock(n: nat, s: State) returns (s': State)
    requires Inv(s) && s.symbols < n
    ensures Step(n, s, s') && Inv(s') && Work(n, s') < Work(n, s) && s'.symbols <= n
  {
    hide Work, FilterMove, DecoderMove, FilterStep, DecoderStep, FilterOk;
    if s.decoder.WaitingFor? && s.ready[s.decoder.i] {
      var i := s.decoder.i;
      AwaitedFilterMoves(n, s, i);
      s' := FilterMove(s, i);
      FilterStepKeeps(n, s, i, s');
      FilterKeepsCount(n, s, i, s');
      assert i == 0 || i == 1;
    } else {
      DecoderMoves(n, s);
      s' := DecoderMove(s);
      DecoderStepKeeps(n, s, s');
      DecoderKeepsCount(n, s, s');
    }
  }

  lemma FilterKeepsCount(n: nat, s: State, i: nat, s': State)
    requires Shape(s) && i < 2 && FilterStep(n, s, i, s')
    ensures s'.symbols == s.symbols
  {}

  lemma DecoderKeepsCount(n: nat, s: State, s': State)
    requires Shape(s) && DecoderStep(n, s, s')
    ensures s.symbols <= s'.symbols <= s.symbols + 1
  {}

  /** A continuation of a run. */
  ghost predicate LeadsOn(n: nat, path: seq<State>) {
    forall k :: 0 <= k < |path| - 1 ==> Shape(path[k]) && Step(n, path[k], path[k+1])
  }

  /** From every state reached on the way, the rest of the n symbols can be decoded. */
  lemma {:induction false} AllCanBeDecoded(n: nat, s: State) returns (path: seq<State>)
    requires Inv(s) && s.symbols <= n
    ensures |path| > 0 && path[0] == s && LeadsOn(n, path)
    ensures var last := path[|path|-1];
      Shape(last) && last.decoded == seq(n, k => (Some(k), Some(k)))
    decreases Work(n, s)
  {
    if s.symbols == n {
      path := [s];
    } else {
      var s' := NoDeadlock(n, s);
      var rest := AllCanBeDecoded(n, s');
      path := [s] + rest;
      hide Step, Inv, Work;
      forall k | 0 <= k < |path| - 1 ensures Shape(path[k]) && Step(n, path[k], path[k+1]) {
        if k > 0 { assert path[k] == rest[k-1] && path[k+1] == rest[k-1+1]; }
      }
    }
  }

  /** The decoder is at work only on symbols there are. */
  ghost predicate InRange(n: nat, s: State) { s.symbols <= n && (s.decoder != WaitingFor(0) ==> s.symbols < n) }

  lemma StepInRange(n: nat, s: State, s': State)
    requires Shape(s) && InRange(n, s) && Step(n, s, s')
    ensures InRange(n, s')
  {}

  lemma {:induction false} AlwaysInRange(n: nat, run: seq<State>, k: nat)
    requires IsRun(n, run) && k < |run|
    ensures InRange(n, run[k])
    decreases k
  {
    hide Step, InRange, Initial;
    if k == 0 {
      StartsInRange(n, run[0]);
    } else {
      AlwaysInRange(n, run, k - 1);
      assert Step(n, run[k-1], run[k-1+1]);
      StepInRange(n, run[k-1], run[k]);
    }
  }

  lemma StartsInRange(n: nat, s: State)
    requires Initial(s)
    ensures InRange(n, s)
  {}

  /** However a run has gone so far, it can go on until all n symbols are decoded, in order and from both filters. */
  lemma EveryRunCanFinish(n: nat, run: seq<State>, k: nat) returns (path: seq<State>)
    requires IsRun(n, run) && k < |run|
    ensures |path| > 0 && path[0] == run[k] && LeadsOn(n, path)
    ensures var last := path[|path|-1];
      Shape(last) && last.decoded == seq(n, k => (Some(k), Some(k)))
  {
    AlwaysInv(n, run, k);
    AlwaysInRange(n, run, k);
    path := AllCanBeDecoded(n, run[k]);
  }
}
