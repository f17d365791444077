/** One descriptor serves a team through any sequence of loop, sections and single constructs, each closed by
    a barrier, for any number of threads and any interleaving of their critical sections. */
module WorkShareReuse {
  import opened DramTypes
  import opened WorkShares

  datatype Construct = Loop(start: int, end: int, incr: int, chunkSize: int) | Sections(count: nat) | Single
  {
    predicate Valid() { Loop? ==> incr != 0 && chunkSize >= 1 }

    function First(): int { if Loop? then start else 1 }
    function Last(): int { if Loop? then end else if Sections? then count + 1 else 1 }
    function Step(): int { if Loop? then incr else 1 }
    function Chunk(): int { if Loop? then chunkSize else 1 }
  }

  /** Where a thread is: before the construct, inside it (told or not that nothing is left), about to reset
      the descriptor, or at the barrier. */
  datatype Place = Outside | Inside(drained: bool) | Resetting | AtBarrier
  {
    predicate Counted() { Resetting? || AtBarrier? }
  }

  /** What happened in a construct: how often the descriptor was filled in, what was handed out, and how
      many threads were told to run the single block. */
  datatype Record = Record(inits: nat, ranges: seq<Range>, winners: nat)

  datatype State = State(ws: WorkShare, k: nat, places: seq<Place>, now: Record, past: seq<Record>)

  // ----- steps -----

  function Noted(r: Record, filled: bool, given: Option<Range>, won: bool): Record {
    Record(r.inits + if filled then 1 else 0, if given.Some? then r.ranges + [given.value] else r.ranges,
           r.winners + if won then 1 else 0)
  }

  /** The critical section a thread passes when it reaches the construct. */
  function Enter(s: State, c: Construct, t: nat): State
    requires t < |s.places|
  {
    match c
    case Loop(start, end, incr, chunkSize) =>
      var (ws, r) := LoopStart(s.ws, start, end, incr, chunkSize);
      s.(ws := ws, places := s.places[t := Inside(r.None?)], now := Noted(s.now, !s.ws.inited, r, false))
    case Sections(count) =>
      var (ws, n) := SectionsStart(s.ws, count);
      s.(ws := ws, places := s.places[t := Inside(n == 0)],
         now := Noted(s.now, !s.ws.inited, if n == 0 then None else Some(Range(n, n + 1)), false))
    case Single =>
      var (ws, won) := SingleStart(s.ws, |s.places|);
      s.(ws := ws, places := s.places[t := AtBarrier], now := Noted(s.now, !s.ws.inited, None, won))
  }

  /** Ask for more work. */
  function Next(s: State, t: nat): State
    requires t < |s.places|
  {
    var (ws, r) := DynamicNext(s.ws);
    s.(ws := ws, places := s.places[t := Inside(r.None?)], now := Noted(s.now, false, r, false))
  }

  /** Leave the construct: be counted, and reset the descriptor if last. */
  function Leave(s: State, c: Construct, t: nat): State
    requires t < |s.places|
  {
    if c.Loop? then s.(ws := LoopEnd(s.ws, |s.places|), places := s.places[t := AtBarrier])
    else
      var ws := SectionsCount(s.ws);
      s.(ws := ws, places := s.places[t := if ws.completed == |s.places| then Resetting else AtBarrier])
  }

  function ResetBy(s: State, t: nat): State
    requires t < |s.places|
  {
    s.(ws := Reset(s.ws, |s.places|), places := s.places[t := AtBarrier])
  }

  /** The barrier opens: everyone goes on to the next construct. */
  function Barrier(s: State): State {
    s.(k := s.k + 1, places := seq(|s.places|, _ => Outside), now := Record(0, [], 0), past := s.past + [s.now])
  }

  ghost predicate Step(program: seq<Construct>, s: State, s': State) {
    && s.k < |program|
    && ((exists t :: 0 <= t < |s.places| && ThreadStep(program[s.k], s, t, s'))
        || ((forall t :: 0 <= t < |s.places| ==> s.places[t].AtBarrier?) && s' == Barrier(s)))
  }

  ghost predicate ThreadStep(c: Construct, s: State, t: nat, s': State)
    requires t < |s.places|
  {
    match s.places[t]
    case Outside => s' == Enter(s, c, t)
    case Inside(drained) => s' == if drained then Leave(s, c, t) else Next(s, t)
    case Resetting => s' == ResetBy(s, t)
    case AtBarrier => false
  }

  // ----- the invariant -----

  /** How many threads have counted themselves out. */
  function CountedOut(places: seq<Place>): nat {
    if |places| == 0 then 0
    else CountedOut(places[..|places|-1]) + if places[|places|-1].Counted() then 1 else 0
  }

  lemma {:induction false} CountUpdate(places: seq<Place>, t: nat, p: Place)
    requires t < |places|
    ensures CountedOut(places[t := p]) == CountedOut(places) - (if places[t].Counted() then 1 else 0) + if p.Counted() then 1 else 0
    decreases |places|
  {
    var n := |places| - 1;
    if t == n {
      assert places[t := p][..n] == places[..n];
    } else {
      CountUpdate(places[..n], t, p);
      assert places[t := p][..n] == places[..n][t := p];
    }
  }

  ghost predicate AllCounted(places: seq<Place>) { forall t :: 0 <= t < |places| ==> places[t].Counted() }

  ghost predicate NoneCounted(places: seq<Place>) { forall t :: 0 <= t < |places| ==> !places[t].Counted() }

  lemma {:induction false} CountAll(places: seq<Place>)
    ensures CountedOut(places) <= |places|
    ensures CountedOut(places) == |places| <==> AllCounted(places)
    ensures CountedOut(places) == 0 <==> NoneCounted(places)
  {
    var n := |places|;
    if n > 0 {
      var front := places[..n-1];
      CountAll(front);
      if !AllCounted(front) {
        var t :| 0 <= t < n - 1 && !front[t].Counted();
        assert !places[t].Counted();
      }
      if !NoneCounted(front) {
        var t :| 0 <= t < n - 1 && front[t].Counted();
        assert places[t].Counted();
      }
    }
  }

  /** A construct that is over: filled in once, everything handed out in order and in chunks, or one winner. */
  ghost predicate Complete(c: Construct, r: Record) {
    && r.inits == 1
    && (if c.Single? then r.winners == 1 && r.ranges == []
        else r.winners == 0 && Concat(r.ranges, c.Step()) == Iterations(c.First(), c.Last(), c.Step())
             && InChunks(r.ranges, c.Step(), c.Chunk()))
  }

  ghost predicate NobodyIn(s: State) { forall t :: 0 <= t < |s.places| ==> s.places[t].Outside? }

  ghost predicate AllAtBarrier(s: State) { forall t :: 0 <= t < |s.places| ==> s.places[t].AtBarrier? }

  /** What is true while some thread has entered and the descriptor has not been reset. */
  ghost predicate Running(c: Construct, s: State) {
    && s.ws.inited && s.now.inits == 1 && s.ws.completed == CountedOut(s.places)
    && (if c.Single? then
          s.now.winners == 1 && s.now.ranges == [] && (forall t :: 0 <= t < |s.places| ==> s.places[t].Outside? || s.places[t].AtBarrier?)
        else
          && s.now.winners == 0
          && HandedOut(s.ws, s.now.ranges, c.First(), c.Last(), c.Step(), c.Chunk())
          && (forall t :: 0 <= t < |s.places| && (s.places[t].Counted() || s.places[t] == Inside(true)) ==> s.ws.next == s.ws.end)
          && (forall t :: 0 <= t < |s.places| && s.places[t].Resetting? ==> c.Sections? && CountedOut(s.places) == |s.places|)
          && (forall t, u :: 0 <= t < |s.places| && 0 <= u < |s.places| && s.places[t].Resetting? && s.places[u].Resetting? ==> t == u))
  }

  // ----- preservation -----

  /** The situation inside a construct. */
  ghost predicate Situation(c: Construct, s: State) {
    && |s.places| >= 1 && c.Valid()
    && if NobodyIn(s) then !s.ws.inited && s.now == Record(0, [], 0)
       else if AllAtBarrier(s) then !s.ws.inited && Complete(c, s.now)
       else Running(c, s) && (CountedOut(s.places) == |s.places| ==> exists t :: 0 <= t < |s.places| && s.places[t].Resetting?)
  }

  lemma NotOver(s: State, t: nat)
    requires t < |s.places| && !s.places[t].Counted()
    ensures CountedOut(s.places) < |s.places| && !AllAtBarrier(s)
    ensures NobodyIn(s) ==> CountedOut(s.places) == 0
  {
    CountAll(s.places);
    assert NobodyIn(s) ==> NoneCounted(s.places);
  }

  /** A thread that has just been given something, or told that nothing is left. */
  lemma GivenKeeps(c: Construct, s: State, t: nat, ws: WorkShare, r: Option<Range>, filled: bool)
    requires Situation(c, s) && !c.Single? && t < |s.places| && !s.places[t].Counted()
    requires filled == !s.ws.inited && (filled ==> NobodyIn(s)) && ws.inited && (filled ==> ws.completed == 0)
    requires HandedOut(ws, if r.Some? then s.now.ranges + [r.value] else s.now.ranges, c.First(), c.Last(), c.Step(), c.Chunk())
    requires r.None? ==> ws.next == ws.end
    requires !filled ==> ws.completed == s.ws.completed && (s.ws.next == s.ws.end ==> ws.next == ws.end)
    ensures Situation(c, s.(ws := ws, places := s.places[t := Inside(r.None?)], now := Noted(s.now, filled, r, false)))
  {
    hide HandedOut, CountedOut, Complete;
    var s' := s.(ws := ws, places := s.places[t := Inside(r.None?)], now := Noted(s.now, filled, r, false));
    NotOver(s, t);
    CountUpdate(s.places, t, s'.places[t]);
    NotOver(s', t);
    assert !s'.places[t].Outside?;
  }

  lemma EnterLoop(c: Construct, s: State, t: nat)
    requires Situation(c, s) && c.Loop? && t < |s.places| && s.places[t].Outside?
    ensures Situation(c, Enter(s, c, t))
  {
    hide HandedOut, LoopStart, DynamicNext, CountedOut, CanonicalEnd, Complete;
    var filledIn := WorkShare(CanonicalEnd(c.start, c.end, c.incr), c.start, c.chunkSize, c.incr, true, 0);
    NotOver(s, t);
    FreshHandsOut(c.start, c.end, c.incr, c.chunkSize);
    if s.ws.inited { SizesOf(c, s); }
    StartIsGrab(s.ws, c.start, c.end, c.incr, c.chunkSize);
    GrabHandsOut(if s.ws.inited then s.ws else filledIn, s.now.ranges, c.start, c.end, c.incr, c.chunkSize);
    var (ws, r) := LoopStart(s.ws, c.start, c.end, c.incr, c.chunkSize);
    GrabDrains(if s.ws.inited then s.ws else filledIn);
    GivenKeeps(c, s, t, ws, r, !s.ws.inited);
  }

  lemma SizesOf(c: Construct, s: State)
    requires Situation(c, s) && s.ws.inited && !c.Single? && !AllAtBarrier(s)
    ensures s.ws.incr == c.Step() && s.ws.chunkSize == c.Chunk()
    ensures s.ws.next == s.ws.end || Before(s.ws.next, s.ws.end, c.Step())
    ensures HandedOut(s.ws, s.now.ranges, c.First(), c.Last(), c.Step(), c.Chunk())
  {}

  lemma GrabDrains(ws: WorkShare)
    ensures ws.next == ws.end ==> DynamicNext(ws).0.next == DynamicNext(ws).0.end
  {}

  lemma EnterSections(c: Construct, s: State, t: nat)
    requires Situation(c, s) && c.Sections? && t < |s.places| && s.places[t].Outside?
    ensures Situation(c, Enter(s, c, t))
  {
    hide HandedOut, LoopStart, SectionsStart, DynamicNext, CountedOut, Complete;
    var filledIn := WorkShare(CanonicalEnd(1, c.count + 1, 1), 1, 1, 1, true, 0);
    NotOver(s, t);
    FreshHandsOut(1, c.count + 1, 1, 1);
    if s.ws.inited { SizesOf(c, s); }
    SectionsAreALoop(s.ws, c.count);
    StartIsGrab(s.ws, 1, c.count + 1, 1, 1);
    GrabHandsOut(if s.ws.inited then s.ws else filledIn, s.now.ranges, 1, c.count + 1, 1, 1);
    GrabDrains(if s.ws.inited then s.ws else filledIn);
    var (ws, r) := LoopStart(s.ws, 1, c.count + 1, 1, 1);
    if s.ws.inited { NextIsPositive(s.ws, s.now.ranges, c.count); }
    SectionsCounted(s.ws, c.count);
    GivenKeeps(c, s, t, ws, r, !s.ws.inited);
  }

  /** Section numbers start at one, so zero always means that none is left. */
  lemma SectionsCounted(ws: WorkShare, count: nat)
    requires ws.inited ==> ws.next >= 1
    ensures SectionsStart(ws, count).1 == 0 <==> LoopStart(ws, 1, count + 1, 1, 1).1.None?
  {}

  lemma {:induction false} UnitIterations(start: int, end: int)
    requires start <= end
    ensures |Iterations(start, end, 1)| == end - start
    ensures forall i :: 0 <= i < end - start ==> Iterations(start, end, 1)[i] == start + i
    decreases end - start
  {
    if start < end { UnitIterations(start + 1, end); }
  }

  lemma NextIsPositive(ws: WorkShare, ranges: seq<Range>, count: nat)
    requires HandedOut(ws, ranges, 1, count + 1, 1, 1)
    ensures ws.next >= 1
  {
    UnitIterations(1, count + 1);
    UnitIterations(ws.next, ws.end);
    assert |Concat(ranges, 1) + Iterations(ws.next, ws.end, 1)| == count;
  }

  lemma EnterSingle(c: Construct, s: State, t: nat)
    requires Situation(c, s) && c.Single? && t < |s.places| && s.places[t].Outside?
    ensures Situation(c, Enter(s, c, t))
  {
    hide CountedOut;
    var s' := Enter(s, c, t);
    NotOver(s, t);
    CountUpdate(s.places, t, AtBarrier);
    CountAll(s'.places);
    assert !s'.places[t].Outside?;
    if CountedOut(s'.places) == |s'.places| {
      assert forall u :: 0 <= u < |s'.places| ==> s'.places[u].Counted();
    } else {
      assert !AllCounted(s'.places);
      assert AllAtBarrier(s') ==> AllCounted(s'.places);
    }
  }

  lemma NextKeeps(c: Construct, s: State, t: nat)
    requires Situation(c, s) && t < |s.places| && s.places[t] == Inside(false)
    ensures Situation(c, Next(s, t))
  {
    hide HandedOut, DynamicNext, CountedOut, Complete;
    NotOver(s, t);
    SizesOf(c, s);
    GrabHandsOut(s.ws, s.now.ranges, c.First(), c.Last(), c.Step(), c.Chunk());
    GrabDrains(s.ws);
    var (ws, r) := DynamicNext(s.ws);
    GivenKeeps(c, s, t, ws, r, false);
  }

  /** When nothing is left, what was handed out is the whole construct. */
  lemma DrainedIsComplete(c: Construct, s: State)
    requires Running(c, s) && !c.Single? && s.ws.next == s.ws.end
    ensures Complete(c, s.now)
  {
    assert Concat(s.now.ranges, c.Step()) + [] == Concat(s.now.ranges, c.Step());
  }

  lemma LeaveKeeps(c: Construct, s: State, t: nat)
    requires Situation(c, s) && t < |s.places| && s.places[t] == Inside(true)
    ensures Situation(c, Leave(s, c, t))
  {
    var s' := Leave(s, c, t);
    NotOver(s, t);
    DrainedIsComplete(c, s);
    hide CountedOut, Complete, Concat, Iterations;
    CountUpdate(s.places, t, s'.places[t]);
    CountAll(s'.places);
    assert !s'.places[t].Outside?;
    if CountedOut(s'.places) == |s'.places| {
      assert forall u :: 0 <= u < |s'.places| ==> s'.places[u].Counted();
    } else {
      assert !AllCounted(s'.places);
      assert AllAtBarrier(s') ==> AllCounted(s'.places);
    }
  }

  lemma ResetKeeps(c: Construct, s: State, t: nat)
    requires Situation(c, s) && t < |s.places| && s.places[t].Resetting?
    ensures Situation(c, ResetBy(s, t))
  {
    var s' := ResetBy(s, t);
    assert !AllAtBarrier(s);
    CountAll(s.places);
    assert forall u :: 0 <= u < |s.places| ==> s.places[u].Counted();
    DrainedIsComplete(c, s);
    assert !s'.places[t].Outside?;
  }

  lemma ThreadStepKeeps(c: Construct, s: State, t: nat, s': State)
    requires Situation(c, s) && t < |s.places| && ThreadStep(c, s, t, s')
    ensures Situation(c, s') && s'.k == s.k && s'.past == s.past
  {
    hide Situation, HandedOut, Complete, Running, LoopStart, SectionsStart, SingleStart, DynamicNext;
    match s.places[t]
    case Outside =>
      match c {
        case Loop(_, _, _, _) => EnterLoop(c, s, t);
        case Sections(_) => EnterSections(c, s, t);
        case Single => EnterSingle(c, s, t);
      }
    case Inside(drained) => if drained { LeaveKeeps(c, s, t); } else { NextKeeps(c, s, t); }
    case Resetting => ResetKeeps(c, s, t);
  }

  // ----- runs -----

  /** The team starts with a descriptor that is not filled in and everyone before the first construct. */
  ghost predicate IsRun(program: seq<Construct>, run: seq<State>) {
    && |run| > 0 && |run[0].places| >= 1 && (forall i :: 0 <= i < |program| ==> program[i].Valid())
    && !run[0].ws.inited && run[0].k == 0 && run[0].past == [] && run[0].now == Record(0, [], 0) && NobodyIn(run[0])
    && forall i :: 0 <= i < |run| - 1 ==> Step(program, run[i], run[i+1])
  }

  ghost predicate Sound(program: seq<Construct>, s: State) {
    && |s.places| >= 1 && s.k <= |program| && |s.past| == s.k
    && (forall i :: 0 <= i < s.k ==> Complete(program[i], s.past[i]))
    && (if s.k < |program| then Situation(program[s.k], s) else NobodyIn(s) && !s.ws.inited && s.now == Record(0, [], 0))
  }

  lemma BarrierKeeps(program: seq<Construct>, s: State)
    requires Sound(program, s) && s.k < |program| && AllAtBarrier(s) && forall i :: 0 <= i < |program| ==> program[i].Valid()
    ensures Sound(program, Barrier(s))
  {
    hide Complete;
    assert s.places[0].AtBarrier?;
    assert !NobodyIn(s);
    assert NobodyIn(Barrier(s));
  }

  /** In every interleaving: every finished construct was filled in exactly once, handed out exactly its
      iterations or sections, in order and in whole chunks but for the last, or had exactly one winner; and
      between constructs the descriptor is always reset. */
  lemma {:induction false} ReuseIsSound(program: seq<Construct>, run: seq<State>, i: nat)
    requires IsRun(program, run) && i < |run|
    ensures Sound(program, run[i])
    decreases i
  {
    if i > 0 {
      ReuseIsSound(program, run, i - 1);
      var s, s' := run[i-1], run[i-1+1];
      assert Step(program, s, s');
      hide Situation, Complete, ThreadStep, Barrier;
      if AllAtBarrier(s) && s' == Barrier(s) {
        BarrierKeeps(program, s);
      } else {
        var t :| 0 <= t < |s.places| && ThreadStep(program[s.k], s, t, s');
        ThreadStepKeeps(program[s.k], s, t, s');
      }
    }
  }

  /** The sections of a finished construct are handed out once each, from 1 to their count. */
  lemma SectionsOnceEach(c: Construct, r: Record)
    requires c.Sections? && Complete(c, r)
    ensures Concat(r.ranges, 1) == seq(c.count, i => i + 1)
  {
    UnitIterations(1, c.count + 1);
  }

  /** While any thread is in the construct the descriptor is not filled in again. */
  lemma FilledInOnce(program: seq<Construct>, run: seq<State>, i: nat)
    requires IsRun(program, run) && i < |run|
    ensures run[i].now.inits <= 1
    ensures run[i].k < |program| ==> (run[i].now.inits == 0 <==> NobodyIn(run[i]))
  {
    ReuseIsSound(program, run, i);
  }
}
