/** The OpenMP runtime's shared work-share descriptor: how loops and sections hand out their iterations. */
module WorkShares {
  import opened DramTypes

  /** The descriptor; `inited` stands for the two magic values of its checkfirst field. */
  datatype WorkShare = WorkShare(end: int, next: int, chunkSize: int, incr: int, inited: bool, completed: nat)

  /** A grabbed stretch of a loop: from start, in steps of the increment, until end. */
  datatype Range = Range(start: int, end: int)

  // ----- the critical sections -----

  /** Grab the next chunk, cut off at the end of the loop. */
  function DynamicNext(ws: WorkShare): (WorkShare, Option<Range>) {
    if ws.next == ws.end then (ws, None)
    else
      var chunk := ws.chunkSize * ws.incr;
      var left := ws.end - ws.next;
      var size := if ws.incr < 0 then (if chunk < left then left else chunk) else if chunk > left then left else chunk;
      (ws.(next := ws.next + size), Some(Range(ws.next, ws.next + size)))
  }

  /** Loops with no iterations get next == end. */
  function CanonicalEnd(start: int, end: int, incr: int): int {
    if (incr > 0 && start > end) || (incr < 0 && start < end) then start else end
  }

  /** The first thread in fills in the descriptor; everyone then grabs. */
  function LoopStart(ws: WorkShare, start: int, end: int, incr: int, chunkSize: int): (WorkShare, Option<Range>) {
    var ws1 := if ws.inited then ws else WorkShare(CanonicalEnd(start, end, incr), start, chunkSize, incr, true, 0);
    if ws1.next == ws1.end then (ws1, None)
    else
      var chunk := chunkSize * incr;
      var left := ws1.end - ws1.next;
      var size := if incr < 0 then (if chunk < left then left else chunk) else if chunk > left then left else chunk;
      (ws1.(next := ws1.next + size), Some(Range(ws1.next, ws1.next + size)))
  }

  /** The number of the section to run, or zero. */
  function SectionsStart(ws: WorkShare, count: nat): (WorkShare, int) {
    var ws1 := if ws.inited then ws else WorkShare(count + 1, 1, 1, 1, true, 0);
    if ws1.next == ws1.end then (ws1, 0) else (ws1.(next := ws1.next + 1), ws1.next)
  }

  /** Did this thread come first? The last one in resets the descriptor. */
  function SingleStart(ws: WorkShare, nthreads: nat): (WorkShare, bool) {
    var ws1 := if ws.inited then ws else ws.(inited := true, completed := 0);
    var ws2 := ws1.(completed := ws1.completed + 1);
    (if ws2.completed == nthreads then ws2.(inited := false) else ws2, !ws.inited)
  }

  function LoopEnd(ws: WorkShare, nthreads: nat): WorkShare {
    if ws.completed + 1 == nthreads then ws.(completed := 0, inited := false) else ws.(completed := ws.completed + 1)
  }

  function SectionsCount(ws: WorkShare): WorkShare { ws.(completed := ws.completed + 1) }

  /** What the last thread to count itself does once it has let go of the lock. */
  function Reset(ws: WorkShare, nthreads: nat): WorkShare {
    if ws.completed == nthreads then WorkShare(0, 0, 0, 0, false, 0) else ws
  }

  // ----- the sequential loop -----

  ghost predicate Before(x: int, end: int, incr: int) { (incr > 0 && x < end) || (incr < 0 && x > end) }

  ghost function Remaining(x: int, end: int, incr: int): nat {
    if !Before(x, end, incr) then 0 else if x < end then end - x else x - end
  }

  /** The iterations of the sequential loop, in order. */
  ghost function Iterations(start: int, end: int, incr: int): seq<int>
    decreases Remaining(start, end, incr)
  {
    if Before(start, end, incr) then [start] + Iterations(start + incr, end, incr) else []
  }

  ghost function Concat(ranges: seq<Range>, incr: int): seq<int> {
    if |ranges| == 0 then []
    else Concat(ranges[..|ranges|-1], incr) + Iterations(ranges[|ranges|-1].start, ranges[|ranges|-1].end, incr)
  }

  /** k steps on from x. */
  ghost function Ahead(x: int, k: nat, incr: int): int
    decreases k
  {
    if k == 0 then x else Ahead(x + incr, k - 1, incr)
  }

  lemma {:induction false} AheadIs(x: int, k: nat, incr: int)
    ensures Ahead(x, k, incr) == x + k * incr
    decreases k
  {
    if k > 0 {
      AheadIs(x + incr, k - 1, incr);
      assert incr + (k - 1) * incr == k * incr;
    }
  }

  lemma {:induction false} AheadGoesOn(x: int, k: nat, incr: int)
    requires incr != 0
    ensures k >= 1 ==> Before(x, Ahead(x, k, incr), incr)
    ensures k == 0 ==> Ahead(x, k, incr) == x
    ensures Ahead(x, k + 1, incr) == Ahead(x, k, incr) + incr
    decreases k
  {
    if k >= 1 { AheadGoesOn(x + incr, k - 1, incr); }
  }

  /** A stretch of k steps that does not overshoot splits the loop after its k-th iteration. */
  lemma {:induction false} IterationsSplit(start: int, k: nat, end: int, incr: int)
    requires incr != 0 && (Before(Ahead(start, k, incr), end, incr) || Ahead(start, k, incr) == end)
    ensures var stop := Ahead(start, k, incr);
      && Iterations(start, end, incr) == Iterations(start, stop, incr) + Iterations(stop, end, incr)
      && |Iterations(start, stop, incr)| == k
    decreases k
  {
    AheadGoesOn(start, k, incr);
    if k > 0 { IterationsSplit(start + incr, k - 1, end, incr); }
  }

  lemma {:induction false} FewIterations(start: int, k: nat, end: int, incr: int)
    requires incr != 0 && !Before(Ahead(start, k, incr), end, incr)
    ensures |Iterations(start, end, incr)| <= k
    decreases k
  {
    if k > 0 { FewIterations(start + incr, k - 1, end, incr); }
  }

  // ----- handing out -----

  ghost function Size(r: Range, incr: int): nat { |Iterations(r.start, r.end, incr)| }

  /** Every stretch is exactly a chunk long, but the last, which has at least one iteration and at most a chunk. */
  ghost predicate InChunks(ranges: seq<Range>, incr: int, chunkSize: int) {
    && (forall i :: 0 <= i < |ranges| - 1 ==> Size(ranges[i], incr) == chunkSize)
    && (|ranges| > 0 ==> 1 <= Size(ranges[|ranges|-1], incr) <= chunkSize)
  }

  /** The descriptor and the stretches handed out so far add up to the loop, in chunks; until the loop is exhausted
      the last stretch is a whole chunk as well. */
  ghost predicate HandedOut(ws: WorkShare, ranges: seq<Range>, start: int, end: int, incr: int, chunkSize: int) {
    && ws.end == CanonicalEnd(start, end, incr) && ws.incr == incr && ws.chunkSize == chunkSize
    && (ws.next == ws.end || Before(ws.next, ws.end, incr))
    && Concat(ranges, incr) + Iterations(ws.next, ws.end, incr) == Iterations(start, end, incr)
    && InChunks(ranges, incr, chunkSize)
    && (ws.next != ws.end && |ranges| > 0 ==> Size(ranges[|ranges|-1], incr) == chunkSize)
  }

  function Min(a: int, b: int): int { if a < b then a else b }

  /** A grab takes the next iterations of the sequential loop: a chunk of them, or all that are left if these are
      fewer. */
  lemma GrabHandsOut(ws: WorkShare, ranges: seq<Range>, start: int, end: int, incr: int, chunkSize: int)
    requires incr != 0 && chunkSize >= 1 && HandedOut(ws, ranges, start, end, incr, chunkSize)
    ensures var (ws', r) := DynamicNext(ws);
      && HandedOut(ws', if r.Some? then ranges + [r.value] else ranges, start, end, incr, chunkSize)
      && (r.None? <==> ws.next == ws.end) && (r.None? ==> ws' == ws) && ws'.inited == ws.inited && ws'.completed == ws.completed
      && (r.Some? ==> r.value.start == ws.next && Size(r.value, incr) == Min(chunkSize, |Iterations(ws.next, ws.end, incr)|))
  {
    if ws.next != ws.end {
      var (ws', r) := DynamicNext(ws);
      var ranges' := ranges + [r.value];
      assert ranges'[..|ranges|] == ranges;
      Grabbed(ws.next, ws.end, incr, chunkSize);
      assert Concat(ranges', incr) + Iterations(ws'.next, ws.end, incr)
          == Concat(ranges, incr) + (Iterations(ws.next, ws'.next, incr) + Iterations(ws'.next, ws.end, incr));
    }
  }

  lemma Grabbed(next: int, end: int, incr: int, chunkSize: int)
    requires incr != 0 && chunkSize >= 1 && Before(next, end, incr)
    ensures var chunk := chunkSize * incr;
      var left := end - next;
      var next' := next + if incr < 0 then (if chunk < left then left else chunk) else if chunk > left then left else chunk;
      && (next' == end || Before(next', end, incr))
      && Iterations(next, end, incr) == Iterations(next, next', incr) + Iterations(next', end, incr)
      && |Iterations(next, next', incr)| == Min(chunkSize, |Iterations(next, end, incr)|) >= 1
      && (next' != end ==> |Iterations(next, next', incr)| == chunkSize)
  {
    var beyond := Ahead(next, chunkSize, incr);
    AheadIs(next, chunkSize, incr);
    if Before(beyond, end, incr) || beyond == end {
      IterationsSplit(next, chunkSize, end, incr);
    } else {
      FewIterations(next, chunkSize, end, incr);
    }
  }

  /** Entering a fresh descriptor fills it in and grabs; entering a filled-in one only grabs. */
  lemma StartIsGrab(ws: WorkShare, start: int, end: int, incr: int, chunkSize: int)
    requires ws.inited ==> ws.incr == incr && ws.chunkSize == chunkSize
    ensures LoopStart(ws, start, end, incr, chunkSize) ==
      DynamicNext(if ws.inited then ws else WorkShare(CanonicalEnd(start, end, incr), start, chunkSize, incr, true, 0))
  {}

  lemma FreshHandsOut(start: int, end: int, incr: int, chunkSize: int)
    requires incr != 0
    ensures HandedOut(WorkShare(CanonicalEnd(start, end, incr), start, chunkSize, incr, true, 0), [], start, end, incr, chunkSize)
  {}

  /** Sections are the loop from 1 to count in chunks of one. */
  lemma SectionsAreALoop(ws: WorkShare, count: nat)
    requires ws.inited ==> ws.next == ws.end || ws.next < ws.end
    ensures var (ws', n) := SectionsStart(ws, count);
      var (ws2, r) := LoopStart(ws, 1, count + 1, 1, 1);
      ws' == ws2 && (r.None? ==> n == 0) && (r.Some? ==> r.value == Range(n, n + 1))
  {}

  // ----- any number of threads, any interleaving -----

  /** What the first n grabs leave and have handed out, whichever threads make them: each either enters the
      loop or asks for more, and both are one critical section. */
  ghost function AfterGrabs(ws: WorkShare, enters: seq<bool>, start: int, end: int, incr: int, chunkSize: int): (WorkShare, seq<Range>) {
    if |enters| == 0 then (ws, [])
    else
      var (ws1, ranges) := AfterGrabs(ws, enters[..|enters|-1], start, end, incr, chunkSize);
      var (ws2, r) := if enters[|enters|-1] then LoopStart(ws1, start, end, incr, chunkSize) else DynamicNext(ws1);
      (ws2, if r.Some? then ranges + [r.value] else ranges)
  }

  /** However the threads' calls interleave, the stretches handed out are whole chunks but for the last one of the
      loop, and once the loop is exhausted they are, one after the other, exactly the sequential loop's iterations. */
  lemma {:induction false} DynamicLoopExactlyOnce(ws: WorkShare, enters: seq<bool>, start: int, end: int, incr: int, chunkSize: int)
    requires incr != 0 && chunkSize >= 1 && !ws.inited && |enters| > 0 && enters[0]
    ensures var (ws', ranges) := AfterGrabs(ws, enters, start, end, incr, chunkSize);
      && ws'.inited && HandedOut(ws', ranges, start, end, incr, chunkSize)
      && (forall i :: 0 <= i < |ranges| && (i < |ranges| - 1 || ws'.next != ws'.end) ==> Size(ranges[i], incr) == chunkSize)
      && (ws'.next == ws'.end ==> Concat(ranges, incr) == Iterations(start, end, incr))
    decreases |enters|
  {
    var n := |enters| - 1;
    var before := enters[..n];
    var (ws1, ranges) := AfterGrabs(ws, before, start, end, incr, chunkSize);
    if n == 0 {
      FreshHandsOut(start, end, incr, chunkSize);
      StartIsGrab(ws, start, end, incr, chunkSize);
      GrabHandsOut(WorkShare(CanonicalEnd(start, end, incr), start, chunkSize, incr, true, 0), [], start, end, incr, chunkSize);
    } else {
      DynamicLoopExactlyOnce(ws, before, start, end, incr, chunkSize);
      StartIsGrab(ws1, start, end, incr, chunkSize);
      GrabHandsOut(ws1, ranges, start, end, incr, chunkSize);
    }
    var (ws', ranges') := AfterGrabs(ws, enters, start, end, incr, chunkSize);
    if ws'.next == ws'.end {
      assert Concat(ranges', incr) + [] == Concat(ranges', incr);
    }
  }

  // ----- apart and on the stride -----

  lemma {:induction false} IterationAt(start: int, end: int, incr: int, i: nat)
    requires i < |Iterations(start, end, incr)|
    ensures Iterations(start, end, incr)[i] == start + i * incr
    decreases i
  {
    if i > 0 {
      IterationAt(start + incr, end, incr, i - 1);
      assert incr + (i - 1) * incr == i * incr;
    }
  }

  /** The sequential loop runs through different iterations, all on its stride. */
  lemma IterationsDiffer(start: int, end: int, incr: int, i: nat, j: nat)
    requires i < j < |Iterations(start, end, incr)|
    ensures Iterations(start, end, incr)[i] != Iterations(start, end, incr)[j]
  {
    IterationAt(start, end, incr, i);
    IterationAt(start, end, incr, j);
    assert Before(start, end, incr);
    Apart(i, j, incr);
  }

  lemma Apart(i: nat, j: nat, incr: int)
    requires i < j && incr != 0
    ensures i * incr != j * incr
  {
    assert (j - i) * incr == j * incr - i * incr;
  }

  /** Where the iterations of the k-th stretch are among all those handed out. */
  lemma {:induction false} StretchAt(ranges: seq<Range>, incr: int, k: nat, m: nat)
    requires k < |ranges| && m < |Iterations(ranges[k].start, ranges[k].end, incr)|
    ensures var at := |Concat(ranges[..k], incr)| + m;
      at < |Concat(ranges, incr)| && Concat(ranges, incr)[at] == Iterations(ranges[k].start, ranges[k].end, incr)[m]
    decreases |ranges|
  {
    var n := |ranges| - 1;
    if k < n {
      StretchAt(ranges[..n], incr, k, m);
      assert ranges[..n][..k] == ranges[..k];
    }
  }

  lemma {:induction false} StretchesInOrder(ranges: seq<Range>, incr: int, j: nat, k: nat)
    requires j < k <= |ranges|
    ensures |Concat(ranges[..j], incr)| + |Iterations(ranges[j].start, ranges[j].end, incr)| <= |Concat(ranges[..k], incr)|
    decreases k
  {
    assert ranges[..k][..k-1] == ranges[..k-1];
    if j < k - 1 { StretchesInOrder(ranges, incr, j, k - 1); }
  }

  lemma StretchHasFirst(ranges: seq<Range>, incr: int, chunkSize: int, k: nat)
    requires InChunks(ranges, incr, chunkSize) && chunkSize >= 1 && k < |ranges|
    ensures Size(ranges[k], incr) >= 1
  {}

  /** Each stretch handed out starts a whole number of steps after the start of the loop. */
  lemma StretchOnStride(ws: WorkShare, ranges: seq<Range>, start: int, end: int, incr: int, chunkSize: int, k: nat)
    requires incr != 0 && chunkSize >= 1 && HandedOut(ws, ranges, start, end, incr, chunkSize) && k < |ranges|
    ensures ranges[k].start == start + |Concat(ranges[..k], incr)| * incr
  {
    StretchHasFirst(ranges, incr, chunkSize, k);
    StretchAt(ranges, incr, k, 0);
    IterationAt(start, end, incr, |Concat(ranges[..k], incr)|);
    IterationAt(ranges[k].start, ranges[k].end, incr, 0);
  }

  /** No two stretches handed out share an iteration. */
  lemma StretchesAreDisjoint(ws: WorkShare, ranges: seq<Range>, start: int, end: int, incr: int, chunkSize: int, j: nat, k: nat, x: int)
    requires HandedOut(ws, ranges, start, end, incr, chunkSize) && j < k < |ranges|
    requires x in Iterations(ranges[j].start, ranges[j].end, incr)
    ensures x !in Iterations(ranges[k].start, ranges[k].end, incr)
  {
    var a, b := Iterations(ranges[j].start, ranges[j].end, incr), Iterations(ranges[k].start, ranges[k].end, incr);
    if x in b {
      var l :| 0 <= l < |a| && a[l] == x;
      var m :| 0 <= m < |b| && b[m] == x;
      StretchAt(ranges, incr, j, l);
      StretchAt(ranges, incr, k, m);
      StretchesInOrder(ranges, incr, j, k);
      IterationsDiffer(start, end, incr, |Concat(ranges[..j], incr)| + l, |Concat(ranges[..k], incr)| + m);
    }
  }

  // ----- the program -----

  const WS_INITED := 0xdeadbeef
  const WS_NOT_INITED := 0

  /** The shared descriptor; each method is one critical section of the program. */
  class Descriptor {
    var end: int
    var next: int
    var chunkSize: int
    var incr: int
    var checkfirst: int
    var completed: nat

    ghost function View(): WorkShare
      reads this
    {
      WorkShare(end, next, chunkSize, incr, checkfirst == WS_INITED, completed)
    }

    constructor ()
      ensures !View().inited
    {
      end, next, chunkSize, incr, completed := 0, 0, 0, 0, 0;
      checkfirst := WS_NOT_INITED;
    }

    method GompIterDynamicNext() returns (ok: bool, pstart: int, pend: int)
      modifies this`next
      ensures var (ws, r) := DynamicNext(old(View()));
        View() == ws && (ok <==> r.Some?) && (ok ==> r.value == Range(pstart, pend))
    {
      pstart, pend := 0, 0;
      var start := next;
      if start == end { return false, pstart, pend; }
      var chunk := chunkSize * incr;
      var left := end - start;
      if incr < 0 {
        if chunk < left { chunk := left; }
      } else {
        if chunk > left { chunk := left; }
      }
      next := start + chunk;
      return true, start, start + chunk;
    }

    method GompLoopDynamicStart(start: int, end: int, incr: int, chunkSize: int) returns (ok: bool, istart: int, iend: int)
      modifies this
      ensures var (ws, r) := LoopStart(old(View()), start, end, incr, chunkSize);
        View() == ws && (ok <==> r.Some?) && (ok ==> r.value == Range(istart, iend))
    {
      if checkfirst != WS_INITED {
        checkfirst := WS_INITED;
        this.chunkSize := chunkSize;
        this.end := if (incr > 0 && start > end) || (incr < 0 && start < end) then start else end;
        this.incr := incr;
        next := start;
        completed := 0;
      }
      istart, iend := 0, 0;
      var first := next;
      if first == this.end { return false, istart, iend; }
      var chunk := chunkSize * incr;
      var left := this.end - first;
      if incr < 0 {
        if chunk < left { chunk := left; }
      } else {
        if chunk > left { chunk := left; }
      }
      next := first + chunk;
      return true, first, first + chunk;
    }

    method GompLoopEnd(nthreads: nat)
      modifies this`completed, this`checkfirst
      ensures View() == LoopEnd(old(View()), nthreads)
    {
      completed := completed + 1;
      if completed == nthreads {
        completed := 0;
        checkfirst := WS_NOT_INITED;
      }
    }

    method GompSectionsStart(count: nat) returns (ret: int)
      modifies this
      ensures (View(), ret) == SectionsStart(old(View()), count)
    {
      if checkfirst != WS_INITED {
        checkfirst := WS_INITED;
        end := count + 1;
        next := 1;
        completed := 0;
        chunkSize := 1;
        incr := 1;
      }
      if next == end { return 0; }
      ret := next;
      next := next + 1;
    }

    method GompSectionsCount(nthreads: nat) returns (last: bool)
      modifies this`completed
      ensures View() == SectionsCount(old(View())) && last == (completed == nthreads)
    {
      completed := completed + 1;
      last := completed == nthreads;
    }

    method GompWorkShareEndNowait(nthreads: nat)
      modifies this
      ensures View() == Reset(old(View()), nthreads)
    {
      if completed == nthreads {
        end := 0;
        next := 0;
        checkfirst := 0;
        completed := 0;
        checkfirst := WS_NOT_INITED;
        chunkSize := 0;
        incr := 0;
      }
    }

    method GompSingleStart(nthreads: nat) returns (ret: bool)
      modifies this`checkfirst, this`completed
      ensures (View(), ret) == SingleStart(old(View()), nthreads)
    {
      ret := checkfirst != WS_INITED;
      if ret {
        checkfirst := WS_INITED;
        completed := 0;
      }
      completed := completed + 1;
      if completed == nthreads { checkfirst := WS_NOT_INITED; }
    }
  }
}
