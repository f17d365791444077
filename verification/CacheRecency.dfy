/** The LRU counters of the set-associative cache encode how recently each way was touched, so the way given
    up on a miss is the least recently touched one. */
module CacheRecency {
  import opened Arithmetic
  import opened Bits
  import opened CacheSpec
  import opened CacheAgreement

  // ----- one set -----

  ghost predicate WaysOnly(touches: seq<nat>, ways: nat) { forall k :: 0 <= k < |touches| ==> touches[k] < ways }

  /** A set's counters after the ways have been touched in this order. */
  ghost function AfterTouches(initial: nat, ways: nat, touches: seq<nat>): (counters: seq<nat>)
    requires WaysOnly(touches, ways)
    ensures |counters| == ways
  {
    if |touches| == 0 then seq(ways, _ => initial)
    else Touch(AfterTouches(initial, ways, touches[..|touches|-1]), touches[|touches|-1])
  }

  /** When a way was last touched, counting from one; zero if never. */
  function LastTouch(touches: seq<nat>, way: nat): (n: nat)
    ensures n <= |touches|
  {
    if |touches| == 0 then 0
    else if touches[|touches|-1] == way then |touches|
    else LastTouch(touches[..|touches|-1], way)
  }

  /** Each counter is the number of touches to the set since the way's own last one; a way never touched has
      its start value on top of all of them. */
  lemma {:induction false} CounterIsAge(initial: nat, ways: nat, touches: seq<nat>, way: nat)
    requires WaysOnly(touches, ways) && way < ways
    ensures AfterTouches(initial, ways, touches)[way] ==
      |touches| - LastTouch(touches, way) + if LastTouch(touches, way) == 0 then initial else 0
    decreases |touches|
  {
    if |touches| > 0 { CounterIsAge(initial, ways, touches[..|touches|-1], way); }
  }

  lemma {:induction false} LastTouchDistinct(touches: seq<nat>, v: nat, w: nat)
    requires v != w && LastTouch(touches, v) == LastTouch(touches, w)
    ensures LastTouch(touches, v) == 0
  {
    if |touches| > 0 && touches[|touches|-1] != v && touches[|touches|-1] != w {
      LastTouchDistinct(touches[..|touches|-1], v, w);
    }
  }

  /** The way with the largest counter is the least recently touched: ways never touched come first, the
      lowest of them foremost, and of the others the one touched longest ago, which is then unique. */
  lemma LargestIsLeastRecent(initial: nat, ways: nat, touches: seq<nat>)
    requires ways >= 1 && WaysOnly(touches, ways)
    ensures var v := Largest(AfterTouches(initial, ways, touches), ways);
      forall w :: 0 <= w < ways && w != v ==>
        LastTouch(touches, v) < LastTouch(touches, w) || (LastTouch(touches, v) == LastTouch(touches, w) == 0 && v < w)
  {
    var counters := AfterTouches(initial, ways, touches);
    var v := Largest(counters, ways);
    CounterIsAge(initial, ways, touches, v);
    forall w | 0 <= w < ways && w != v
      ensures LastTouch(touches, v) < LastTouch(touches, w) || (LastTouch(touches, v) == LastTouch(touches, w) == 0 && v < w)
    {
      CounterIsAge(initial, ways, touches, w);
      if LastTouch(touches, v) == LastTouch(touches, w) { LastTouchDistinct(touches, v, w); }
    }
  }

  // ----- the cache -----

  /** The counters of every set are those its touches lead to. */
  ghost predicate Tracks(cc: CacheConfig, c: Cache, initial: nat, touches: seq<seq<nat>>) {
    && c.Shape(cc) && cc.replacement.Lru? && cc.associativity > 1 && |touches| == cc.Sets()
    && forall i :: 0 <= i < cc.Sets() ==>
         WaysOnly(touches[i], cc.Ways()) && Counters(c, i) == AfterTouches(initial, cc.Ways(), touches[i])
  }

  function Repeat(way: nat, n: nat): seq<nat> { seq(n, _ => way) }

  function Add(touches: seq<seq<nat>>, index: nat, way: nat, n: nat): seq<seq<nat>>
    requires index < |touches|
  {
    touches[index := touches[index] + Repeat(way, n)]
  }

  lemma AddOne(touches: seq<seq<nat>>, index: nat, way: nat, n: nat)
    requires index < |touches|
    ensures Add(Add(touches, index, way, n), index, way, 1) == Add(touches, index, way, n + 1)
    ensures Add(Add(touches, index, way, 1), index, way, n) == Add(touches, index, way, n + 1)
    ensures Add(touches, index, way, 0) == touches
  {
    assert touches[index] + Repeat(way, n) + Repeat(way, 1) == touches[index] + Repeat(way, n + 1);
    assert touches[index] + Repeat(way, 1) + Repeat(way, n) == touches[index] + Repeat(way, n + 1);
    assert touches[index] + Repeat(way, 0) == touches[index];
  }

  lemma TouchedSet(cc: CacheConfig, c: Cache, index: nat, way: nat, i: nat)
    requires c.Shape(cc) && index < cc.Sets() && way < cc.Ways() && i < cc.Sets() && cc.replacement.Lru? && cc.associativity > 1
    ensures Counters(Use(cc, c, index, way), i) == if i == index then Touch(Counters(c, i), way) else Counters(c, i)
  {}

  lemma UseTracks(cc: CacheConfig, c: Cache, index: nat, way: nat, initial: nat, touches: seq<seq<nat>>)
    requires Tracks(cc, c, initial, touches) && index < cc.Sets() && way < cc.Ways()
    ensures Tracks(cc, Use(cc, c, index, way), initial, Add(touches, index, way, 1))
  {
    var c' := Use(cc, c, index, way);
    var touches' := Add(touches, index, way, 1);
    hide Use, Touch, Pow2;
    forall i | 0 <= i < cc.Sets()
      ensures WaysOnly(touches'[i], cc.Ways()) && Counters(c', i) == AfterTouches(initial, cc.Ways(), touches'[i])
    {
      TouchedSet(cc, c, index, way, i);
      if i == index {
        var n := |touches[i]|;
        assert touches'[i] == touches[i] + [way];
        assert touches'[i][..n] == touches[i];
      }
    }
  }

  lemma SameCounters(cc: CacheConfig, c: Cache, c': Cache, initial: nat, touches: seq<seq<nat>>)
    requires Tracks(cc, c, initial, touches) && c'.Shape(cc) && c'.info == c.info
    ensures Tracks(cc, c', initial, touches)
  {
    hide Pow2;
    forall i | 0 <= i < cc.Sets() ensures Counters(c', i) == Counters(c, i) {}
  }

  lemma WriteTracks(cc: CacheConfig, c: Cache, addr: nat, data: nat, loc: nat, initial: nat, touches: seq<seq<nat>>)
    requires Tracks(cc, c, initial, touches) && cc.Address(addr) && loc < cc.Ways() && Index(cc, addr) < cc.Sets()
    ensures Tracks(cc, WriteData(cc, c, addr, data, loc), initial, Add(touches, Index(cc, addr), PlaceOf(cc, c, addr, loc), 1))
  {
    var index, w := Index(cc, addr), PlaceOf(cc, c, addr, loc);
    UseTracks(cc, c, index, w, initial, touches);
    hide Tracks, Use, Pow2, Index, Tag, PlaceOf;
    SameCounters(cc, Use(cc, c, index, w), WriteData(cc, c, addr, data, loc), initial, Add(touches, index, w, 1));
  }

  /** The rest of a refill touches the way chosen once for each word. */
  lemma {:induction false} RefillTracks(cc: CacheConfig, c: Cache, addr: nat, mem: nat -> nat, loc: nat, n: nat, initial: nat, touches: seq<seq<nat>>)
    requires PartlyRefilled(cc, c, addr, mem, loc, n) && c.Shape(cc) && n <= 4 && loc < cc.Ways() && cc.Address(addr)
    requires cc.Span(LineBase(addr), 16) && Index(cc, addr) < cc.Sets() && Index(cc, addr) < |touches|
    requires Tracks(cc, c, initial, touches)
    ensures Tracks(cc, RefillFrom(cc, c, LineBase(addr), mem, n, loc), initial, Add(touches, Index(cc, addr), loc, 4 - n))
    decreases 4 - n
  {
    hide WriteData, Pow2, PartlyRefilled, LineBase, WordNumber, Tracks, Index, Tag, Add, PlaceOf;
    var index := Index(cc, addr);
    AddOne(touches, index, loc, if n < 4 then 3 - n else 0);
    if n < 4 {
      var a := LineBase(addr) + 4 * n;
      SameLine(cc, addr, n);
      RefillStep(cc, c, addr, mem, loc, n);
      SamePlace(cc, c, addr, a, loc);
      PlaceIsChosen(cc, c, addr, mem, loc, n);
      var c1 := WriteData(cc, c, a, mem(WordNumber(a)), loc);
      assert RefillFrom(cc, c, LineBase(addr), mem, n, loc) == RefillFrom(cc, c1, LineBase(addr), mem, n + 1, loc);
      hide RefillFrom;
      WriteTracks(cc, c, a, mem(WordNumber(a)), loc, initial, touches);
      AddLength(touches, index, loc, 1);
      RefillTracks(cc, c1, addr, mem, loc, n + 1, initial, Add(touches, index, loc, 1));
    }
  }

  lemma AddLength(touches: seq<seq<nat>>, index: nat, way: nat, n: nat)
    requires index < |touches|
    ensures |Add(touches, index, way, n)| == |touches|
  {}

  lemma {:induction false} BurstTracks(cc: CacheConfig, c: Cache, addr: nat, burst: nat, way: nat, initial: nat, touches: seq<seq<nat>>)
    requires c.Shape(cc) && cc.Address(addr) && cc.Span(addr, 4 * burst) && way < cc.Ways() && StaysInLine(addr, burst)
    requires Tracks(cc, c, initial, touches) && Index(cc, addr) < cc.Sets() && Index(cc, addr) < |touches|
    ensures Tracks(cc, ReadBurst(cc, c, addr, burst, way).0, initial, Add(touches, Index(cc, addr), way, burst))
    decreases burst
  {
    hide Pow2, Tracks, Index, Tag, Add, Use, Word, WordNumber, LineOf;
    var index := Index(cc, addr);
    AddOne(touches, index, way, if burst > 0 then burst - 1 else 0);
    if burst > 0 {
      assert StaysInLine(addr, burst - 1);
      BurstTracks(cc, c, addr, burst - 1, way, initial, touches);
      WordInLine(cc, addr, burst - 1);
      AddLength(touches, index, way, burst - 1);
      UseTracks(cc, ReadBurst(cc, c, addr, burst - 1, way).0, index, way, initial, Add(touches, index, way, burst - 1));
    }
  }

  // ----- requests and runs -----

  lemma FoundIsChosen(cc: CacheConfig, c: Cache, addr: nat, mem: nat -> nat, loc: nat)
    requires PartlyRefilled(cc, c, addr, mem, loc, 4)
    ensures CheckExist(cc, c, addr) == loc
  {
    hide Pow2, Index, Tag, LineOf;
  }

  /** The touches a request adds: on a hit one for each word, on a miss four more for the refill. */
  ghost function TouchesAfter(cc: CacheConfig, c: Cache, r: Request, mem: nat -> nat, touches: seq<seq<nat>>): (t: seq<seq<nat>>)
    requires c.Shape(cc) && cc.Address(r.addr) && |touches| == cc.Sets()
    ensures |t| == cc.Sets()
  {
    SplitAddress(cc, r.addr);
    Add(touches, Index(cc, r.addr), CheckExist(cc, Fetched(cc, c, r.addr, mem, r.dice), r.addr),
        if CheckExist(cc, c, r.addr) < cc.Ways() then r.burst else 4 + r.burst)
  }

  lemma FetchTracks(cc: CacheConfig, c: Cache, r: Request, mem: nat -> nat, initial: nat, touches: seq<seq<nat>>)
    requires c.Shape(cc) && Coherent(cc, c, mem) && Tracks(cc, c, initial, touches) && cc.Address(r.addr)
    requires Index(cc, r.addr) < cc.Sets() && Index(cc, r.addr) < |touches|
    requires CheckExist(cc, c, r.addr) == cc.Ways()
    ensures var c1 := Fetched(cc, c, r.addr, mem, r.dice);
      Tracks(cc, c1, initial, Add(touches, Index(cc, r.addr), CheckExist(cc, c1, r.addr), 4))
  {
    hide Pow2, Tracks, Index, Tag, Add, PartlyRefilled, Coherent, CheckExist, RefillFrom, Victim;
    var loc := Victim(cc, c, r.addr, r.dice);
    MissStarts(cc, c, r.addr, mem, loc);
    LineFits(cc, r.addr);
    RefillCompletes(cc, c, r.addr, mem, loc, 0);
    FoundIsChosen(cc, Refill(cc, c, r.addr, mem, loc), r.addr, mem, loc);
    RefillTracks(cc, c, r.addr, mem, loc, 0, initial, touches);
  }

  lemma AddTwice(touches: seq<seq<nat>>, index: nat, way: nat, m: nat, n: nat)
    requires index < |touches|
    ensures |Add(touches, index, way, m)| == |touches|
    ensures Add(Add(touches, index, way, m), index, way, n) == Add(touches, index, way, m + n)
  {
    assert touches[index] + Repeat(way, m) + Repeat(way, n) == touches[index] + Repeat(way, m + n);
  }

  lemma RequestTracks(cc: CacheConfig, c: Cache, r: Request, mem: nat -> nat, initial: nat, touches: seq<seq<nat>>)
    requires c.Shape(cc) && Coherent(cc, c, mem) && WithinLine(cc, r) && |touches| == cc.Sets() && Tracks(cc, c, initial, touches)
    ensures Tracks(cc, HandleRequest(cc, c, r.addr, r.burst, mem, r.dice).0, initial, TouchesAfter(cc, c, r, mem, touches))
  {
    hide Pow2, Tracks, Index, Tag, Word, Add, Coherent, CheckExist, Refill, Victim, ReadBurst, Quotient, Remainder, LineOf;
    SplitAddress(cc, r.addr);
    var c1 := Fetched(cc, c, r.addr, mem, r.dice);
    FetchedIsThere(cc, c, r.addr, mem, r.dice);
    var way, index := CheckExist(cc, c1, r.addr), Index(cc, r.addr);
    assert HandleRequest(cc, c, r.addr, r.burst, mem, r.dice) == ReadBurst(cc, c1, r.addr, r.burst, way);
    if CheckExist(cc, c, r.addr) < cc.Ways() {
      BurstTracks(cc, c1, r.addr, r.burst, way, initial, touches);
    } else {
      FetchTracks(cc, c, r, mem, initial, touches);
      AddTwice(touches, index, way, 4, r.burst);
      BurstTracks(cc, c1, r.addr, r.burst, way, initial, Add(touches, index, way, 4));
    }
  }

  /** The touches of every set in the first n requests of a run. */
  ghost function History(cc: CacheConfig, c: Cache, requests: seq<Request>, mem: nat -> nat, n: nat): (t: seq<seq<nat>>)
    requires c.Shape(cc) && AllWithinLine(cc, requests) && n <= |requests|
    ensures |t| == cc.Sets()
  {
    if n == 0 then seq(cc.Sets(), _ => [])
    else
      assert WithinLine(cc, requests[n-1]);
      TouchesAfter(cc, After(cc, c, requests, mem, n - 1), requests[n-1], mem, History(cc, c, requests, mem, n - 1))
  }

  /** All counters start at one value, as the program sets them. */
  ghost predicate Fresh(cc: CacheConfig, c: Cache, initial: nat) {
    && c.Shape(cc) && Empty(c) && forall w, i :: 0 <= w < cc.Ways() && 0 <= i < cc.Sets() ==> c.info[w][i] == initial
  }

  lemma FreshTracks(cc: CacheConfig, c: Cache, initial: nat)
    requires Fresh(cc, c, initial) && cc.replacement.Lru? && cc.associativity > 1
    ensures Tracks(cc, c, initial, seq(cc.Sets(), _ => []))
  {
    forall i | 0 <= i < cc.Sets() ensures Counters(c, i) == AfterTouches(initial, cc.Ways(), []) {}
  }

  lemma {:induction false} CountersTrackHistory(cc: CacheConfig, c: Cache, requests: seq<Request>, mem: nat -> nat, n: nat, initial: nat)
    requires c.Shape(cc) && Fresh(cc, c, initial) && cc.replacement.Lru? && cc.associativity > 1
    requires AllWithinLine(cc, requests) && n <= |requests|
    ensures Tracks(cc, After(cc, c, requests, mem, n), initial, History(cc, c, requests, mem, n))
    decreases n
  {
    hide Pow2, Tracks, HandleRequest, TouchesAfter, Coherent;
    if n == 0 {
      FreshTracks(cc, c, initial);
    } else {
      assert WithinLine(cc, requests[n-1]);
      CountersTrackHistory(cc, c, requests, mem, n - 1, initial);
      AlwaysCoherent(cc, c, requests, mem, n - 1);
      RequestTracks(cc, After(cc, c, requests, mem, n - 1), requests[n-1], mem, initial, History(cc, c, requests, mem, n - 1));
    }
  }

  /** In every run of requests, the way the cache would give up in a set is its least recently touched one. */
  lemma EvictsLeastRecent(cc: CacheConfig, c: Cache, requests: seq<Request>, mem: nat -> nat, n: nat, initial: nat, index: nat, dice: nat)
    requires c.Shape(cc) && Fresh(cc, c, initial) && cc.replacement.Lru? && cc.associativity > 1
    requires AllWithinLine(cc, requests) && n <= |requests| && index < cc.Sets()
    ensures var touches := History(cc, c, requests, mem, n)[index];
      var v := WhereTo(cc, After(cc, c, requests, mem, n), index, dice);
      forall w :: 0 <= w < cc.Ways() && w != v ==>
        LastTouch(touches, v) < LastTouch(touches, w) || (LastTouch(touches, v) == LastTouch(touches, w) == 0 && v < w)
  {
    CountersTrackHistory(cc, c, requests, mem, n, initial);
    hide Pow2, After, AfterTouches, LastTouch;
    LargestIsLeastRecent(initial, cc.Ways(), History(cc, c, requests, mem, n)[index]);
  }
}
