/** The FIFO tickets of the set-associative cache encode the order in which lines were brought in, so the way given
    up on a miss is the one filled longest ago; and what a miss leaves alone. */
module CacheFifo {
  import opened Arithmetic
  import opened Bits
  import opened CacheSpec
  import opened CacheAgreement
  import opened CacheRecency

  // ----- a miss -----

  /** A miss brings the line into the way given up, and touches no other record. */
  lemma MissFillsVictim(cc: CacheConfig, c: Cache, addr: nat, mem: nat -> nat, dice: nat)
    requires c.Shape(cc) && Coherent(cc, c, mem) && cc.Address(addr) && CheckExist(cc, c, addr) == cc.Ways() && Index(cc, addr) < cc.Sets()
    ensures var c' := Fetched(cc, c, addr, mem, dice);
      var victim := WhereTo(cc, c, Index(cc, addr), dice);
      && CheckExist(cc, c', addr) == victim
      && forall w, i :: 0 <= w < cc.Ways() && 0 <= i < cc.Sets() && !(w == victim && i == Index(cc, addr)) ==>
           c'.storing[w][i] == c.storing[w][i]
  {
    hide Pow2, Index, Tag, PartlyRefilled, Coherent, CheckExist, RefillFrom, WhereTo;
    var loc := Victim(cc, c, addr, dice);
    MissStarts(cc, c, addr, mem, loc);
    LineFits(cc, addr);
    RefillCompletes(cc, c, addr, mem, loc, 0);
    FoundIsChosen(cc, Refill(cc, c, addr, mem, loc), addr, mem, loc);
    RefillStays(cc, c, addr, mem, loc, 0);
  }

  lemma WriteStays(cc: CacheConfig, c: Cache, addr: nat, data: nat, loc: nat)
    requires c.Shape(cc) && cc.Address(addr) && loc < cc.Ways() && Index(cc, addr) < cc.Sets()
    ensures var c' := WriteData(cc, c, addr, data, loc);
      forall w, i :: 0 <= w < cc.Ways() && 0 <= i < cc.Sets() && !(w == PlaceOf(cc, c, addr, loc) && i == Index(cc, addr)) ==>
        c'.storing[w][i] == c.storing[w][i]
  {
    hide Pow2, Index, Tag, PlaceOf, Use, Word;
  }

  lemma {:induction false} RefillStays(cc: CacheConfig, c: Cache, addr: nat, mem: nat -> nat, loc: nat, n: nat)
    requires PartlyRefilled(cc, c, addr, mem, loc, n) && c.Shape(cc) && n <= 4 && loc < cc.Ways() && cc.Address(addr)
    requires cc.Span(LineBase(addr), 16) && Index(cc, addr) < cc.Sets()
    ensures var c' := RefillFrom(cc, c, LineBase(addr), mem, n, loc);
      forall w, i :: 0 <= w < cc.Ways() && 0 <= i < cc.Sets() && !(w == loc && i == Index(cc, addr)) ==> c'.storing[w][i] == c.storing[w][i]
    decreases 4 - n
  {
    hide WriteData, Pow2, PartlyRefilled, LineBase, WordNumber, Index, Tag, PlaceOf;
    if n < 4 {
      var a := LineBase(addr) + 4 * n;
      SameLine(cc, addr, n);
      RefillStep(cc, c, addr, mem, loc, n);
      SamePlace(cc, c, addr, a, loc);
      PlaceIsChosen(cc, c, addr, mem, loc, n);
      WriteStays(cc, c, a, mem(WordNumber(a)), loc);
      var c1 := WriteData(cc, c, a, mem(WordNumber(a)), loc);
      assert RefillFrom(cc, c, LineBase(addr), mem, n, loc) == RefillFrom(cc, c1, LineBase(addr), mem, n + 1, loc);
      hide RefillFrom;
      RefillStays(cc, c1, addr, mem, loc, n + 1);
    }
  }

  // ----- tickets -----

  ghost predicate IsFifo(cc: CacheConfig) { cc.replacement.Fifo? && cc.associativity > 1 }

  /** Only the way being filled gets a new ticket. */
  lemma WriteTicket(cc: CacheConfig, c: Cache, addr: nat, data: nat, loc: nat)
    requires IsFifo(cc) && c.Shape(cc) && cc.Address(addr) && loc < cc.Ways() && Index(cc, addr) < cc.Sets()
    ensures var c' := WriteData(cc, c, addr, data, loc);
      && c'.nextIp == c.nextIp + 1
      && forall w, i :: 0 <= w < cc.Ways() && 0 <= i < cc.Sets() ==>
           c'.info[w][i] == if w == PlaceOf(cc, c, addr, loc) && i == Index(cc, addr) then c.nextIp else c.info[w][i]
  {
    hide Pow2, Index, Tag, PlaceOf, Word;
  }

  lemma {:induction false} RefillTickets(cc: CacheConfig, c: Cache, addr: nat, mem: nat -> nat, loc: nat, n: nat)
    requires IsFifo(cc) && PartlyRefilled(cc, c, addr, mem, loc, n) && c.Shape(cc) && n <= 4 && loc < cc.Ways() && cc.Address(addr)
    requires cc.Span(LineBase(addr), 16) && Index(cc, addr) < cc.Sets()
    ensures var c' := RefillFrom(cc, c, LineBase(addr), mem, n, loc);
      && c'.nextIp == c.nextIp + (4 - n)
      && forall w, i :: 0 <= w < cc.Ways() && 0 <= i < cc.Sets() ==>
           c'.info[w][i] == if n < 4 && w == loc && i == Index(cc, addr) then c.nextIp + 3 - n else c.info[w][i]
    decreases 4 - n
  {
    hide WriteData, Pow2, PartlyRefilled, LineBase, WordNumber, Index, Tag, PlaceOf;
    if n < 4 {
      var a := LineBase(addr) + 4 * n;
      SameLine(cc, addr, n);
      RefillStep(cc, c, addr, mem, loc, n);
      SamePlace(cc, c, addr, a, loc);
      PlaceIsChosen(cc, c, addr, mem, loc, n);
      WriteTicket(cc, c, a, mem(WordNumber(a)), loc);
      var c1 := WriteData(cc, c, a, mem(WordNumber(a)), loc);
      assert RefillFrom(cc, c, LineBase(addr), mem, n, loc) == RefillFrom(cc, c1, LineBase(addr), mem, n + 1, loc);
      hide RefillFrom;
      RefillTickets(cc, c1, addr, mem, loc, n + 1);
    }
  }

  /** Reading hands out no ticket. */
  lemma {:induction false} BurstKeepsTickets(cc: CacheConfig, c: Cache, addr: nat, burst: nat, way: nat)
    requires IsFifo(cc) && c.Shape(cc) && cc.Address(addr) && cc.Span(addr, 4 * burst) && way < cc.Ways()
    ensures ReadBurst(cc, c, addr, burst, way).0.info == c.info && ReadBurst(cc, c, addr, burst, way).0.nextIp == c.nextIp
    decreases burst
  {
    hide Pow2, Index, Tag, Word;
    if burst > 0 { BurstKeepsTickets(cc, c, addr, burst - 1, way); }
  }

  // ----- runs -----

  /** The ways filled in every set so far, in order: a miss adds the way in which its line then is. */
  ghost function FillsAfter(cc: CacheConfig, c: Cache, r: Request, mem: nat -> nat, fills: seq<seq<nat>>): (f: seq<seq<nat>>)
    requires c.Shape(cc) && cc.Address(r.addr) && |fills| == cc.Sets()
    ensures |f| == cc.Sets()
  {
    SplitAddress(cc, r.addr);
    if CheckExist(cc, c, r.addr) < cc.Ways() then fills
    else fills[Index(cc, r.addr) := fills[Index(cc, r.addr)] + [CheckExist(cc, Fetched(cc, c, r.addr, mem, r.dice), r.addr)]]
  }

  ghost function Fills(cc: CacheConfig, c: Cache, requests: seq<Request>, mem: nat -> nat, n: nat): (f: seq<seq<nat>>)
    requires c.Shape(cc) && AllWithinLine(cc, requests) && n <= |requests|
    ensures |f| == cc.Sets()
  {
    if n == 0 then seq(cc.Sets(), _ => [])
    else
      assert WithinLine(cc, requests[n-1]);
      FillsAfter(cc, After(cc, c, requests, mem, n - 1), requests[n-1], mem, Fills(cc, c, requests, mem, n - 1))
  }

  /** In one set, the tickets are in the order of the last fills; a way never filled has none. */
  ghost predicate InOrder(c: Cache, index: nat, ways: nat, fills: seq<nat>)
    requires |c.info| == ways && forall w :: 0 <= w < ways ==> index < |c.info[w]|
  {
    && (forall w :: 0 <= w < ways ==> if LastTouch(fills, w) == 0 then c.info[w][index] == 0 else 0 < c.info[w][index] < c.nextIp)
    && forall v, w :: 0 <= v < ways && 0 <= w < ways && 0 < LastTouch(fills, v) < LastTouch(fills, w) ==> c.info[v][index] < c.info[w][index]
  }

  ghost predicate TicketsTrack(cc: CacheConfig, c: Cache, fills: seq<seq<nat>>) {
    && c.Shape(cc) && IsFifo(cc) && |fills| == cc.Sets()
    && forall i :: 0 <= i < cc.Sets() ==> InOrder(c, i, cc.Ways(), fills[i])
  }

  lemma LastTouchGrows(fills: seq<nat>, w: nat, v: nat)
    ensures LastTouch(fills + [w], v) == if v == w then |fills| + 1 else LastTouch(fills, v)
  {
    assert (fills + [w])[..|fills|] == fills;
  }

  lemma FillInOrder(c: Cache, c': Cache, index: nat, ways: nat, fills: seq<nat>, loc: nat)
    requires |c.info| == |c'.info| == ways && loc < ways && (forall w :: 0 <= w < ways ==> index < |c.info[w]| && index < |c'.info[w]|)
    requires InOrder(c, index, ways, fills) && c'.nextIp == c.nextIp + 4
    requires forall w :: 0 <= w < ways ==> c'.info[w][index] == if w == loc then c.nextIp + 3 else c.info[w][index]
    ensures InOrder(c', index, ways, fills + [loc])
  {
    forall v | 0 <= v < ways ensures LastTouch(fills + [loc], v) == if v == loc then |fills| + 1 else LastTouch(fills, v) {
      LastTouchGrows(fills, loc, v);
    }
    hide LastTouch;
  }

  lemma SameOrder(c: Cache, c': Cache, index: nat, ways: nat, fills: seq<nat>)
    requires |c.info| == |c'.info| == ways && (forall w :: 0 <= w < ways ==> index < |c.info[w]| && index < |c'.info[w]|)
    requires InOrder(c, index, ways, fills) && c'.nextIp >= c.nextIp
    requires forall w :: 0 <= w < ways ==> c'.info[w][index] == c.info[w][index]
    ensures InOrder(c', index, ways, fills)
  {
    hide LastTouch;
  }

  lemma RequestTickets(cc: CacheConfig, c: Cache, r: Request, mem: nat -> nat, fills: seq<seq<nat>>)
    requires Coherent(cc, c, mem) && c.Shape(cc) && WithinLine(cc, r) && |fills| == cc.Sets() && TicketsTrack(cc, c, fills)
    ensures TicketsTrack(cc, HandleRequest(cc, c, r.addr, r.burst, mem, r.dice).0, FillsAfter(cc, c, r, mem, fills))
  {
    hide Pow2, Index, Tag, Word, Coherent, CheckExist, RefillFrom, Victim, ReadBurst, Quotient, Remainder, LineOf, InOrder, PartlyRefilled, LineBase;
    SplitAddress(cc, r.addr);
    var index := Index(cc, r.addr);
    var c1 := Fetched(cc, c, r.addr, mem, r.dice);
    FetchedIsThere(cc, c, r.addr, mem, r.dice);
    var way := CheckExist(cc, c1, r.addr);
    assert HandleRequest(cc, c, r.addr, r.burst, mem, r.dice) == ReadBurst(cc, c1, r.addr, r.burst, way);
    BurstKeepsTickets(cc, c1, r.addr, r.burst, way);
    var c2 := ReadBurst(cc, c1, r.addr, r.burst, way).0;
    var fills' := FillsAfter(cc, c, r, mem, fills);
    if CheckExist(cc, c, r.addr) < cc.Ways() {
      forall i | 0 <= i < cc.Sets() ensures InOrder(c2, i, cc.Ways(), fills'[i]) { SameOrder(c, c2, i, cc.Ways(), fills[i]); }
    } else {
      FetchTickets(cc, c, r, mem);
      forall i | 0 <= i < cc.Sets() ensures InOrder(c2, i, cc.Ways(), fills'[i]) {
        if i == index { FillInOrder(c, c2, i, cc.Ways(), fills[i], way); } else { SameOrder(c, c2, i, cc.Ways(), fills[i]); }
      }
    }
  }

  lemma FetchTickets(cc: CacheConfig, c: Cache, r: Request, mem: nat -> nat)
    requires IsFifo(cc) && Coherent(cc, c, mem) && c.Shape(cc) && cc.Address(r.addr) && Index(cc, r.addr) < cc.Sets()
    requires CheckExist(cc, c, r.addr) == cc.Ways()
    ensures var c1 := Fetched(cc, c, r.addr, mem, r.dice);
      && c1.nextIp == c.nextIp + 4
      && forall w, i :: 0 <= w < cc.Ways() && 0 <= i < cc.Sets() ==>
           c1.info[w][i] == if w == CheckExist(cc, c1, r.addr) && i == Index(cc, r.addr) then c.nextIp + 3 else c.info[w][i]
  {
    hide Pow2, Index, Tag, PartlyRefilled, Coherent, CheckExist, RefillFrom, Victim;
    var loc := Victim(cc, c, r.addr, r.dice);
    MissStarts(cc, c, r.addr, mem, loc);
    LineFits(cc, r.addr);
    RefillCompletes(cc, c, r.addr, mem, loc, 0);
    FoundIsChosen(cc, Refill(cc, c, r.addr, mem, loc), r.addr, mem, loc);
    RefillTickets(cc, c, r.addr, mem, loc, 0);
  }

  lemma FreshTickets(cc: CacheConfig, c: Cache)
    requires Fresh(cc, c, 0) && IsFifo(cc)
    ensures TicketsTrack(cc, c, seq(cc.Sets(), _ => []))
  {
    forall i | 0 <= i < cc.Sets() ensures InOrder(c, i, cc.Ways(), []) {}
  }

  lemma {:induction false} TicketsTrackFills(cc: CacheConfig, c: Cache, requests: seq<Request>, mem: nat -> nat, n: nat)
    requires c.Shape(cc) && Fresh(cc, c, 0) && IsFifo(cc) && AllWithinLine(cc, requests) && n <= |requests|
    ensures TicketsTrack(cc, After(cc, c, requests, mem, n), Fills(cc, c, requests, mem, n))
    decreases n
  {
    hide Pow2, TicketsTrack, HandleRequest, FillsAfter, Coherent;
    if n == 0 {
      FreshTickets(cc, c);
    } else {
      assert WithinLine(cc, requests[n-1]);
      TicketsTrackFills(cc, c, requests, mem, n - 1);
      AlwaysCoherent(cc, c, requests, mem, n - 1);
      RequestTickets(cc, After(cc, c, requests, mem, n - 1), requests[n-1], mem, Fills(cc, c, requests, mem, n - 1));
    }
  }

  lemma SmallestIsFirstFilled(c: Cache, index: nat, ways: nat, fills: seq<nat>)
    requires ways >= 1 && |c.info| == ways && (forall w :: 0 <= w < ways ==> index < |c.info[w]|) && InOrder(c, index, ways, fills)
    ensures var v := Smallest(Counters(c, index), ways);
      forall w :: 0 <= w < ways && w != v ==>
        LastTouch(fills, v) < LastTouch(fills, w) || (LastTouch(fills, v) == LastTouch(fills, w) == 0 && v < w)
  {
    var v := Smallest(Counters(c, index), ways);
    forall w | 0 <= w < ways && w != v
      ensures LastTouch(fills, v) < LastTouch(fills, w) || (LastTouch(fills, v) == LastTouch(fills, w) == 0 && v < w)
    {
      assert Counters(c, index)[v] == c.info[v][index] && Counters(c, index)[w] == c.info[w][index];
      if LastTouch(fills, v) == LastTouch(fills, w) { LastTouchDistinct(fills, v, w); }
    }
  }

  /** In every run of requests from an empty cache, the way the cache would give up in a set is the one whose line
      was brought in longest ago: ways never filled first, the lowest of them foremost. */
  lemma EvictsFirstFilled(cc: CacheConfig, c: Cache, requests: seq<Request>, mem: nat -> nat, n: nat, index: nat, dice: nat)
    requires c.Shape(cc) && Fresh(cc, c, 0) && cc.replacement.Fifo? && cc.associativity > 1
    requires AllWithinLine(cc, requests) && n <= |requests| && index < cc.Sets()
    ensures var fills := Fills(cc, c, requests, mem, n)[index];
      var v := WhereTo(cc, After(cc, c, requests, mem, n), index, dice);
      forall w :: 0 <= w < cc.Ways() && w != v ==>
        LastTouch(fills, v) < LastTouch(fills, w) || (LastTouch(fills, v) == LastTouch(fills, w) == 0 && v < w)
  {
    TicketsTrackFills(cc, c, requests, mem, n);
    hide Pow2, After, LastTouch, InOrder;
    SmallestIsFirstFilled(After(cc, c, requests, mem, n), index, cc.Ways(), Fills(cc, c, requests, mem, n)[index]);
  }

  /** Under random replacement every way may be given up, and which one is up to the random number alone. */
  lemma RandomReachesAll(cc: CacheConfig, c: Cache, index: nat, way: nat) returns (dice: nat)
    requires c.Shape(cc) && index < cc.Sets() && cc.replacement.Random? && cc.associativity > 1 && way < cc.Ways()
    ensures WhereTo(cc, c, index, dice) == way
    ensures forall c2: Cache, i: nat :: c2.Shape(cc) && i < cc.Sets() ==> WhereTo(cc, c2, i, dice) == way
  {
    hide Pow2;
    dice := way;
  }
}
