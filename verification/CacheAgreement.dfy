/** The cache and the memory it fronts: every valid line equals memory, no set holds a line twice, and every
    word returned is memory's. */
module CacheAgreement {
  import opened Arithmetic
  import opened Bits
  import opened CacheSpec

  /** The last of the words still lies in the first one's line. */
  ghost predicate StaysInLine(addr: nat, burst: nat) { burst >= 1 ==> addr % 16 + 4 * (burst - 1) < 16 }

  /** The record, if valid, holds the four words of the line its tag and index stand for. */
  ghost predicate LineAgrees(cc: CacheConfig, r: Record, index: nat, mem: nat -> nat)
    requires |r.data| == 4
  {
    r.valid ==> forall k :: 0 <= k < 4 ==> r.data[k] == mem(4 * (r.tag * cc.Sets() + index) + k)
  }

  ghost predicate Unique(cc: CacheConfig, c: Cache)
    requires c.Shape(cc)
  {
    forall v, w, i :: 0 <= v < w < cc.Ways() && 0 <= i < cc.Sets() && c.storing[v][i].valid && c.storing[w][i].valid ==>
      c.storing[v][i].tag != c.storing[w][i].tag
  }

  /** Every record but possibly one agrees with memory. */
  ghost predicate AgreesBut(cc: CacheConfig, c: Cache, mem: nat -> nat, way: int, index: int)
    requires c.Shape(cc)
  {
    forall w, i :: 0 <= w < cc.Ways() && 0 <= i < cc.Sets() && !(w == way && i == index) ==> LineAgrees(cc, c.storing[w][i], i, mem)
  }

  ghost predicate Coherent(cc: CacheConfig, c: Cache, mem: nat -> nat) {
    c.Shape(cc) && Unique(cc, c) && AgreesBut(cc, c, mem, -1, -1)
  }

  /** n words of the line of addr have come into the way chosen for it. */
  ghost predicate PartlyRefilled(cc: CacheConfig, c: Cache, addr: nat, mem: nat -> nat, loc: nat, n: nat) {
    && c.Shape(cc) && cc.Address(addr) && loc < cc.Ways() && n <= 4 && Index(cc, addr) < cc.Sets()
    && Unique(cc, c) && AgreesBut(cc, c, mem, loc, Index(cc, addr))
    && (if n == 0 then forall w :: 0 <= w < cc.Ways() ==> !Match(c.storing[w][Index(cc, addr)], Tag(cc, addr))
        else Match(c.storing[loc][Index(cc, addr)], Tag(cc, addr))
             && forall k :: 0 <= k < n ==> c.storing[loc][Index(cc, addr)].data[k] == mem(4 * LineOf(addr) + k))
  }

  lemma PlaceIsChosen(cc: CacheConfig, c: Cache, addr: nat, mem: nat -> nat, loc: nat, n: nat)
    requires PartlyRefilled(cc, c, addr, mem, loc, n)
    ensures PlaceOf(cc, c, addr, loc) == loc
  {}

  lemma RefillStep(cc: CacheConfig, c: Cache, addr: nat, mem: nat -> nat, loc: nat, n: nat)
    requires PartlyRefilled(cc, c, addr, mem, loc, n) && n < 4
    ensures var a := LineBase(addr) + 4 * n;
      cc.Address(a) && PartlyRefilled(cc, WriteData(cc, c, a, mem(WordNumber(a)), loc), addr, mem, loc, n + 1)
  {
    var a := LineBase(addr) + 4 * n;
    SameLine(cc, addr, n);
    hide Index, Tag, Word, LineOf;
    SamePlace(cc, c, addr, a, loc);
    PlaceIsChosen(cc, c, addr, mem, loc, n);
  }

  lemma SamePlace(cc: CacheConfig, c: Cache, addr: nat, a: nat, loc: nat)
    requires c.Shape(cc) && cc.Address(addr) && cc.Address(a) && loc < cc.Ways()
    requires Index(cc, a) == Index(cc, addr) && Tag(cc, a) == Tag(cc, addr)
    ensures PlaceOf(cc, c, a, loc) == PlaceOf(cc, c, addr, loc)
  {
    hide Index, Tag;
  }

  lemma {:induction false} RefillCompletes(cc: CacheConfig, c: Cache, addr: nat, mem: nat -> nat, loc: nat, n: nat)
    requires c.Shape(cc) && n <= 4 && loc < cc.Ways() && cc.Address(addr)
    requires PartlyRefilled(cc, c, addr, mem, loc, n) && cc.Span(LineBase(addr), 16)
    ensures PartlyRefilled(cc, RefillFrom(cc, c, LineBase(addr), mem, n, loc), addr, mem, loc, 4)
    decreases 4 - n
  {
    hide WriteData, Pow2, PartlyRefilled, LineBase, WordNumber;
    if n < 4 {
      var base := LineBase(addr);
      RefillStep(cc, c, addr, mem, loc, n);
      var c1 := WriteData(cc, c, base + 4 * n, mem(WordNumber(base + 4 * n)), loc);
      assert RefillFrom(cc, c, base, mem, n, loc) == RefillFrom(cc, c1, base, mem, n + 1, loc);
      hide RefillFrom;
      RefillCompletes(cc, c1, addr, mem, loc, n + 1);
    }
  }

  lemma LineNumber(cc: CacheConfig, addr: nat)
    requires cc.Valid() && cc.Address(addr)
    ensures Tag(cc, addr) * cc.Sets() + Index(cc, addr) == LineOf(addr)
  {
    hide Pow2, Index, Tag, Quotient, Remainder, LineOf;
    SplitAddress(cc, addr);
    QuotientRemainder(LineOf(addr), cc.Sets());
  }

  lemma RefilledIsCoherent(cc: CacheConfig, c: Cache, addr: nat, mem: nat -> nat, loc: nat)
    requires PartlyRefilled(cc, c, addr, mem, loc, 4)
    ensures Coherent(cc, c, mem)
  {
    LineNumber(cc, addr);
    hide Index, Tag, LineOf;
  }

  lemma MissStarts(cc: CacheConfig, c: Cache, addr: nat, mem: nat -> nat, loc: nat)
    requires Coherent(cc, c, mem) && cc.Address(addr) && loc < cc.Ways() && CheckExist(cc, c, addr) == cc.Ways()
    ensures PartlyRefilled(cc, c, addr, mem, loc, 0)
  {
    SplitAddress(cc, addr);
    hide Index, Tag, Pow2;
  }

  /** Hit or miss, the cache a request reads from agrees with memory and holds the line. */
  lemma FetchedIsCoherent(cc: CacheConfig, c: Cache, addr: nat, mem: nat -> nat, dice: nat)
    requires Coherent(cc, c, mem) && cc.Address(addr)
    ensures Coherent(cc, Fetched(cc, c, addr, mem, dice), mem)
  {
    hide PartlyRefilled, RefillFrom, Victim, CheckExist, Pow2;
    if CheckExist(cc, c, addr) == cc.Ways() {
      var loc := Victim(cc, c, addr, dice);
      MissStarts(cc, c, addr, mem, loc);
      LineFits(cc, addr);
      RefillCompletes(cc, c, addr, mem, loc, 0);
      RefilledIsCoherent(cc, Refill(cc, c, addr, mem, loc), addr, mem, loc);
    }
  }

  /** Reading within the line changes no record and returns memory's words. */
  lemma {:induction false} BurstReadsMemory(cc: CacheConfig, c: Cache, addr: nat, burst: nat, way: nat, mem: nat -> nat)
    requires c.Shape(cc) && Coherent(cc, c, mem) && cc.Address(addr) && cc.Span(addr, 4 * burst)
    requires way < cc.Ways() && way == CheckExist(cc, c, addr) && StaysInLine(addr, burst)
    ensures var (c', words) := ReadBurst(cc, c, addr, burst, way);
      c'.storing == c.storing && forall j :: 0 <= j < burst ==> words[j] == mem(WordNumber(addr + 4 * j))
    decreases burst
  {
    hide Coherent, CheckExist, Pow2, ReadData, WordNumber, LineOf, Index, Tag, Word;
    if burst > 0 {
      var a := addr + 4 * (burst - 1);
      assert StaysInLine(addr, burst - 1);
      var (c1, words) := ReadBurst(cc, c, addr, burst - 1, way);
      var (c2, word) := ReadData(cc, c1, a, way);
      assert ReadBurst(cc, c, addr, burst, way) == (c2, words + [word]);
      hide ReadBurst;
      BurstReadsMemory(cc, c, addr, burst - 1, way, mem);
      WordInLine(cc, addr, burst - 1);
      WordReadsMemory(cc, c, c1, addr, a, way, mem);
    }
  }

  lemma WordReadsMemory(cc: CacheConfig, c: Cache, c1: Cache, addr: nat, a: nat, way: nat, mem: nat -> nat)
    requires c.Shape(cc) && Coherent(cc, c, mem) && c1.Shape(cc) && c1.storing == c.storing && cc.Address(addr) && cc.Address(a)
    requires way < cc.Ways() && way == CheckExist(cc, c, addr)
    requires Index(cc, a) == Index(cc, addr) && Tag(cc, a) == Tag(cc, addr) && WordNumber(a) == 4 * LineOf(addr) + Word(cc, a)
    ensures var (c', word) := ReadData(cc, c1, a, way); c'.storing == c.storing && word == mem(WordNumber(a))
  {
    LineNumber(cc, addr);
    SplitAddress(cc, a);
    hide Index, Tag, Word, LineOf, Pow2;
    assert LineAgrees(cc, c.storing[way][Index(cc, addr)], Index(cc, addr), mem);
  }

  lemma WordInLine(cc: CacheConfig, addr: nat, j: nat)
    requires cc.Valid() && cc.Address(addr) && StaysInLine(addr, j + 1)
    ensures var a := addr + 4 * j;
      && cc.Address(a) && Index(cc, a) == Index(cc, addr) && Tag(cc, a) == Tag(cc, addr)
      && WordNumber(a) == 4 * LineOf(addr) + Word(cc, a)
  {
    LineFits(cc, addr);
    var a := addr + 4 * j;
    SplitAddress(cc, addr);
    SplitAddress(cc, a);
    DivisionIs(a, 16, LineOf(addr), addr % 16 + 4 * j);
  }

  lemma SameRecords(cc: CacheConfig, c: Cache, c': Cache, mem: nat -> nat)
    requires Coherent(cc, c, mem) && c'.Shape(cc) && c'.storing == c.storing
    ensures Coherent(cc, c', mem)
  {}

  /** A request within a line returns memory's words and leaves the cache in agreement with memory, whatever
      the organisation, the replacement policy and the random numbers. */
  lemma RequestReadsMemory(cc: CacheConfig, c: Cache, addr: nat, burst: nat, mem: nat -> nat, dice: nat)
    requires Coherent(cc, c, mem) && cc.Address(addr) && cc.Span(addr, 4 * burst)
    requires StaysInLine(addr, burst)
    ensures var (c', words) := HandleRequest(cc, c, addr, burst, mem, dice);
      && Coherent(cc, c', mem) && |words| == burst
      && forall j :: 0 <= j < burst ==> words[j] == mem(WordNumber(addr + 4 * j))
  {
    var c1 := Fetched(cc, c, addr, mem, dice);
    FetchedIsThere(cc, c, addr, mem, dice);
    FetchedIsCoherent(cc, c, addr, mem, dice);
    hide Fetched, Coherent, CheckExist;
    var way := CheckExist(cc, c1, addr);
    BurstReadsMemory(cc, c1, addr, burst, way, mem);
    SameRecords(cc, c1, ReadBurst(cc, c1, addr, burst, way).0, mem);
  }

  // ----- runs -----

  datatype Request = Request(addr: nat, burst: nat, dice: nat)

  ghost predicate WithinLine(cc: CacheConfig, r: Request) {
    cc.Address(r.addr) && cc.Span(r.addr, 4 * r.burst) && StaysInLine(r.addr, r.burst)
  }

  ghost predicate Empty(c: Cache) {
    forall w, i :: 0 <= w < |c.storing| && 0 <= i < |c.storing[w]| ==> !c.storing[w][i].valid
  }

  ghost predicate AllWithinLine(cc: CacheConfig, requests: seq<Request>) {
    forall i :: 0 <= i < |requests| ==> WithinLine(cc, requests[i])
  }

  /** The cache after the first n of a sequence of requests. */
  ghost function After(cc: CacheConfig, c: Cache, requests: seq<Request>, mem: nat -> nat, n: nat): (c': Cache)
    requires c.Shape(cc) && AllWithinLine(cc, requests) && n <= |requests|
    ensures c'.Shape(cc)
  {
    if n == 0 then c
    else
      var r := requests[n-1];
      assert WithinLine(cc, r);
      HandleRequest(cc, After(cc, c, requests, mem, n - 1), r.addr, r.burst, mem, r.dice).0
  }

  /** From an empty cache on, the cache agrees with memory after any sequence of requests. */
  lemma {:induction false} AlwaysCoherent(cc: CacheConfig, c: Cache, requests: seq<Request>, mem: nat -> nat, n: nat)
    requires c.Shape(cc) && Empty(c) && AllWithinLine(cc, requests) && n <= |requests|
    ensures Coherent(cc, After(cc, c, requests, mem, n), mem)
    decreases n
  {
    hide HandleRequest, Coherent, Empty, CacheConfig.Address, CacheConfig.Span, StaysInLine, WordNumber;
    if n == 0 {
      EmptyIsCoherent(cc, c, mem);
    } else {
      AlwaysCoherent(cc, c, requests, mem, n - 1);
      var r := requests[n-1];
      assert WithinLine(cc, r);
      RequestReadsMemory(cc, After(cc, c, requests, mem, n - 1), r.addr, r.burst, mem, r.dice);
    }
  }

  /** So each word any request returns is memory's. */
  lemma EveryWordIsMemorys(cc: CacheConfig, c: Cache, requests: seq<Request>, mem: nat -> nat, n: nat)
    requires c.Shape(cc) && Empty(c) && AllWithinLine(cc, requests) && n < |requests|
    requires WithinLine(cc, requests[n])
    ensures var r := requests[n];
      var words := HandleRequest(cc, After(cc, c, requests, mem, n), r.addr, r.burst, mem, r.dice).1;
      |words| == r.burst && forall j :: 0 <= j < r.burst ==> words[j] == mem(WordNumber(r.addr + 4 * j))
  {
    hide HandleRequest, Coherent, Empty, After, AllWithinLine, CacheConfig.Address, CacheConfig.Span, StaysInLine, WordNumber;
    AlwaysCoherent(cc, c, requests, mem, n);
    var r := requests[n];
    RequestReadsMemory(cc, After(cc, c, requests, mem, n), r.addr, r.burst, mem, r.dice);
  }

  lemma EmptyIsCoherent(cc: CacheConfig, c: Cache, mem: nat -> nat)
    requires c.Shape(cc) && Empty(c)
    ensures Coherent(cc, c, mem)
  {}
}
