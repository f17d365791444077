/** The instruction cache, direct-mapped or set-associative, with lines of 16 bytes: how it finds, refills and
    replaces lines, as functions of its records. */
module CacheSpec {
  import opened Arithmetic
  import opened Bits

  datatype Replacement = Random | Fifo | Lru

  /** associativity 0 means direct-mapped; a way has a power of two of records; addresses are as wide as the
      program's unsigned type. */
  datatype CacheConfig = CacheConfig(associativity: nat, setBits: nat, addressBits: nat, replacement: Replacement)
  {
    ghost predicate Valid() { associativity != 1 && setBits + 4 <= addressBits }

    ghost predicate Address(addr: int) { 0 <= addr < Pow2(addressBits) }

    ghost predicate Span(addr: int, bytes: int) { 0 <= addr && addr + bytes <= Pow2(addressBits) }

    function Ways(): nat { if associativity == 0 then 1 else associativity }
    function Sets(): nat { Pow2(setBits) }
  }

  // ----- splitting an address -----

  /** The bits from `low` up to, not including, `high`. */
  function Mask(low: nat, high: nat): nat
    requires low <= high
  {
    Pow2Grows(low, high);
    Pow2(high) - Pow2(low)
  }

  function Offset(cc: CacheConfig, addr: nat): nat { And(addr, Mask(0, 4)) }

  function Index(cc: CacheConfig, addr: nat): nat { Quotient(And(addr, Mask(4, cc.setBits + 4)), Pow2(4)) }

  function Tag(cc: CacheConfig, addr: nat): nat
    requires cc.Valid()
  {
    Quotient(And(addr, Mask(cc.setBits + 4, cc.addressBits)), Pow2(cc.setBits + 4))
  }

  function Word(cc: CacheConfig, addr: nat): nat { Offset(cc, addr) / 4 }

  lemma Sixteen()
    ensures Pow2(4) == 16
  {
    assert Pow2(4) == 2 * Pow2(3) && Pow2(3) == 2 * Pow2(2) && Pow2(2) == 2 * Pow2(1) && Pow2(1) == 2 * Pow2(0);
  }

  lemma SixteenTimes(k: nat)
    ensures Pow2(k + 4) == 16 * Pow2(k)
  {
    assert Pow2(k + 4) == 2 * Pow2(k + 3) && Pow2(k + 3) == 2 * Pow2(k + 2);
    assert Pow2(k + 2) == 2 * Pow2(k + 1) && Pow2(k + 1) == 2 * Pow2(k);
  }

  function LineOf(addr: nat): nat { addr / 16 }

  /** Where the line of an address begins, and the number of its word in memory. */
  function LineBase(addr: nat): nat { addr - addr % 16 }

  function WordNumber(addr: nat): nat { addr / 4 }

  /** What the masks compute: the line number modulo the sets, the rest of it, and the place in the line. */
  lemma SplitAddress(cc: CacheConfig, addr: nat)
    requires cc.Valid() && cc.Address(addr)
    ensures Offset(cc, addr) == addr % 16
    ensures Index(cc, addr) == Remainder(LineOf(addr), cc.Sets()) < cc.Sets() && Tag(cc, addr) == Quotient(LineOf(addr), cc.Sets())
    ensures Word(cc, addr) == addr % 16 / 4 < 4
  {
    hide Pow2, And, Quotient, Remainder, LineOf;
    Sixteen();
    SixteenTimes(cc.setBits);
    OffsetIs(addr);
    FieldIs(addr, 4, cc.setBits + 4);
    FieldIs(addr, cc.setBits + 4, cc.addressBits);
    FieldsSplit(addr, cc.Sets(), Pow2(cc.addressBits));
  }

  lemma OffsetIs(addr: nat)
    ensures And(addr, Mask(0, 4)) == addr % 16
  {
    Sixteen();
    AndLowMask(addr, 4);
  }

  lemma FieldIs(addr: nat, low: nat, high: nat)
    requires low <= high
    ensures And(addr, Mask(low, high)) == Remainder(addr, Pow2(high)) - Remainder(addr, Pow2(low))
  {
    AndFieldMask(addr, low, high);
  }

  lemma FieldsSplit(addr: nat, n: nat, all: nat)
    requires n >= 1 && addr < all
    ensures Remainder(addr, 16 * n) >= Remainder(addr, 16)
    ensures Quotient(Remainder(addr, 16 * n) - Remainder(addr, 16), 16) == Remainder(LineOf(addr), n)
    ensures Remainder(addr, all) >= Remainder(addr, 16 * n)
    ensures Quotient(Remainder(addr, all) - Remainder(addr, 16 * n), 16 * n) == Quotient(LineOf(addr), n)
  {
    var q, r := addr / 16 / n, addr / 16 % n;
    WaySplit(addr, n, q, r);
    DivisionIs(addr, all, 0, addr);
    DivisionIs(16 * r, 16, r, 0);
  }

  lemma WaySplit(addr: nat, n: nat, q: nat, r: nat)
    requires n >= 1 && r < n && addr / 16 == q * n + r
    ensures addr % (16 * n) == 16 * r + addr % 16
    ensures addr >= addr % (16 * n) && Quotient(addr - addr % (16 * n), 16 * n) == q
  {
    var low := 16 * r + addr % 16;
    Regroup(q, n);
    DivisionIs(addr, 16 * n, q, low);
    DivisionIs(addr - low, 16 * n, q, 0);
  }

  lemma Regroup(q: nat, n: nat)
    ensures q * (16 * n) == 16 * (q * n)
  {}

  // ----- records -----

  datatype Record = Record(data: seq<nat>, tag: nat, valid: bool, dirty: nat)

  /** storing[way][index], the replacement counters laid out alike, and the FIFO ticket. */
  datatype Cache = Cache(storing: seq<seq<Record>>, info: seq<seq<nat>>, nextIp: nat)
  {
    ghost predicate Shape(cc: CacheConfig) {
      && cc.Valid() && |storing| == |info| == cc.Ways()
      && (forall w :: 0 <= w < |storing| ==> |storing[w]| == |info[w]| == cc.Sets())
      && forall w, i :: 0 <= w < |storing| && 0 <= i < |storing[w]| ==> |storing[w][i].data| == 4
    }
  }

  predicate Match(r: Record, tag: nat) { r.valid && r.tag == tag }

  /** The first way from w on that holds the tag. */
  function FindWay(c: Cache, index: nat, tag: nat, w: nat): (r: nat)
    requires w <= |c.storing| && forall v :: 0 <= v < |c.storing| ==> index < |c.storing[v]|
    ensures w <= r <= |c.storing|
    ensures r < |c.storing| ==> Match(c.storing[r][index], tag)
    ensures forall v :: w <= v < r ==> !Match(c.storing[v][index], tag)
    decreases |c.storing| - w
  {
    if w == |c.storing| || Match(c.storing[w][index], tag) then w else FindWay(c, index, tag, w + 1)
  }

  /** All counters of the set go up, and the touched way's goes to zero. */
  function Touch(counters: seq<nat>, way: nat): seq<nat>
    requires way < |counters|
  {
    seq(|counters|, w requires 0 <= w < |counters| => if w == way then 0 else counters[w] + 1)
  }

  /** One set's counters. */
  function Counters(c: Cache, index: nat): seq<nat>
    requires forall w :: 0 <= w < |c.info| ==> index < |c.info[w]|
  {
    seq(|c.info|, w requires 0 <= w < |c.info| => c.info[w][index])
  }

  function WithCounters(info: seq<seq<nat>>, index: nat, counters: seq<nat>): (info': seq<seq<nat>>)
    requires |counters| == |info| && forall w :: 0 <= w < |info| ==> index < |info[w]|
    ensures |info'| == |info| && forall w :: 0 <= w < |info| ==> |info'[w]| == |info[w]|
  {
    seq(|info|, w requires 0 <= w < |info| => info[w][index := counters[w]])
  }

  /** LRU bookkeeping of an access to a way of a set. */
  function Use(cc: CacheConfig, c: Cache, index: nat, way: nat): (c': Cache)
    requires c.Shape(cc) && index < cc.Sets() && way < cc.Ways()
    ensures c'.Shape(cc) && c'.storing == c.storing
  {
    if cc.replacement.Lru? && cc.associativity > 1 then
      c.(info := WithCounters(c.info, index, Touch(Counters(c, index), way)))
    else c
  }

  function ReadData(cc: CacheConfig, c: Cache, addr: nat, way: nat): (r: (Cache, nat))
    requires c.Shape(cc) && cc.Address(addr) && way < cc.Ways()
    ensures r.0.Shape(cc)
  {
    SplitAddress(cc, addr);
    (Use(cc, c, Index(cc, addr), way), c.storing[way][Index(cc, addr)].data[Word(cc, addr)])
  }

  /** Where a word of a line being refilled goes: where the line is already, else the way chosen for it. */
  function PlaceOf(cc: CacheConfig, c: Cache, addr: nat, loc: nat): (w: nat)
    requires c.Shape(cc) && cc.Address(addr) && loc < cc.Ways()
    ensures w < cc.Ways()
  {
    SplitAddress(cc, addr);
    var w := FindWay(c, Index(cc, addr), Tag(cc, addr), 0);
    if cc.associativity == 0 then 0 else if w < cc.Ways() then w else loc
  }

  function WriteData(cc: CacheConfig, c: Cache, addr: nat, data: nat, loc: nat): (c': Cache)
    requires c.Shape(cc) && cc.Address(addr) && loc < cc.Ways()
    ensures c'.Shape(cc)
  {
    SplitAddress(cc, addr);
    var index := Index(cc, addr);
    var w := PlaceOf(cc, c, addr, loc);
    var ticket: seq<nat> := c.info[w][index := c.nextIp];
    var c1 :=
      if cc.replacement.Fifo? && cc.associativity > 1 then c.(info := c.info[w := ticket], nextIp := c.nextIp + 1)
      else Use(cc, c, index, w);
    var r := c.storing[w][index];
    c1.(storing := c.storing[w := c.storing[w][index := Record(r.data[Word(cc, addr) := data], Tag(cc, addr), true, 0)]])
  }

  /** The first way with the largest counter, and with the smallest. */
  function Largest(counters: seq<nat>, n: nat): (w: nat)
    requires 1 <= n <= |counters|
    ensures w < n && (forall v :: 0 <= v < n ==> counters[v] <= counters[w]) && (forall v :: 0 <= v < w ==> counters[v] < counters[w])
  {
    if n == 1 then 0
    else
      var w := Largest(counters, n - 1);
      if counters[w] < counters[n-1] then n - 1 else w
  }

  function Smallest(counters: seq<nat>, n: nat): (w: nat)
    requires 1 <= n <= |counters|
    ensures w < n && (forall v :: 0 <= v < n ==> counters[v] >= counters[w]) && (forall v :: 0 <= v < w ==> counters[v] > counters[w])
  {
    if n == 1 then 0
    else
      var w := Smallest(counters, n - 1);
      if counters[w] > counters[n-1] then n - 1 else w
  }

  /** The way to give up; `dice` stands for the random number. */
  function WhereTo(cc: CacheConfig, c: Cache, index: nat, dice: nat): (w: nat)
    requires c.Shape(cc) && index < cc.Sets()
    ensures w < cc.Ways()
  {
    if cc.associativity == 0 then 0
    else
      match cc.replacement
      case Random => dice % cc.associativity
      case Fifo => Smallest(Counters(c, index), cc.associativity)
      case Lru => Largest(Counters(c, index), cc.associativity)
  }

  /** Bring in words i.. of the line at a base address from memory, which maps word numbers to words. */
  function RefillFrom(cc: CacheConfig, c: Cache, base: nat, mem: nat -> nat, i: nat, loc: nat): (c': Cache)
    requires c.Shape(cc) && cc.Span(base, 16) && i <= 4 && loc < cc.Ways()
    ensures c'.Shape(cc)
    decreases 4 - i
  {
    if i == 4 then c
    else RefillFrom(cc, WriteData(cc, c, base + 4 * i, mem(WordNumber(base + 4 * i)), loc), base, mem, i + 1, loc)
  }

  /** Read `burst` words from an address on, always from the same way. */
  function ReadBurst(cc: CacheConfig, c: Cache, addr: nat, burst: nat, way: nat): (r: (Cache, seq<nat>))
    requires c.Shape(cc) && cc.Span(addr, 4 * burst) && way < cc.Ways()
    ensures r.0.Shape(cc) && |r.1| == burst
  {
    if burst == 0 then (c, [])
    else
      var (c1, words) := ReadBurst(cc, c, addr, burst - 1, way);
      var (c2, word) := ReadData(cc, c1, addr + 4 * (burst - 1), way);
      (c2, words + [word])
  }

  /** Bring in the whole line of an address. */
  function Refill(cc: CacheConfig, c: Cache, addr: nat, mem: nat -> nat, loc: nat): (c': Cache)
    requires c.Shape(cc) && cc.Address(addr) && loc < cc.Ways()
    ensures c'.Shape(cc)
  {
    LineFits(cc, addr);
    RefillFrom(cc, c, LineBase(addr), mem, 0, loc)
  }

  /** Which way holds the line of an address; as many as there are ways if none does. */
  function CheckExist(cc: CacheConfig, c: Cache, addr: nat): (w: nat)
    requires c.Shape(cc) && cc.Address(addr)
    ensures w <= cc.Ways()
  {
    SplitAddress(cc, addr);
    FindWay(c, Index(cc, addr), Tag(cc, addr), 0)
  }

  function Victim(cc: CacheConfig, c: Cache, addr: nat, dice: nat): (w: nat)
    requires c.Shape(cc) && cc.Address(addr)
    ensures w < cc.Ways()
  {
    SplitAddress(cc, addr);
    WhereTo(cc, c, Index(cc, addr), dice)
  }

  /** The cache a request reads from: on a miss a way is given up and the line brought in. */
  function Fetched(cc: CacheConfig, c: Cache, addr: nat, mem: nat -> nat, dice: nat): (c': Cache)
    requires c.Shape(cc) && cc.Address(addr)
    ensures c'.Shape(cc)
  {
    if CheckExist(cc, c, addr) < cc.Ways() then c else Refill(cc, c, addr, mem, Victim(cc, c, addr, dice))
  }

  /** Every word of a line has the line's index and tag, and its own place. */
  lemma SameLine(cc: CacheConfig, addr: nat, i: nat)
    requires cc.Valid() && cc.Address(addr) && i < 4
    ensures var a := LineBase(addr) + 4 * i;
      cc.Address(a) && Index(cc, a) == Index(cc, addr) && Tag(cc, a) == Tag(cc, addr) && Word(cc, a) == i
      && WordNumber(a) == 4 * LineOf(addr) + i
  {
    var a := LineBase(addr) + 4 * i;
    LineFits(cc, addr);
    SplitAddress(cc, addr);
    SplitAddress(cc, a);
    DivisionIs(a, 16, LineOf(addr), 4 * i);
  }

  /** A word written for a line is found there afterwards. */
  lemma WrittenIsThere(cc: CacheConfig, c: Cache, addr: nat, data: nat, loc: nat)
    requires c.Shape(cc) && cc.Address(addr) && loc < cc.Ways()
    ensures CheckExist(cc, WriteData(cc, c, addr, data, loc), addr) < cc.Ways()
  {
    SplitAddress(cc, addr);
    var w := PlaceOf(cc, c, addr, loc);
    assert Match(WriteData(cc, c, addr, data, loc).storing[w][Index(cc, addr)], Tag(cc, addr));
  }

  /** After a refill the line is always found. */
  lemma FetchedIsThere(cc: CacheConfig, c: Cache, addr: nat, mem: nat -> nat, dice: nat)
    requires c.Shape(cc) && cc.Address(addr)
    ensures CheckExist(cc, Fetched(cc, c, addr, mem, dice), addr) < cc.Ways()
  {
    hide CheckExist, RefillFrom, Victim, Pow2;
    LineFits(cc, addr);
    if CheckExist(cc, c, addr) == cc.Ways() { RefilledIsThere(cc, c, addr, mem, 0, Victim(cc, c, addr, dice)); }
  }

  lemma {:induction false} RefilledIsThere(cc: CacheConfig, c: Cache, addr: nat, mem: nat -> nat, i: nat, loc: nat)
    requires c.Shape(cc) && cc.Address(addr) && i < 4 && loc < cc.Ways()
    requires cc.Span(LineBase(addr), 16)
    ensures CheckExist(cc, RefillFrom(cc, c, LineBase(addr), mem, i, loc), addr) < cc.Ways()
    decreases 4 - i
  {
    hide WriteData, Index, Tag, CheckExist, Pow2;
    var a := LineBase(addr) + 4 * i;
    SameLine(cc, addr, i);
    var c1 := WriteData(cc, c, a, mem(WordNumber(a)), loc);
    if i < 3 {
      RefilledIsThere(cc, c1, addr, mem, i + 1, loc);
    } else {
      WrittenIsThere(cc, c, a, mem(WordNumber(a)), loc);
      SameCheck(cc, c1, addr, a);
    }
  }

  lemma SameCheck(cc: CacheConfig, c: Cache, addr: nat, a: nat)
    requires c.Shape(cc) && cc.Address(addr) && cc.Address(a)
    requires Index(cc, a) == Index(cc, addr) && Tag(cc, a) == Tag(cc, addr)
    ensures CheckExist(cc, c, a) == CheckExist(cc, c, addr)
  {
    hide Index, Tag;
  }

  /** A read request of `burst` words: they are read from the way where the line is found afterwards. */
  function HandleRequest(cc: CacheConfig, c: Cache, addr: nat, burst: nat, mem: nat -> nat, dice: nat): (r: (Cache, seq<nat>))
    requires c.Shape(cc) && cc.Span(addr, 4 * burst) && cc.Address(addr)
    ensures r.0.Shape(cc)
  {
    var c1 := Fetched(cc, c, addr, mem, dice);
    FetchedIsThere(cc, c, addr, mem, dice);
    ReadBurst(cc, c1, addr, burst, CheckExist(cc, c1, addr))
  }

  lemma LineFits(cc: CacheConfig, addr: nat)
    requires cc.Valid() && cc.Address(addr)
    ensures cc.Span(LineBase(addr), 16)
  {
    hide Pow2;
    SixteenTimes(cc.addressBits - 4);
  }
}
