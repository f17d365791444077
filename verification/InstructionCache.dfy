/** The instruction cache as the program has it: a unit that stores and replaces lines, and the module that
    serves requests with it. */
module InstructionCache {
  import opened Bits
  import opened CacheSpec
  import opened CacheAgreement

  /** Storage and replacement counters, by way and index. */
  class RPU {
    const cc: CacheConfig
    var storing: seq<seq<Record>>
    var info: seq<seq<nat>>
    var nextIp: nat

    ghost function View(): Cache
      reads this
    {
      Cache(storing, info, nextIp)
    }

    ghost predicate Valid()
      reads this
    {
      View().Shape(cc)
    }

    /** No line is valid; LRU counters start high. */
    constructor (cc: CacheConfig)
      requires cc.Valid()
      ensures Valid() && this.cc == cc && Empty(View()) && nextIp == 0
      ensures forall w, i :: 0 <= w < cc.Ways() && 0 <= i < cc.Sets() ==> info[w][i] == if cc.replacement.Lru? then 99999 else 0
    {
      this.cc := cc;
      nextIp := 0;
      storing := seq(cc.Ways(), _ => seq(cc.Sets(), _ => Record([0, 0, 0, 0], 0, false, 0)));
      info := seq(cc.Ways(), _ => seq(cc.Sets(), _ => if cc.replacement.Lru? then 99999 else 0));
    }

    /** The way that holds the line of an address, -1 if none; the only way of a direct cache is called 1. */
    method CheckExist(addr: nat) returns (i: int)
      requires Valid() && cc.Address(addr)
      ensures var w := CacheSpec.CheckExist(cc, View(), addr);
        i == if w == cc.Ways() then -1 else if cc.associativity == 0 then 1 else w
    {
      hide Index, Tag, Pow2;
      SplitAddress(cc, addr);
      var indexVal, tagVal := Index(cc, addr), Tag(cc, addr);
      if cc.associativity == 0 {
        return if Match(storing[0][indexVal], tagVal) then 1 else -1;
      }
      i := 0;
      while i < cc.associativity
        invariant 0 <= i <= cc.associativity
        invariant FindWay(View(), indexVal, tagVal, 0) == FindWay(View(), indexVal, tagVal, i)
      {
        if Match(storing[i][indexVal], tagVal) { return; }
        i := i + 1;
      }
      return -1;
    }

    /** All counters of a set go up and one way's goes to zero. */
    method Touch(index: nat, way: nat)
      requires Valid() && index < cc.Sets() && way < cc.Ways()
      modifies this`info
      ensures Valid() && info == WithCounters(old(info), index, CacheSpec.Touch(Counters(old(View()), index), way))
    {
      ghost var before := info;
      hide Pow2;
      var j := 0;
      while j < cc.Ways()
        invariant j <= cc.Ways() && Valid()
        invariant forall w :: 0 <= w < j ==> info[w] == before[w][index := before[w][index] + 1]
        invariant forall w :: j <= w < cc.Ways() ==> info[w] == before[w]
      {
        var row: seq<nat> := info[j][index := info[j][index] + 1];
        info := info[j := row];
        j := j + 1;
      }
      var zeroed: seq<nat> := info[way][index := 0];
      info := info[way := zeroed];
      ghost var touched := WithCounters(before, index, CacheSpec.Touch(Counters(old(View()), index), way));
      forall w | 0 <= w < cc.Ways() ensures info[w] == touched[w] {
        if w == way {
          var raised: seq<nat> := before[w][index := before[w][index] + 1];
          var twice: seq<nat>, once: seq<nat> := raised[index := 0], before[w][index := 0];
          assert twice == once;
        }
      }
    }

    method ReadData(addr: nat, i: int) returns (data: nat)
      requires Valid() && cc.Address(addr) && (cc.associativity == 0 || 0 <= i < cc.Ways())
      modifies this`info
      ensures Valid() && (View(), data) == CacheSpec.ReadData(cc, old(View()), addr, if cc.associativity == 0 then 0 else i)
    {
      hide Index, Tag, Word, Pow2, WithCounters;
      SplitAddress(cc, addr);
      var indexVal, offVal := Index(cc, addr), Word(cc, addr);
      var way := if cc.associativity == 0 then 0 else i;
      if cc.replacement.Lru? && cc.associativity > 1 { Touch(indexVal, way); }
      data := storing[way][indexVal].data[offVal];
    }

    /** Store a word of a line brought in: in the way that holds the line already, else in way `loc`. */
    method WriteData(addr: nat, data: nat, loc: nat)
      requires Valid() && cc.Address(addr) && loc < cc.Ways()
      modifies this
      ensures View() == CacheSpec.WriteData(cc, old(View()), addr, data, loc) && Valid()
    {
      hide Index, Tag, Word, Pow2, WithCounters;
      SplitAddress(cc, addr);
      var indexVal, tagVal, offVal := Index(cc, addr), Tag(cc, addr), Word(cc, addr);
      var loc1 := 0;
      if cc.associativity != 0 {
        var found := CheckExist(addr);
        loc1 := if found == -1 then loc else found;
        if cc.replacement.Fifo? {
          var ticket: seq<nat> := info[loc1][indexVal := nextIp];
          info := info[loc1 := ticket];
          nextIp := nextIp + 1;
        } else if cc.replacement.Lru? {
          Touch(indexVal, loc1);
        }
      }
      var r := storing[loc1][indexVal];
      storing := storing[loc1 := storing[loc1][indexVal := Record(r.data[offVal := data], tagVal, true, 0)]];
    }

    /** The way to give up; `dice` stands for the random number. */
    method WhereTo(indx: nat, dice: nat) returns (temp: nat)
      requires Valid() && indx < cc.Sets() && cc.associativity != 0
      ensures temp == CacheSpec.WhereTo(cc, View(), indx, dice)
    {
      hide Pow2;
      if cc.replacement.Random? { return dice % cc.associativity; }
      ghost var counters := Counters(View(), indx);
      temp := 0;
      var i := 1;
      while i < cc.associativity
        invariant 1 <= i <= cc.associativity && temp < i
        invariant cc.replacement.Fifo? ==> temp == Smallest(counters, i)
        invariant cc.replacement.Lru? ==> temp == Largest(counters, i)
      {
        if cc.replacement.Fifo? {
          if info[temp][indx] > info[i][indx] { temp := i; }
        } else {
          if info[temp][indx] < info[i][indx] { temp := i; }
        }
        i := i + 1;
      }
    }
  }

  /** What becomes of a request: nothing, an error exit, or words. */
  datatype Outcome = Ignored | Failed | Words(words: seq<nat>)

  const CACHE_LIMIT := 0x1900_0000

  /** The cache of one tile; its addresses begin at `base`, a multiple of the line size. */
  class CacheModule {
    const rpu: RPU
    const base: nat

    constructor (rpu: RPU, base: nat)
      requires base % 16 == 0
      ensures this.rpu == rpu && this.base == base
    {
      this.rpu, this.base := rpu, base;
    }

    /** The tile's view of memory, by word number. */
    function Mem(memory: nat -> nat): nat -> nat { (w: nat) => memory(w + base / 4) }

    lemma SameWord(addr: nat)
      requires base % 16 == 0 && addr >= base
      ensures WordNumber(addr - base) + base / 4 == WordNumber(addr)
    {}

    /** Bring in the line at a memory address, word by word. */
    method ReadFromMem(missedAddr: nat, memory: nat -> nat, missLoc: nat)
      requires rpu.Valid() && missLoc < rpu.cc.Ways() && base % 16 == 0
      requires missedAddr >= base && missedAddr % 16 == 0 && rpu.cc.Span(missedAddr - base, 16)
      modifies rpu
      ensures rpu.Valid()
      ensures rpu.View() == RefillFrom(rpu.cc, old(rpu.View()), missedAddr - base, Mem(memory), 0, missLoc)
    {
      hide CacheSpec.WriteData, Cache.Shape, Pow2, WordNumber;
      ghost var before := rpu.View();
      ghost var line := missedAddr - base;
      var addr := missedAddr;
      var i := 0;
      while i < 4
        invariant i <= 4 && addr == missedAddr + 4 * i && rpu.Valid()
        invariant RefillFrom(rpu.cc, before, line, Mem(memory), 0, missLoc)
               == RefillFrom(rpu.cc, rpu.View(), line, Mem(memory), i, missLoc)
      {
        SameWord(addr);
        rpu.WriteData(addr - base, memory(WordNumber(addr)), missLoc);
        addr := addr + 4;
        i := i + 1;
      }
    }

    lemma LineAddress(addr: nat)
      requires rpu.cc.Valid() && base % 16 == 0 && rpu.cc.Address(addr)
      ensures var missed := addr + base - (addr + base) % 16;
        missed % 16 == 0 && missed >= base && missed - base == LineBase(addr) && rpu.cc.Span(LineBase(addr), 16)
    {
      LineFits(rpu.cc, addr);
      hide Pow2;
    }

    lemma ConfigIsValid()
      requires rpu.Valid()
      ensures rpu.cc.Valid()
    {}

    /** Give up a way and bring in the line of an address. */
    method Miss(addr: nat, memory: nat -> nat, dice: nat)
      requires rpu.Valid() && base % 16 == 0 && rpu.cc.Address(addr)
      modifies rpu
      ensures rpu.Valid()
      ensures rpu.View() == Refill(rpu.cc, old(rpu.View()), addr, Mem(memory), Victim(rpu.cc, old(rpu.View()), addr, dice))
    {
      hide Cache.Shape, Index, Tag, Word, Pow2, RefillFrom, LineBase, Largest, Smallest;
      ConfigIsValid();
      SplitAddress(rpu.cc, addr);
      LineAddress(addr);
      var loc := 0;
      if rpu.cc.associativity != 0 { loc := rpu.WhereTo(Index(rpu.cc, addr), dice); }
      ReadFromMem(addr + base - (addr + base) % 16, memory, loc);
    }

    /** Serve a request: `enabled` and `write` are its byte-enable and direction. */
    method HandleRequest(address: nat, burst: nat, enabled: bool, write: bool, memory: nat -> nat, dice: nat) returns (outcome: Outcome)
      requires rpu.Valid() && base % 16 == 0 && address >= base && rpu.cc.Span(address - base, 4 * burst) && rpu.cc.Address(address - base)
      modifies rpu
      ensures rpu.Valid()
      ensures outcome == if !enabled then Ignored else if write || address - base >= CACHE_LIMIT then Failed
        else Words(CacheSpec.HandleRequest(rpu.cc, old(rpu.View()), address - base, burst, Mem(memory), dice).1)
      ensures rpu.View() == if outcome.Words?
        then CacheSpec.HandleRequest(rpu.cc, old(rpu.View()), address - base, burst, Mem(memory), dice).0 else old(rpu.View())
    {
      hide Cache.Shape, CacheSpec.CheckExist, Pow2, Refill, Victim, ReadBurst, CacheConfig.Address, CacheConfig.Span;
      var addr := address - base;
      if !enabled { return Ignored; }
      if write || addr >= CACHE_LIMIT { return Failed; }
      FetchedIsThere(rpu.cc, rpu.View(), addr, Mem(memory), dice);
      var ind := rpu.CheckExist(addr);
      if ind == -1 {
        Miss(addr, memory, dice);
        ind := rpu.CheckExist(addr);
      }
      var words := ReadWords(addr, burst, ind);
      outcome := Words(words);
    }

    method ReadWords(start: nat, burst: nat, ind: int) returns (words: seq<nat>)
      requires rpu.Valid() && rpu.cc.Address(start) && rpu.cc.Span(start, 4 * burst) && (rpu.cc.associativity == 0 || 0 <= ind < rpu.cc.Ways())
      modifies rpu
      ensures rpu.Valid()
      ensures (rpu.View(), words) == ReadBurst(rpu.cc, old(rpu.View()), start, burst, if rpu.cc.associativity == 0 then 0 else ind)
    {
      hide Cache.Shape, CacheSpec.ReadData;
      words := [];
      var addr := start;
      var j := 0;
      while j < burst
        invariant j <= burst && addr == start + 4 * j && rpu.Valid()
        invariant (rpu.View(), words) == ReadBurst(rpu.cc, old(rpu.View()), start, j, if rpu.cc.associativity == 0 then 0 else ind)
      {
        var data := rpu.ReadData(addr, ind);
        words := words + [data];
        addr := addr + 4;
        j := j + 1;
      }
    }
  }
}
