/** The six ways a physical address is cut into rank, bank, row and column, and why each is a bijection. */
module AddressMap {
  import opened Bits
  import opened DramTypes

  datatype Scheme = Scheme1 | Scheme2 | Scheme3 | Scheme4 | Scheme5 | Scheme6

  /** Bit widths of the fields an address is cut into. */
  datatype Layout = Layout(scheme: Scheme, byteOffsetBits: nat, colLowBits: nat,
                           rankBits: nat, bankBits: nat, rowBits: nat, colHighBits: nat)

  datatype Field = RankField | BankField | RowField | ColumnField

  function Four<T>(a: T, b: T, c: T, d: T): (s: seq<T>)
    ensures |s| == 4 && s[0] == a && s[1] == b && s[2] == c && s[3] == d
    ensures a in s && b in s && c in s && d in s
  {
    var s := [a, b, c, d];
    assert s[0] == a && s[1] == b && s[2] == c && s[3] == d;
    s
  }

  /** The fields of each scheme, lowest bits first. */
  function Order(scheme: Scheme): (order: seq<Field>)
    ensures |order| == 4
    ensures RankField in order && BankField in order && RowField in order && ColumnField in order
  {
    match scheme
    case Scheme1 => Four(BankField, ColumnField, RowField, RankField)
    case Scheme2 => Four(RankField, BankField, ColumnField, RowField)
    case Scheme3 => Four(RowField, ColumnField, BankField, RankField)
    case Scheme4 => Four(ColumnField, RowField, BankField, RankField)
    case Scheme5 => Four(BankField, RankField, ColumnField, RowField)
    case Scheme6 => Four(ColumnField, RankField, BankField, RowField)
  }

  function Width(l: Layout, f: Field): nat {
    match f
    case RankField => l.rankBits
    case BankField => l.bankBits
    case RowField => l.rowBits
    case ColumnField => l.colHighBits
  }

  function Part(loc: Location, f: Field): nat {
    match f
    case RankField => loc.rank
    case BankField => loc.bank
    case RowField => loc.row
    case ColumnField => loc.column
  }

  function Widths(l: Layout, order: seq<Field>): seq<nat> {
    seq(|order|, i requires 0 <= i < |order| => Width(l, order[i]))
  }

  function Parts(loc: Location, order: seq<Field>): seq<nat> {
    seq(|order|, i requires 0 <= i < |order| => Part(loc, order[i]))
  }

  function TotalBits(ws: seq<nat>): nat {
    if |ws| == 0 then 0 else ws[0] + TotalBits(ws[1..])
  }

  // ----- numbers as fields of given widths -----

  function Cut(a: nat, ws: seq<nat>): (ds: seq<nat>)
    ensures |ds| == |ws|
    decreases |ws|
  {
    if |ws| == 0 then [] else [Low(a, ws[0])] + Cut(High(a, ws[0]), ws[1..])
  }

  function Join(ds: seq<nat>, ws: seq<nat>): nat
    requires |ds| == |ws|
  {
    if |ws| == 0 then 0 else ds[0] + Raise(Join(ds[1..], ws[1..]), ws[0])
  }

  predicate InWidths(ds: seq<nat>, ws: seq<nat>)
    requires |ds| == |ws|
  {
    forall i :: 0 <= i < |ds| ==> ds[i] < Pow2(ws[i])
  }

  lemma {:induction false} CutInWidths(a: nat, ws: seq<nat>)
    ensures InWidths(Cut(a, ws), ws)
    decreases |ws|
  {
    if |ws| > 0 {
      HighLow(a, ws[0]);
      CutInWidths(High(a, ws[0]), ws[1..]);
    }
  }

  lemma {:induction false} LowOfLow(a: nat, k: nat, m: nat)
    ensures Low(a, k + m) == Low(a, k) + Raise(Low(High(a, k), m), k)
    decreases k
  {
    if k > 0 { LowOfLow(a / 2, k - 1, m); }
  }

  lemma {:induction false} JoinCut(a: nat, ws: seq<nat>)
    ensures Join(Cut(a, ws), ws) == Low(a, TotalBits(ws))
    decreases |ws|
  {
    if |ws| > 0 {
      JoinCut(High(a, ws[0]), ws[1..]);
      LowOfLow(a, ws[0], TotalBits(ws[1..]));
      assert Cut(a, ws)[1..] == Cut(High(a, ws[0]), ws[1..]);
    }
  }

  lemma {:induction false} SplitRaised(d: nat, h: nat, k: nat)
    requires d < Pow2(k)
    ensures Low(d + Raise(h, k), k) == d && High(d + Raise(h, k), k) == h
    decreases k
  {
    if k > 0 {
      var x := d + Raise(h, k);
      assert x % 2 == d % 2 && x / 2 == d / 2 + Raise(h, k - 1);
      SplitRaised(d / 2, h, k - 1);
    }
  }

  lemma {:induction false} CutJoin(ds: seq<nat>, ws: seq<nat>)
    requires |ds| == |ws| && InWidths(ds, ws)
    ensures Cut(Join(ds, ws), ws) == ds
  {
    if |ws| > 0 {
      SplitRaised(ds[0], Join(ds[1..], ws[1..]), ws[0]);
      CutJoin(ds[1..], ws[1..]);
    }
  }

  // ----- addresses -----

  function OffsetBits(l: Layout): nat { l.byteOffsetBits + l.colLowBits }

  function PlaceOf(order: seq<Field>, f: Field): (i: nat)
    requires f in order
    ensures i < |order| && order[i] == f
  {
    if order[0] == f then 0 else 1 + PlaceOf(order[1..], f)
  }

  function Decode(l: Layout, address: nat): Location {
    var order := Order(l.scheme);
    var ds := Cut(High(address, OffsetBits(l)), Widths(l, order));
    Location(ds[PlaceOf(order, RankField)], ds[PlaceOf(order, BankField)],
             ds[PlaceOf(order, RowField)], ds[PlaceOf(order, ColumnField)])
  }

  predicate WithinLayout(l: Layout, loc: Location) {
    && loc.rank < Pow2(l.rankBits) && loc.bank < Pow2(l.bankBits)
    && loc.row < Pow2(l.rowBits) && loc.column < Pow2(l.colHighBits)
  }

  /** The burst-aligned address of a location on channel 0. */
  function Encode(l: Layout, loc: Location): nat {
    var order := Order(l.scheme);
    Raise(Join(Parts(loc, order), Widths(l, order)), OffsetBits(l))
  }

  /** Address bits that select a location. */
  function LocationBits(l: Layout): nat { l.rankBits + l.bankBits + l.rowBits + l.colHighBits }

  lemma TotalIsLocationBits(l: Layout)
    ensures TotalBits(Widths(l, Order(l.scheme))) == LocationBits(l)
  {
    var ws := Widths(l, Order(l.scheme));
    assert ws[1..][1..] == ws[2..] && ws[2..][1..] == ws[3..] && ws[3..][1..] == [];
    assert TotalBits(ws[3..]) == ws[3];
    assert TotalBits(ws[2..]) == ws[2] + ws[3];
    assert TotalBits(ws) == ws[0] + ws[1] + ws[2] + ws[3];
  }

  lemma PartsOfDecode(l: Layout, address: nat)
    ensures var order := Order(l.scheme);
      Parts(Decode(l, address), order) == Cut(High(address, OffsetBits(l)), Widths(l, order))
  {}

  /** Every decoded field is in range. */
  lemma DecodeInRange(l: Layout, address: nat)
    ensures WithinLayout(l, Decode(l, address))
  {
    CutInWidths(High(address, OffsetBits(l)), Widths(l, Order(l.scheme)));
  }

  /** With power-of-two dimensions the decoded rank and bank exist, as the scheduler assumes. */
  lemma MapSuitsScheduler(l: Layout, cfg: Config)
    requires cfg.numRanks == Pow2(l.rankBits) && cfg.numBanks == Pow2(l.bankBits)
    requires cfg.(locate := (a: nat) => Location(0, 0, 0, 0)).Valid()
    ensures cfg.(locate := (a: nat) => Decode(l, a)).Valid()
  {
    forall a: nat ensures WithinLayout(l, Decode(l, a)) {
      DecodeInRange(l, a);
    }
  }

  /** The fields recompose to the address without its burst offset and its channel bits. */
  lemma EncodeDecode(l: Layout, address: nat)
    ensures Encode(l, Decode(l, address)) == Raise(Low(High(address, OffsetBits(l)), LocationBits(l)), OffsetBits(l))
  {
    PartsOfDecode(l, address);
    JoinCut(High(address, OffsetBits(l)), Widths(l, Order(l.scheme)));
    TotalIsLocationBits(l);
  }

  /** The `width` bits of an address from bit `from` on. */
  function BitField(address: nat, from: nat, width: nat): nat { (address / Pow2(from)) % Pow2(width) }

  lemma OneField(a: nat, from: nat, width: nat)
    ensures Low(High(a, from), width) == BitField(a, from, width)
  {
    BitsDivide(a, from);
    BitsDivide(High(a, from), width);
  }

  lemma BitFields(a: nat, o: nat, w0: nat, w1: nat, w2: nat, w3: nat)
    ensures Cut(High(a, o), [w0, w1, w2, w3])
      == [BitField(a, o, w0), BitField(a, o + w0, w1), BitField(a, o + w0 + w1, w2), BitField(a, o + w0 + w1 + w2, w3)]
  {
    hide Cut, Low, High, BitField;
    CutFour(High(a, o), [w0, w1, w2, w3]);
    HighAdds(a, o, w0);
    HighAdds(a, o + w0, w1);
    HighAdds(a, o + w0 + w1, w2);
    OneField(a, o, w0);
    OneField(a, o + w0, w1);
    OneField(a, o + w0 + w1, w2);
    OneField(a, o + w0 + w1 + w2, w3);
  }

  /** Which bits of the address each scheme takes for what, above the burst offset. */
  lemma SchemeFields(l: Layout, address: nat)
    ensures var o := l.byteOffsetBits + l.colLowBits;
      var (rank, bank, row, col) := (l.rankBits, l.bankBits, l.rowBits, l.colHighBits);
      Decode(l, address) ==
        match l.scheme
        case Scheme1 => Location(BitField(address, o + bank + col + row, rank), BitField(address, o, bank),
                                 BitField(address, o + bank + col, row), BitField(address, o + bank, col))
        case Scheme2 => Location(BitField(address, o, rank), BitField(address, o + rank, bank),
                                 BitField(address, o + rank + bank + col, row), BitField(address, o + rank + bank, col))
        case Scheme3 => Location(BitField(address, o + row + col + bank, rank), BitField(address, o + row + col, bank),
                                 BitField(address, o, row), BitField(address, o + row, col))
        case Scheme4 => Location(BitField(address, o + col + row + bank, rank), BitField(address, o + col + row, bank),
                                 BitField(address, o + col, row), BitField(address, o, col))
        case Scheme5 => Location(BitField(address, o + bank, rank), BitField(address, o, bank),
                                 BitField(address, o + bank + rank + col, row), BitField(address, o + bank + rank, col))
        case Scheme6 => Location(BitField(address, o + col, rank), BitField(address, o + col + rank, bank),
                                 BitField(address, o + col + rank + bank, row), BitField(address, o, col))
  {
    hide Cut, Low, High, BitField;
    var ws := Widths(l, Order(l.scheme));
    assert ws == [ws[0], ws[1], ws[2], ws[3]];
    BitFields(address, OffsetBits(l), ws[0], ws[1], ws[2], ws[3]);
  }

  /** Every location within the layout is the image of its own address. */
  lemma DecodeEncode(l: Layout, loc: Location)
    requires WithinLayout(l, loc)
    ensures Decode(l, Encode(l, loc)) == loc
  {
    var order := Order(l.scheme);
    var ds, ws := Parts(loc, order), Widths(l, order);
    SplitRaised(0, Join(ds, ws), OffsetBits(l));
    CutJoin(ds, ws);
  }

  /** Two burst-aligned addresses within the capacity of one channel never share a location. */
  lemma DistinctAddressesDistinctLocations(l: Layout, a: nat, b: nat)
    requires Low(a, OffsetBits(l)) == 0 && Low(b, OffsetBits(l)) == 0
    requires a < Pow2(OffsetBits(l) + LocationBits(l)) && b < Pow2(OffsetBits(l) + LocationBits(l))
    requires Decode(l, a) == Decode(l, b)
    ensures a == b
  {
    AlignedIsEncoded(l, a);
    AlignedIsEncoded(l, b);
  }

  lemma AlignedIsEncoded(l: Layout, a: nat)
    requires Low(a, OffsetBits(l)) == 0 && a < Pow2(OffsetBits(l) + LocationBits(l))
    ensures Encode(l, Decode(l, a)) == a
  {
    var k, m := OffsetBits(l), LocationBits(l);
    EncodeDecode(l, a);
    LowOfLow(a, k, m);
    HighLow(a, k + m);
    RaiseGrows(High(a, k + m), k + m);
  }

  // ----- the code -----

  /** One field is shifted out, shifted back and xor-ed away. */
  method TakeField(physicalAddress: nat, width: nat) returns (field: nat, rest: nat)
    ensures field == Low(physicalAddress, width) && rest == High(physicalAddress, width)
  {
    var tempA := physicalAddress;
    rest := ShiftRight(physicalAddress, width);
    var tempB := ShiftLeft(rest, width);
    field := Xor(tempA, tempB);
    XorKeepsLow(tempA, width);
    BitsDivide(tempA, width);
  }

  method AddressMapping(l: Layout, address: nat) returns (rank: nat, bank: nat, row: nat, column: nat)
    ensures Location(rank, bank, row, column) == Decode(l, address)
  {
    var physicalAddress := ShiftRight(address, l.byteOffsetBits);
    BitsDivide(address, l.byteOffsetBits);
    BitsDivide(physicalAddress, l.colLowBits);
    physicalAddress := ShiftRight(physicalAddress, l.colLowBits);
    HighAdds(address, l.byteOffsetBits, l.colLowBits);
    ghost var a, ws := physicalAddress, Widths(l, Order(l.scheme));
    ghost var a1 := High(a, ws[0]);
    ghost var a2 := High(a1, ws[1]);
    ghost var a3 := High(a2, ws[2]);
    CutFour(a, ws);
    match l.scheme
    case Scheme1 =>
      bank, physicalAddress := TakeField(physicalAddress, l.bankBits);
      column, physicalAddress := TakeField(physicalAddress, l.colHighBits);
      row, physicalAddress := TakeField(physicalAddress, l.rowBits);
      rank, physicalAddress := TakeField(physicalAddress, l.rankBits);
    case Scheme2 =>
      rank, physicalAddress := TakeField(physicalAddress, l.rankBits);
      bank, physicalAddress := TakeField(physicalAddress, l.bankBits);
      column, physicalAddress := TakeField(physicalAddress, l.colHighBits);
      row, physicalAddress := TakeField(physicalAddress, l.rowBits);
    case Scheme3 =>
      row, physicalAddress := TakeField(physicalAddress, l.rowBits);
      column, physicalAddress := TakeField(physicalAddress, l.colHighBits);
      bank, physicalAddress := TakeField(physicalAddress, l.bankBits);
      rank, physicalAddress := TakeField(physicalAddress, l.rankBits);
    case Scheme4 =>
      column, physicalAddress := TakeField(physicalAddress, l.colHighBits);
      row, physicalAddress := TakeField(physicalAddress, l.rowBits);
      bank, physicalAddress := TakeField(physicalAddress, l.bankBits);
      rank, physicalAddress := TakeField(physicalAddress, l.rankBits);
    case Scheme5 =>
      bank, physicalAddress := TakeField(physicalAddress, l.bankBits);
      rank, physicalAddress := TakeField(physicalAddress, l.rankBits);
      column, physicalAddress := TakeField(physicalAddress, l.colHighBits);
      row, physicalAddress := TakeField(physicalAddress, l.rowBits);
    case Scheme6 =>
      column, physicalAddress := TakeField(physicalAddress, l.colHighBits);
      rank, physicalAddress := TakeField(physicalAddress, l.rankBits);
      bank, physicalAddress := TakeField(physicalAddress, l.bankBits);
      row, physicalAddress := TakeField(physicalAddress, l.rowBits);
  }

  lemma CutFour(a: nat, ws: seq<nat>)
    requires |ws| == 4
    ensures var a1 := High(a, ws[0]); var a2 := High(a1, ws[1]); var a3 := High(a2, ws[2]);
      Cut(a, ws) == [Low(a, ws[0]), Low(a1, ws[1]), Low(a2, ws[2]), Low(a3, ws[3])]
  {
    var a1 := High(a, ws[0]);
    var a2 := High(a1, ws[1]);
    var a3 := High(a2, ws[2]);
    assert ws[1..][1..] == ws[2..] && ws[2..][1..] == ws[3..] && ws[3..][1..] == [];
    assert Cut(a3, ws[3..]) == [Low(a3, ws[3])] + Cut(High(a3, ws[3]), []);
    assert Cut(a2, ws[2..]) == [Low(a2, ws[2])] + Cut(a3, ws[3..]);
    assert Cut(a1, ws[1..]) == [Low(a1, ws[1])] + Cut(a2, ws[2..]);
  }
}
