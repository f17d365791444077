/** The values the DRAM simulator passes around: its configuration, bus packets,
    bank records and the command queue's fields. */
module DramTypes {

  datatype Option<+T> = None | Some(value: T)

  datatype RowBufferPolicy = OpenPage | ClosePage
  datatype QueuingStructure = PerRank | PerRankPerBank
  datatype SchedulingPolicy = RankThenBank | BankThenRank

  /** Largest value of the C++ type `unsigned`. */
  const UINT_MAX := 0xFFFF_FFFF

  function Max(a: int, b: int): int { if a < b then b else a }
  function Min(a: int, b: int): int { if a < b then a else b }

  /** Unsigned decrement. */
  function Decrement(x: nat): nat { if x == 0 then UINT_MAX else x - 1 }

  function DecrementAll(xs: seq<nat>): (ys: seq<nat>)
    ensures |ys| == |xs|
  {
    seq(|xs|, i requires 0 <= i < |xs| => Decrement(xs[i]))
  }

  datatype Location = Location(rank: nat, bank: nat, row: nat, column: nat)

  datatype Config = Config(
    numRanks: nat, numBanks: nat,
    policy: RowBufferPolicy, structure: QueuingStructure, scheduling: SchedulingPolicy,
    useLowPower: bool,
    cl: nat, al: nat, bl: nat,
    tRAS: nat, tRCD: nat, tRRD: nat, tRC: nat, tRP: nat, tCCD: nat, tRTP: nat,
    tWTR: nat, tWR: nat, tRTRS: nat, tRFC: nat, tFAW: nat, tCKE: nat, tXP: nat, tCMD: nat,
    refreshInterval: nat, refreshStagger: nat,
    transQueueDepth: nat, cmdQueueDepth: nat, totalRowAccesses: nat,
    locate: nat -> Location)
  {
    function Burst(): nat { bl / 2 }
    function ReadLatency(): nat { cl + al }
    function WriteLatency(): int { cl + al - 1 }
    function ReadToPre(): int { al + Burst() + Max(tRTP, 2) - 2 }
    function WriteToPre(): int { WriteLatency() + Burst() + tWR }
    function ReadToWrite(): int { ReadLatency() + Burst() + tRTRS - WriteLatency() }
    function ReadAutoPre(): int { al + tRTP + tRP }
    function WriteAutoPre(): int { WriteLatency() + Burst() + tWR + tRP }
    function WriteToReadSameRank(): int { WriteLatency() + Burst() + tWTR }
    function WriteToReadOtherRank(): int { WriteLatency() + Burst() + tRTRS - ReadLatency() }
    function ColumnGap(): nat { Max(tCCD, Burst()) }

    /** Number of queues used per rank. */
    function Slots(): nat { if structure.PerRank? then 1 else numBanks }
    function SlotOf(bank: nat): nat { if structure.PerRank? then 0 else bank }

    /** What the simulator takes for granted of its parameter files. */
    ghost predicate Valid() {
      && 1 <= numRanks < UINT_MAX && 1 <= numBanks
      && 2 <= bl && 2 <= cl + al && al <= tRCD
      && 1 <= tRP && 1 <= tRFC && 1 <= tFAW && tCMD == 1
      && 1 <= totalRowAccesses
      && forall a :: locate(a).rank < numRanks && locate(a).bank < numBanks
    }
  }

  datatype Kind = Read | ReadP | Write | WriteP | Activate | Precharge | Refresh | Data
  {
    predicate IsRead() { Read? || ReadP? }
    predicate IsWrite() { Write? || WriteP? }
    predicate IsColumn() { IsRead() || IsWrite() }
    predicate AutoPrecharges() { ReadP? || WriteP? }
  }

  datatype BusPacket = BusPacket(kind: Kind, address: nat, column: nat, row: nat,
                                 rank: nat, bank: nat, id: int)

  datatype Phase = Idle | RowActive | Precharging | Refreshing | PowerDown

  datatype BankState = BankState(phase: Phase, openRow: nat, nextRead: nat, nextWrite: nat,
                                 nextActivate: nat, nextPrecharge: nat, nextPowerUp: nat,
                                 lastCommand: Kind, countdown: nat)
  {
    /** The row is still open here, but a column command has already asked for it to close. */
    predicate AutoPending() { lastCommand.AutoPrecharges() && countdown > 0 }

    predicate Usable() { phase.RowActive? && !AutoPending() }
  }

  const INITIAL_BANK := BankState(Idle, 0, 0, 0, 0, 0, 0, Read, 0)

  type BankRow = seq<BankState>
  type Table = seq<BankRow>

  predicate TableShape(cfg: Config, t: Table) {
    && |t| == cfg.numRanks
    && forall r :: 0 <= r < |t| ==> |t[r]| == cfg.numBanks
  }

  /** The fields of the command queue. */
  datatype QueueState = QueueState(queues: seq<seq<seq<BusPacket>>>,
                                   nextRank: nat, nextBank: nat,
                                   nextRankPRE: nat, nextBankPRE: nat,
                                   refreshRank: nat, refreshWaiting: bool,
                                   faw: seq<seq<nat>>, rowAccess: seq<seq<nat>>,
                                   sendAct: bool)
  {
    /** Array bounds the code relies on; queues beyond the used slots stay empty. */
    ghost predicate Shape(cfg: Config) {
      && |queues| == |faw| == |rowAccess| == cfg.numRanks
      && (forall r :: 0 <= r < |queues| ==> |queues[r]| >= cfg.Slots())
      && (forall r :: 0 <= r < |rowAccess| ==> |rowAccess[r]| == cfg.numBanks)
      && nextRank < cfg.numRanks && nextRankPRE < cfg.numRanks
      && nextBank < cfg.numBanks && nextBankPRE < cfg.numBanks
      && (refreshWaiting ==> refreshRank < cfg.numRanks)
      && (forall r, k :: 0 <= r < |queues| && 0 <= k < |queues[r]| ==> InRange(cfg, queues[r][k], r))
      && (forall r, k :: 0 <= r < |queues| && cfg.Slots() <= k < |queues[r]| ==> queues[r][k] == [])
    }
  }

  ghost predicate InRange(cfg: Config, que: seq<BusPacket>, rank: nat) {
    forall i :: 0 <= i < |que| ==> que[i].rank == rank && que[i].bank < cfg.numBanks && (que[i].kind.Activate? || que[i].kind.IsColumn())
  }
}
