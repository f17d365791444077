/** The rank/bank cursor of the command queue, and the fact that it is one cycle through all pairs. */
module RoundRobin {
  import opened Arithmetic
  import opened DramTypes

  datatype Cursor = Cursor(rank: nat, bank: nat)

  ghost predicate InGrid(cfg: Config, c: Cursor) { c.rank < cfg.numRanks && c.bank < cfg.numBanks }

  function NextRankAndBank(cfg: Config, c: Cursor): Cursor {
    match cfg.scheduling
    case RankThenBank =>
      if c.rank + 1 != cfg.numRanks then c.(rank := c.rank + 1)
      else if c.bank + 1 != cfg.numBanks then Cursor(0, c.bank + 1)
      else Cursor(0, 0)
    case BankThenRank =>
      if c.bank + 1 != cfg.numBanks then c.(bank := c.bank + 1)
      else if c.rank + 1 != cfg.numRanks then Cursor(c.rank + 1, 0)
      else Cursor(0, 0)
  }

  function NextRank(cfg: Config, c: Cursor): Cursor {
    if c.rank + 1 == cfg.numRanks then c.(rank := 0) else c.(rank := c.rank + 1)
  }

  /** The cursor used when searching the queues: with one queue per rank only the rank moves. */
  function NextQueue(cfg: Config, c: Cursor): Cursor {
    if cfg.structure.PerRank? then NextRank(cfg, c) else NextRankAndBank(cfg, c)
  }

  function GridSize(cfg: Config): nat { cfg.numRanks * cfg.numBanks }

  function QueueCount(cfg: Config): nat { if cfg.structure.PerRank? then cfg.numRanks else GridSize(cfg) }

  /** Serial number of a pair in scan order. */
  function Serial(cfg: Config, c: Cursor): nat {
    if cfg.scheduling.RankThenBank? then c.bank * cfg.numRanks + c.rank else c.rank * cfg.numBanks + c.bank
  }

  /** Serial number of a queue in scan order. */
  function QueueSerial(cfg: Config, c: Cursor): nat {
    if cfg.structure.PerRank? then c.rank else Serial(cfg, c)
  }

  /** How many moves lead from one place on a circle of n places to another. */
  function Gap(n: nat, from: nat, to: nat): nat
    requires from < n && to < n
  {
    if from <= to then to - from else to + n - from
  }

  lemma RowMajor(rows: nat, cols: nat, i: nat, j: nat)
    requires i < rows && j < cols
    ensures i * cols + j < rows * cols
    ensures i + 1 < rows ==> (i + 1) * cols == i * cols + cols
    ensures i + 1 == rows ==> rows * cols == i * cols + cols
  {
    MulMonotone(i + 1, rows, cols);
    assert (i + 1) * cols == i * cols + cols;
  }

  lemma RowMajorInjective(cols: nat, i: nat, j: nat, i': nat, j': nat)
    requires j < cols && j' < cols && i * cols + j == i' * cols + j'
    ensures i == i' && j == j'
  {
    assert (i + 1) * cols == i * cols + cols && (i' + 1) * cols == i' * cols + cols;
    if i < i' { MulMonotone(i + 1, i', cols); }
    if i' < i { MulMonotone(i' + 1, i, cols); }
  }

  lemma SerialInRange(cfg: Config, c: Cursor)
    requires InGrid(cfg, c)
    ensures Serial(cfg, c) < GridSize(cfg) && QueueSerial(cfg, c) < QueueCount(cfg)
  {
    RowMajor(cfg.numBanks, cfg.numRanks, c.bank, c.rank);
    RowMajor(cfg.numRanks, cfg.numBanks, c.rank, c.bank);
    MulCommutes(cfg.numBanks, cfg.numRanks);
  }

  /** Distinct pairs have distinct serial numbers. */
  lemma SerialInjective(cfg: Config, c: Cursor, d: Cursor)
    requires InGrid(cfg, c) && InGrid(cfg, d) && Serial(cfg, c) == Serial(cfg, d)
    ensures c == d
  {
    if cfg.scheduling.RankThenBank? {
      RowMajorInjective(cfg.numRanks, c.bank, c.rank, d.bank, d.rank);
    } else {
      RowMajorInjective(cfg.numBanks, c.rank, c.bank, d.rank, d.bank);
    }
  }

  function Successor(n: nat, x: nat): nat { if x + 1 == n then 0 else x + 1 }

  /** Moving along the columns, then the rows, of a table steps through its places in order. */
  lemma RowMajorNext(rows: nat, cols: nat, i: nat, j: nat)
    requires i < rows && j < cols
    ensures j + 1 != cols ==> Successor(rows * cols, i * cols + j) == i * cols + (j + 1)
    ensures j + 1 == cols && i + 1 != rows ==> Successor(rows * cols, i * cols + j) == (i + 1) * cols
    ensures j + 1 == cols && i + 1 == rows ==> Successor(rows * cols, i * cols + j) == 0
  {
    RowMajor(rows, cols, i, j);
    if j + 1 != cols { RowMajor(rows, cols, i, j + 1); }
    else if i + 1 != rows { RowMajor(rows, cols, i + 1, 0); }
  }

  /** Under both scheduling policies the cursor moves to the next serial number, modulo their count. */
  lemma NextIsSuccessor(cfg: Config, c: Cursor)
    requires InGrid(cfg, c)
    ensures InGrid(cfg, NextRankAndBank(cfg, c)) && InGrid(cfg, NextQueue(cfg, c))
    ensures Serial(cfg, NextRankAndBank(cfg, c)) == Successor(GridSize(cfg), Serial(cfg, c))
    ensures QueueSerial(cfg, NextQueue(cfg, c)) == Successor(QueueCount(cfg), QueueSerial(cfg, c))
  {
    if cfg.scheduling.RankThenBank? {
      RowMajorNext(cfg.numBanks, cfg.numRanks, c.bank, c.rank);
      MulCommutes(cfg.numBanks, cfg.numRanks);
    } else {
      RowMajorNext(cfg.numRanks, cfg.numBanks, c.rank, c.bank);
    }
  }

  /** A move shortens the way to any place other than the one just left. */
  lemma GapStep(n: nat, from: nat, to: nat)
    requires from < n && to < n
    ensures from != to ==> Gap(n, Successor(n, from), to) == Gap(n, from, to) - 1
    ensures from == to ==> Gap(n, Successor(n, from), to) == n - 1
  {}
}
