/** What one cache does: the line states, the snooping of bus transactions, and the answer to a
    transaction of its own.  The values here are the contents of the arrays of `CacheController`. */
module CacheModel {
  import opened Types

  datatype Mesi = Invalid | Shared | Exclusive | Modified

  datatype Line = Line(tag: Tag, mesi: Mesi)

  datatype Stats = Stats(readHits: nat, readMisses: nat, writeHits: nat, writeMisses: nat)

  type Tsram = s: seq<Line> | |s| == 64 witness seq(64, i => Line(0, Invalid))
  type Dram = s: seq<Word> | |s| == 256 witness seq(256, i => 0)

  datatype CacheState = CacheState(tsram: Tsram, dram: Dram, stats: Stats)

  /** A cache at power-on. */
  function EmptyCache(): CacheState {
    CacheState(seq(64, i => Line(0, Invalid)), seq(256, i => 0), Stats(0, 0, 0, 0))
  }

  type Caches = s: seq<CacheState> | |s| == 4 witness seq(4, c => EmptyCache())

  predicate Matches(l: Line, tag: Tag) {
    l.tag == tag && l.mesi != Invalid
  }

  /** The state a snooped line moves to on a command. */
  function NextState(m: Mesi, cmd: Cmd): Mesi {
    match m
    case Invalid => Invalid
    case Shared => if cmd == BusRdX then Invalid else Shared
    case Exclusive => if cmd == BusRd then Shared else if cmd == BusRdX then Invalid else Exclusive
    case Modified => if cmd == BusRd then Shared else if cmd == BusRdX then Invalid else Modified
  }

  /** Does cache `id` react to the transaction?  It ignores its own ones, unless they are (or have become) a flush. */
  predicate Snoops(c: CacheState, id: CoreId, t: Transaction) {
    && !(Core(id) == t.originalCaller && t.cmd != Flush)
    && Matches(c.tsram[IndexOf(t.addr)], TagOf(t.addr))
  }

  predicate Supplies(c: CacheState, id: CoreId, t: Transaction) {
    Snoops(c, id, t) && c.tsram[IndexOf(t.addr)].mesi == Modified && t.cmd != NoCmd
  }

  /** The transaction after cache `id` has seen it: a modified line puts its word on the bus and turns it into a
      flush. */
  function SnoopedTransaction(c: CacheState, id: CoreId, t: Transaction): Transaction {
    if Supplies(c, id, t) then
      t.(data := c.dram[Slot(IndexOf(t.addr), OffsetOf(t.addr))], cmd := Flush, origid := Core(id))
    else t
  }

  /** The cache after it has seen the transaction: a modified line changes state only with the last word. */
  function SnoopedCache(c: CacheState, id: CoreId, t: Transaction, off: Offset): CacheState {
    var i := IndexOf(t.addr);
    var l := c.tsram[i];
    if Snoops(c, id, t) && (off == 3 || l.mesi != Modified) then
      c.(tsram := c.tsram[i := l.(mesi := NextState(l.mesi, t.cmd))])
    else c
  }

  datatype Response = Response(cache: CacheState, offset: Offset, done: bool)

  /** The requester takes the word on the bus (its own flush carries nothing back) and advances the block offset. */
  function Respond(c: CacheState, id: CoreId, t: Transaction, off: Offset): Response {
    if Core(id) == t.origid && t.cmd != Flush then Response(c, off, false)
    else if Core(id) == t.origid then
      if off == 3 then Response(c, off, true) else Response(c, off + 1, false)
    else
      var i := IndexOf(t.addr);
      var l := c.tsram[i].(tag := TagOf(t.addr));
      var dram := if t.cmd == Flush then c.dram[Slot(i, OffsetOf(t.addr)) := t.data] else c.dram;
      if off == 3 then
        Response(c.(tsram := c.tsram[i := l.(mesi := if t.shared then Shared else Exclusive)], dram := dram), off, true)
      else Response(c.(tsram := c.tsram[i := l], dram := dram), off + 1, false)
  }
}
