/** Machine words, addresses and bus transactions shared by every component. */
module Types {

  datatype Option<+T> = None | Some(value: T)

  type Word = x: int | 0 <= x < 0x1_0000_0000

  /** A word address of the 2^20-word main memory: tag (12 bits), index (6 bits), offset (2 bits). */
  type Addr = a: nat | a < 0x10_0000
  type Tag = t: nat | t < 0x1000
  type Index = i: nat | i < 64
  type Offset = w: nat | w < 4
  type CoreId = c: nat | c < 4

  /** The contents of the main memory, and of the flat memory it is compared with. */
  type Ram = m: seq<Word> | |m| == 0x10_0000 witness seq(0x10_0000, i => 0)

  function TagOf(a: Addr): Tag { a / 256 }

  function IndexOf(a: Addr): Index { a / 4 % 64 }

  function OffsetOf(a: Addr): Offset { a % 4 }

  /** The address with the given fields. */
  function Join(t: Tag, i: Index, w: Offset): Addr { t * 256 + i * 4 + w }

  /** The address with its two low bits overwritten. */
  function WithOffset(a: Addr, w: Offset): Addr { a - a % 4 + w }

  /** The position of a word in the data array of a cache. */
  function Slot(i: Index, w: Offset): (k: nat)
    ensures k < 256
  {
    i * 4 + w
  }

  predicate SameBlock(a: Addr, b: Addr) {
    TagOf(a) == TagOf(b) && IndexOf(a) == IndexOf(b)
  }

  lemma JoinFields(t: Tag, i: Index, w: Offset)
    ensures TagOf(Join(t, i, w)) == t && IndexOf(Join(t, i, w)) == i && OffsetOf(Join(t, i, w)) == w
  {
    var b := t * 64 + i;
    assert Join(t, i, w) == b * 4 + w;
    assert Join(t, i, w) / 4 == b;
    assert b % 64 == i && b / 64 == t;
    assert Join(t, i, w) / 256 == b / 64;
  }

  lemma FieldsJoin(a: Addr)
    ensures Join(TagOf(a), IndexOf(a), OffsetOf(a)) == a
  {
    var b := a / 4;
    assert a == b * 4 + a % 4;
    assert b == b / 64 * 64 + b % 64;
    assert a / 256 == b / 64;
  }

  /** The three fields of an address determine it, and rewriting the offset keeps the other two. */
  lemma AddressFields(a: Addr, t: Tag, i: Index, w: Offset)
    ensures Join(TagOf(a), IndexOf(a), OffsetOf(a)) == a
    ensures TagOf(Join(t, i, w)) == t && IndexOf(Join(t, i, w)) == i && OffsetOf(Join(t, i, w)) == w
    ensures WithOffset(a, w) == Join(TagOf(a), IndexOf(a), w)
  {
    JoinFields(t, i, w);
    FieldsJoin(a);
  }

  datatype Cmd = NoCmd | BusRd | BusRdX | Flush

  datatype Caller = Core(id: CoreId) | MainMemory | InvalidCaller

  datatype Transaction = Transaction(
    originalCaller: Caller, origid: Caller, cmd: Cmd, addr: Addr, data: Word, shared: bool)

  predicate IsFetch(t: Transaction) {
    t.cmd == BusRd || t.cmd == BusRdX
  }
}
