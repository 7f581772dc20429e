/** Fixed-width unsigned integers and the wrapping arithmetic the protocol uses on them. */
module Words {

  type u8 = x: int | 0 <= x < 0x100
  type u16 = x: int | 0 <= x < 0x1_0000
  type u32 = x: int | 0 <= x < 0x1_0000_0000

  type Bytes = seq<u8>

  function WrappingAdd(a: u16, b: u16): u16 {
    (a + b) % 0x1_0000
  }

  function WrappingSub(a: u16, b: u16): u16 {
    (a - b) % 0x1_0000
  }

  /** The on-wire number of the segment with unbounded index `i`, when index 0 carries number `isn`. */
  function Num(isn: u16, i: int): u16 {
    (isn + i) % 0x1_0000
  }

  /** Numbers tell two indices apart as long as these are less than a full turn from each other. */
  lemma NumInjective(isn: u16, i: int, j: int)
    requires Num(isn, i) == Num(isn, j)
    requires -0x1_0000 < i - j < 0x1_0000
    ensures i == j
  {
    assert ((isn + i) - (isn + j)) % 0x1_0000 == 0;
  }

  /** Short of a wrap, a number is just a sum. */
  lemma NumPlain(isn: u16, i: int)
    requires 0 <= isn + i < 0x1_0000
    ensures Num(isn, i) == isn + i
  {
  }

  lemma NumNum(isn: u16, i: int, j: int)
    ensures Num(Num(isn, i), j) == Num(isn, i + j)
  {
  }

  lemma NumSucc(isn: u16, i: int)
    ensures WrappingAdd(Num(isn, i), 1) == Num(isn, i + 1)
  {
  }

  /** Circular distance between numbers is distance between indices, modulo a full turn. */
  lemma NumDistance(isn: u16, i: int, j: int)
    ensures WrappingSub(Num(isn, i), Num(isn, j)) == (i - j) % 0x1_0000
  {
  }

  /** Result of an operation that can fail. */
  datatype Result<+T, +E> = Ok(value: T) | Err(error: E)

  datatype Option<+T> = None | Some(value: T)

  /** Concatenation of a sequence of byte strings. */
  function Concat(ss: seq<Bytes>): Bytes {
    if ss == [] then [] else ss[0] + Concat(ss[1..])
  }

  lemma ConcatCons(s: Bytes, ss: seq<Bytes>)
    ensures Concat([s] + ss) == s + Concat(ss)
  {
    assert ([s] + ss)[1..] == ss;
  }

  lemma Associate<T>(a: seq<T>, b: seq<T>, c: seq<T>)
    ensures (a + b) + c == a + (b + c)
  {
  }

  lemma {:induction false} ConcatAppend(ss: seq<Bytes>, ts: seq<Bytes>)
    ensures Concat(ss + ts) == Concat(ss) + Concat(ts)
  {
    if ss == [] {
      assert ss + ts == ts;
    } else {
      ConcatAppend(ss[1..], ts);
      assert ss + ts == [ss[0]] + (ss[1..] + ts);
      ConcatCons(ss[0], ss[1..] + ts);
      Associate(ss[0], Concat(ss[1..]), Concat(ts));
    }
  }

  lemma ConcatPrefix(ss: seq<Bytes>, ts: seq<Bytes>)
    requires ss <= ts
    ensures Concat(ss) <= Concat(ts)
  {
    ConcatAppend(ss, ts[|ss|..]);
    assert ss + ts[|ss|..] == ts;
  }
}
