/** Machine words and their big-endian byte encodings, as the frame header uses them. */
module Words {

  const TWO_TO_THE_16: int := 0x1_0000
  const TWO_TO_THE_32: int := 0x1_0000_0000

  type byte = b: int | 0 <= b < 256
  type u16 = x: int | 0 <= x < TWO_TO_THE_16
  type u32 = x: int | 0 <= x < TWO_TO_THE_32

  datatype Option<+T> = None | Some(value: T)

  /** `wrapping_add(1)` on a `u32`. */
  function Next32(x: u32): u32 {
    if x == TWO_TO_THE_32 - 1 then 0 else x + 1
  }

  /** `wrapping_add(1)` on a `u16`, which is what `AtomicU16::fetch_add(1)` leaves behind. */
  function Next16(x: u16): u16 {
    if x == TWO_TO_THE_16 - 1 then 0 else x + 1
  }

  /** The number that position `n` of a stream carries: `n` modulo 2^32. */
  function Low32(n: nat): u32 {
    n % TWO_TO_THE_32
  }

  function Block(n: nat): nat {
    n / TWO_TO_THE_32
  }

  lemma SplitPosition(n: nat, block: nat, low: u32)
    ensures n == Block(n) * TWO_TO_THE_32 + Low32(n)
    ensures n == block * TWO_TO_THE_32 + low ==> Block(n) == block && Low32(n) == low
  {
  }

  lemma NextPosition(n: nat)
    ensures Low32(n + 1) == Next32(Low32(n))
  {
    SplitPosition(n, 0, 0);
    if Low32(n) == TWO_TO_THE_32 - 1 {
      SplitPosition(n + 1, Block(n) + 1, 0);
    } else {
      SplitPosition(n + 1, Block(n), Low32(n) + 1);
    }
  }

  function Be16(x: u16): (s: seq<byte>)
    ensures |s| == 2
  {
    [x / 256, x % 256]
  }

  function Be32(x: u32): (s: seq<byte>)
    ensures |s| == 4
  {
    Be16(x / 0x1_0000) + Be16(x % 0x1_0000)
  }

  function FromBe16(s: seq<byte>): u16
    requires |s| == 2
  {
    s[0] as int * 256 + s[1] as int
  }

  function FromBe32(s: seq<byte>): u32
    requires |s| == 4
  {
    FromBe16(s[..2]) * 0x1_0000 + FromBe16(s[2..])
  }

  /** Encoding and decoding 16-bit words are inverse to each other. */
  lemma Be16Bijective(x: u16, s: seq<byte>)
    requires |s| == 2
    ensures FromBe16(Be16(x)) == x
    ensures Be16(FromBe16(s)) == s
  {
  }

  /** Encoding and decoding 32-bit words are inverse to each other. */
  lemma Be32Bijective(x: u32, s: seq<byte>)
    requires |s| == 4
    ensures FromBe32(Be32(x)) == x
    ensures Be32(FromBe32(s)) == s
  {
    Be16Bijective(x / 0x1_0000, s[..2]);
    Be16Bijective(x % 0x1_0000, s[2..]);
    assert Be32(x)[..2] == Be16(x / 0x1_0000) && Be32(x)[2..] == Be16(x % 0x1_0000);
    assert s == s[..2] + s[2..];
  }
}

/** Concatenation of chunk lists, and `slice::chunks`. */
module Sequences {
  import opened Words

  function Front<T>(xs: seq<T>): seq<T>
    requires xs != []
  {
    xs[..|xs| - 1]
  }

  function Last<T>(xs: seq<T>): T
    requires xs != []
  {
    xs[|xs| - 1]
  }

  function Concat(chunks: seq<seq<byte>>): seq<byte> {
    if chunks == [] then [] else chunks[0] + Concat(chunks[1..])
  }

  lemma {:induction false} ConcatAppend(a: seq<seq<byte>>, b: seq<seq<byte>>)
    ensures Concat(a + b) == Concat(a) + Concat(b)
  {
    if a == [] {
      assert a + b == b;
    } else {
      ConcatAppend(a[1..], b);
      assert a + b == [a[0]] + (a[1..] + b);
      ConcatCons(a[0], a[1..] + b);
    }
  }

  lemma ConcatOne(c: seq<byte>)
    ensures Concat([c]) == c
  {
    assert Concat([c]) == c + Concat([]);
  }

  lemma ConcatCons(c: seq<byte>, a: seq<seq<byte>>)
    ensures Concat([c] + a) == c + Concat(a)
  {
    assert ([c] + a)[1..] == a;
  }

  lemma ConcatSnoc(a: seq<seq<byte>>, c: seq<byte>)
    ensures Concat(a + [c]) == Concat(a) + c
  {
    ConcatAppend(a, [c]);
    ConcatOne(c);
  }

  /** A shorter list of chunks concatenates to a prefix. */
  lemma ConcatPrefix(a: seq<seq<byte>>, b: seq<seq<byte>>)
    requires a <= b
    ensures Concat(a) <= Concat(b)
  {
    assert b == a + b[|a|..];
    ConcatAppend(a, b[|a|..]);
  }

  /** Chunks `from` to `to` extend the text of the chunks before them. */
  lemma ConcatExtend(chunks: seq<seq<byte>>, from: nat, to: nat)
    requires from < to <= |chunks|
    ensures Concat(chunks[..to]) == Concat(chunks[..from]) + Concat([chunks[from]] + chunks[from + 1..to])
  {
    assert chunks[..to] == chunks[..from] + ([chunks[from]] + chunks[from + 1..to]);
    ConcatAppend(chunks[..from], [chunks[from]] + chunks[from + 1..to]);
  }

  const CHUNK_SIZE: int := 7000

  /** `data.chunks(CHUNK_SIZE)`: consecutive pieces of 7000 bytes, the last one possibly shorter. */
  function Chunks(data: seq<byte>): seq<seq<byte>>
    decreases |data|
  {
    if |data| == 0 then []
    else if |data| <= CHUNK_SIZE then [data]
    else [data[..CHUNK_SIZE]] + Chunks(data[CHUNK_SIZE..])
  }

  /** The pieces are never empty nor longer than 7000 bytes, they put the data back together, and
      there are `ceil(|data| / 7000)` of them. */
  lemma {:induction false} ChunksPartition(data: seq<byte>)
    ensures Concat(Chunks(data)) == data
    ensures forall i :: 0 <= i < |Chunks(data)| ==> 0 < |Chunks(data)[i]| <= CHUNK_SIZE
    ensures (|Chunks(data)| - 1) * CHUNK_SIZE < |data| <= |Chunks(data)| * CHUNK_SIZE
    decreases |data|
  {
    if |data| == 0 {
    } else if |data| <= CHUNK_SIZE {
      ConcatOne(data);
    } else {
      var rest := Chunks(data[CHUNK_SIZE..]);
      ChunksPartition(data[CHUNK_SIZE..]);
      assert ([data[..CHUNK_SIZE]] + rest)[1..] == rest;
    }
  }
}
