/** Base32 (section 6 of RFC 4648) in the alphabet of service/random/id.go:13. */
module Base32 {

  import opened Bits

  const PAD: char := '='

  type Quintet = v: nat | v < 32

  const CHARSET: string := "ybndrfg8ejkmcpqxot1uwisza345h769"

  function Letter(v: Quintet): char {
    CHARSET[v]
  }

  predicate IsLetter(c: char) {
    ('a' <= c <= 'z' && c != 'l' && c != 'v') || ('1' <= c <= '9' && c != '2')
  }

  predicate AllLetters(s: string) {
    forall i :: 0 <= i < |s| ==> IsLetter(s[i])
  }

  /** The letter's place in the alphabet. */
  function Place(c: char): (v: Quintet)
    requires IsLetter(c)
  {
    match c
    case 'y' => 0 case 'b' => 1 case 'n' => 2 case 'd' => 3
    case 'r' => 4 case 'f' => 5 case 'g' => 6 case '8' => 7
    case 'e' => 8 case 'j' => 9 case 'k' => 10 case 'm' => 11
    case 'c' => 12 case 'p' => 13 case 'q' => 14 case 'x' => 15
    case 'o' => 16 case 't' => 17 case '1' => 18 case 'u' => 19
    case 'w' => 20 case 'i' => 21 case 's' => 22 case 'z' => 23
    case 'a' => 24 case '3' => 25 case '4' => 26 case '5' => 27
    case 'h' => 28 case '7' => 29 case '6' => 30 case _ => 31
  }

  /** No letter stands for two numbers: the alphabet has 32 of them, and the padding is none. */
  lemma PlaceOfLetter(v: Quintet)
    ensures IsLetter(Letter(v)) && Place(Letter(v)) == v && Letter(v) != PAD
  {
  }

  lemma LetterOfPlace(c: char)
    requires IsLetter(c)
    ensures Letter(Place(c)) == c
  {
  }

  function Letters(vs: seq<Quintet>): (s: string) {
    seq(|vs|, i requires 0 <= i < |vs| => Letter(vs[i]))
  }

  function Places(s: string): (vs: seq<Quintet>)
    requires AllLetters(s)
  {
    seq(|s|, i requires 0 <= i < |s| => Place(s[i]))
  }

  lemma PlacesOfLetters(vs: seq<Quintet>)
    ensures AllLetters(Letters(vs)) && Places(Letters(vs)) == vs
  {
    forall i | 0 <= i < |vs|
      ensures IsLetter(Letters(vs)[i]) && Place(Letters(vs)[i]) == vs[i]
    {
      PlaceOfLetter(vs[i]);
    }
  }

  lemma LettersOfPlaces(s: string)
    requires AllLetters(s)
    ensures Letters(Places(s)) == s
  {
    forall i | 0 <= i < |s|
      ensures Letters(Places(s))[i] == s[i]
    {
      LetterOfPlace(s[i]);
    }
  }

  /** A byte's last `k` bits, then the first `5 - k` of the next one. */
  function Across(a: Byte, k: nat, b: Byte): (v: Quintet)
    requires 0 < k < 5
  {
    LowFits(a, k);
    JoinFits(k, Low(a, k), 5 - k, Shr(b, k + 3));
    SmallPowers();
    Join(Low(a, k), 5 - k, Shr(b, k + 3))
  }

  /** The five bits of a byte that its last `n` follow. */
  function Within(a: Byte, n: nat): (v: Quintet) {
    LowFits(Shr(a, n), 5);
    SmallPowers();
    Low(Shr(a, n), 5)
  }

  /** Five bytes make eight quintets. */
  function Block(a: Byte, b: Byte, c: Byte, d: Byte, e: Byte): (vs: seq<Quintet>)
    ensures |vs| == 8
  {
    [Within(a, 3), Across(a, 3, b), Within(b, 1), Across(b, 1, c),
     Across(c, 4, d), Within(d, 2), Across(d, 2, e), Within(e, 0)]
  }

  /** One to four bytes at the end make two, four, five or seven quintets. */
  function Tail(data: seq<Byte>): (vs: seq<Quintet>)
    requires 0 < |data| < 5
  {
    var b, c, d := if |data| > 1 then data[1] else 0, if |data| > 2 then data[2] else 0, if |data| > 3 then data[3] else 0;
    var block := Block(data[0], b, c, d, 0);
    match |data|
    case 1 => block[..2]
    case 2 => block[..4]
    case 3 => block[..5]
    case 4 => block[..7]
  }

  function Quintets(data: seq<Byte>): (vs: seq<Quintet>) {
    if data == [] then []
    else if |data| < 5 then Tail(data)
    else Block(data[0], data[1], data[2], data[3], data[4]) + Quintets(data[5..])
  }

  /** The text without padding. */
  function Stripped(data: seq<Byte>): (s: string) {
    Letters(Quintets(data))
  }

  /** Padding up to a multiple of eight characters. */
  function Padding(data: seq<Byte>): (s: string) {
    match |data| % 5
    case 0 => ""
    case 1 => "======"
    case 2 => "===="
    case 3 => "==="
    case 4 => "="
  }

  /** What the encoder writes. */
  function Encode(data: seq<Byte>): (s: string) {
    Stripped(data) + Padding(data)
  }

  lemma UpToSecond(a: Byte, b: Byte, rest: seq<bool>)
    ensures Groups(Spread(8, a) + (Spread(8, b) + rest), 5)
         == [Within(a, 3), Across(a, 3, b), Within(b, 1)] + Groups(Spread(1, b) + rest, 5)
  {
    TakeWhole(5, 3, a, Spread(8, b) + rest);
    TakeCarried(3, a, 2, 6, b, rest);
    TakeWhole(5, 1, b, rest);
  }

  lemma UpToThird(a: Byte, b: Byte, c: Byte, rest: seq<bool>)
    ensures Groups(Spread(8, a) + (Spread(8, b) + (Spread(8, c) + rest)), 5)
         == [Within(a, 3), Across(a, 3, b), Within(b, 1), Across(b, 1, c)] + Groups(Spread(4, c) + rest, 5)
  {
    UpToSecond(a, b, Spread(8, c) + rest);
    TakeCarried(1, b, 4, 4, c, rest);
  }

  lemma UpToFourth(a: Byte, b: Byte, c: Byte, d: Byte, rest: seq<bool>)
    ensures Groups(Spread(8, a) + (Spread(8, b) + (Spread(8, c) + (Spread(8, d) + rest))), 5)
         == [Within(a, 3), Across(a, 3, b), Within(b, 1), Across(b, 1, c), Across(c, 4, d), Within(d, 2)]
            + Groups(Spread(2, d) + rest, 5)
  {
    UpToThird(a, b, c, Spread(8, d) + rest);
    TakeCarried(4, c, 1, 7, d, rest);
    TakeWhole(5, 2, d, rest);
  }

  lemma BlockIsGroups(a: Byte, b: Byte, c: Byte, d: Byte, e: Byte, rest: seq<bool>)
    ensures Groups(Spread(8, a) + (Spread(8, b) + (Spread(8, c) + (Spread(8, d) + (Spread(8, e) + rest)))), 5)
         == Block(a, b, c, d, e) + Groups(rest, 5)
  {
    UpToFourth(a, b, c, d, Spread(8, e) + rest);
    TakeCarried(2, d, 3, 5, e, rest);
    TakeWhole(5, 0, e, rest);
    assert Spread(0, e) + rest == rest;
  }

  /** The bits left over at the end, filled up. */
  lemma LastQuintet(a: Byte, k: nat)
    requires 0 < k < 5
    ensures Groups(Spread(k, a) + [], 5) == [Across(a, k, 0)]
  {
    LastGroup(k, a, 5 - k);
    ShrOfZero(k + 3);
    assert Spread(k, a) + [] == Spread(k, a);
  }

  lemma OneLeft(a: Byte)
    ensures Groups(Spread(8, a) + [], 5) == [Within(a, 3), Across(a, 3, 0)]
  {
    TakeWhole(5, 3, a, []);
    LastQuintet(a, 3);
  }

  lemma TwoLeft(a: Byte, b: Byte)
    ensures Groups(Spread(8, a) + (Spread(8, b) + []), 5)
         == [Within(a, 3), Across(a, 3, b), Within(b, 1), Across(b, 1, 0)]
  {
    UpToSecond(a, b, []);
    LastQuintet(b, 1);
  }

  lemma ThreeLeft(a: Byte, b: Byte, c: Byte)
    ensures Groups(Spread(8, a) + (Spread(8, b) + (Spread(8, c) + [])), 5)
         == [Within(a, 3), Across(a, 3, b), Within(b, 1), Across(b, 1, c), Across(c, 4, 0)]
  {
    UpToThird(a, b, c, []);
    LastQuintet(c, 4);
  }

  lemma FourLeft(a: Byte, b: Byte, c: Byte, d: Byte)
    ensures Groups(Spread(8, a) + (Spread(8, b) + (Spread(8, c) + (Spread(8, d) + []))), 5)
         == [Within(a, 3), Across(a, 3, b), Within(b, 1), Across(b, 1, c), Across(c, 4, d), Within(d, 2), Across(d, 2, 0)]
  {
    UpToFourth(a, b, c, d, []);
    LastQuintet(d, 2);
  }

  lemma {:induction false} TailIsGroups(data: seq<Byte>)
    requires 0 < |data| < 5
    ensures Tail(data) == Groups(BytesToBits(data), 5)
  {
    BytesToBitsStep(data);
    if |data| == 1 {
      OneLeft(data[0]);
    } else {
      BytesToBitsStep(data[1..]);
      if |data| == 2 {
        TwoLeft(data[0], data[1]);
      } else {
        assert data[1..][1..] == data[2..];
        BytesToBitsStep(data[2..]);
        if |data| == 3 {
          ThreeLeft(data[0], data[1], data[2]);
        } else {
          assert data[2..][1..] == data[3..];
          BytesToBitsStep(data[3..]);
          FourLeft(data[0], data[1], data[2], data[3]);
        }
      }
    }
  }

  lemma BitsOfBlock(data: seq<Byte>)
    requires |data| >= 5
    ensures BytesToBits(data)
         == Spread(8, data[0]) + (Spread(8, data[1]) + (Spread(8, data[2]) + (Spread(8, data[3])
            + (Spread(8, data[4]) + BytesToBits(data[5..])))))
  {
    BytesToBitsStep(data);
    BytesToBitsStep(data[1..]);
    BytesToBitsStep(data[2..]);
    BytesToBitsStep(data[3..]);
    BytesToBitsStep(data[4..]);
    assert data[1..][1..] == data[2..] && data[2..][1..] == data[3..];
    assert data[3..][1..] == data[4..] && data[4..][1..] == data[5..];
  }

  /** The block arithmetic cuts the bit string of the input into fives. */
  lemma {:induction false} QuintetsAreGroups(data: seq<Byte>)
    ensures Quintets(data) == Groups(BytesToBits(data), 5)
  {
    if data == [] {
    } else if |data| < 5 {
      TailIsGroups(data);
    } else {
      BitsOfBlock(data);
      BlockIsGroups(data[0], data[1], data[2], data[3], data[4], BytesToBits(data[5..]));
      QuintetsAreGroups(data[5..]);
    }
  }

  /** Reads a text without padding back: all whole bytes its letters hold. */
  function Decode(s: string): (data: seq<Byte>)
    requires AllLetters(s)
  {
    var bits := Ungroup(Places(s), 5);
    BitsToBytes(bits[..|bits| / 8 * 8])
  }

  lemma {:induction false} StrippedLength(data: seq<Byte>)
    ensures 8 * |data| <= 5 * |Stripped(data)| < 8 * |data| + 5
  {
    QuintetsAreGroups(data);
    GroupsLength(BytesToBits(data), 5);
  }

  /** The padding fills the text up to whole blocks of eight characters, and no further. */
  lemma PaddedToBlocks(data: seq<Byte>)
    ensures |Encode(data)| == (|data| + 4) / 5 * 8
    ensures forall i :: 0 <= i < |Padding(data)| ==> Padding(data)[i] == PAD
  {
    StrippedLength(data);
    FillsBlocks(|data|, |Stripped(data)|, |Padding(data)|);
  }

  lemma FillsBlocks(bytes: nat, letters: nat, padding: nat)
    requires 8 * bytes <= 5 * letters < 8 * bytes + 5
    requires bytes % 5 == 0 ==> padding == 0
    requires bytes % 5 == 1 ==> padding == 6
    requires bytes % 5 == 2 ==> padding == 4
    requires bytes % 5 == 3 ==> padding == 3
    requires bytes % 5 == 4 ==> padding == 1
    ensures letters + padding == (bytes + 4) / 5 * 8
  {
    var q, r := bytes / 5, bytes % 5;
    assert bytes == 5 * q + r && (bytes + 4) / 5 == if r == 0 then q else q + 1;
  }

  /** Dropping the padding loses nothing. */
  lemma DecodeOfStripped(data: seq<Byte>)
    ensures AllLetters(Stripped(data))
    ensures Decode(Stripped(data)) == data
  {
    var vs := Quintets(data);
    PlacesOfLetters(vs);
    BitsInLetters(data);
    BytesToBitsToBytes(data);
  }

  lemma BitsInLetters(data: seq<Byte>)
    ensures var bits := Ungroup(Quintets(data), 5); bits[..|bits| / 8 * 8] == BytesToBits(data)
  {
    var bits, vs := BytesToBits(data), Quintets(data);
    QuintetsAreGroups(data);
    GroupsLength(bits, 5);
    UngroupLength(vs, 5);
    WholeBytes(|Ungroup(vs, 5)|, |data|);
    UngroupOfGroups(bits, 5);
  }

  lemma WholeBytes(bits: nat, bytes: nat)
    requires 8 * bytes <= bits < 8 * bytes + 5
    ensures bits / 8 * 8 == 8 * bytes
  {
  }

  lemma StrippedIsInjective(a: seq<Byte>, b: seq<Byte>)
    requires Stripped(a) == Stripped(b)
    ensures a == b
  {
    DecodeOfStripped(a);
    DecodeOfStripped(b);
  }
}

/** Random identifiers (service/random/id.go). The bytes of the UUID are a parameter. */
module Id {

  import opened Wrappers
  import opened Bits
  import opened Base32

  const LENGTH: nat := 26

  function FirstBlock(data: seq<Byte>): (s: string)
    requires |data| >= 5
  {
    Letters(Block(data[0], data[1], data[2], data[3], data[4]))
  }

  lemma LettersOfConcat(a: seq<Quintet>, b: seq<Quintet>)
    ensures Letters(a + b) == Letters(a) + Letters(b)
  {
  }

  lemma SamePadding(data: seq<Byte>)
    requires |data| >= 5
    ensures Padding(data) == Padding(data[5..])
  {
    assert |data| % 5 == |data[5..]| % 5;
  }

  /** The first block does not depend on what follows it. */
  lemma EncodeStep(data: seq<Byte>)
    requires |data| >= 5
    ensures Encode(data) == FirstBlock(data) + Encode(data[5..])
  {
    LettersOfConcat(Block(data[0], data[1], data[2], data[3], data[4]), Quintets(data[5..]));
    SamePadding(data);
    Assoc(FirstBlock(data), Stripped(data[5..]), Padding(data));
  }

  lemma EncodeHead(blocks: seq<Byte>, rest: seq<Byte>)
    requires |blocks| >= 5
    ensures Encode(blocks) == FirstBlock(blocks) + Encode(blocks[5..])
    ensures Encode(blocks + rest) == FirstBlock(blocks) + Encode(blocks[5..] + rest)
  {
    EncodeStep(blocks);
    EncodeStep(blocks + rest);
    assert (blocks + rest)[5..] == blocks[5..] + rest;
  }

  /** Whole blocks can be encoded ahead of the rest. */
  lemma {:induction false} EncodeOfBlocks(blocks: seq<Byte>, rest: seq<Byte>)
    requires |blocks| % 5 == 0
    ensures Encode(blocks + rest) == Encode(blocks) + Encode(rest)
    decreases |blocks|
  {
    if blocks == [] {
      assert blocks + rest == rest;
      assert Encode([]) == "";
    } else {
      EncodeHead(blocks, rest);
      EncodeOfBlocks(blocks[5..], rest);
      Assoc(FirstBlock(blocks), Encode(blocks[5..]), Encode(rest));
    }
  }

  lemma MoveOver(done: seq<Byte>, pending: seq<Byte>, n: nat)
    requires n <= |pending|
    ensures (done + pending[..n]) + pending[n..] == done + pending
  {
  }

  /** The encoder of a stream: it holds back what does not fill a block of five bytes yet. */
  class Encoder {
    var out: string
    var pending: seq<Byte>
    /** The bytes that went out. */
    ghost var done: seq<Byte>

    ghost predicate Consistent()
      reads this
    {
      |done| % 5 == 0 && out == Encode(done)
    }

    ghost predicate Valid()
      reads this
    {
      |pending| < 5 && Consistent()
    }

    /** All the bytes written so far. */
    ghost function Written(): (data: seq<Byte>)
      reads this
    {
      done + pending
    }

    constructor ()
      ensures Valid() && Written() == []
    {
      out, pending, done := "", [], [];
    }

    method Write(data: seq<Byte>)
      requires Valid()
      modifies this
      ensures Valid()
      ensures Written() == old(Written()) + data
    {
      Assoc(done, pending, data);
      pending := pending + data;
      while |pending| >= 5
        invariant Consistent()
        invariant Written() == old(Written()) + data
        decreases |pending|
      {
        WriteBlock();
      }
    }

    method WriteBlock()
      requires Consistent() && |pending| >= 5
      modifies this
      ensures Consistent()
      ensures Written() == old(Written()) && |pending| == |old(pending)| - 5
    {
      EncodeOfBlocks(done, pending[..5]);
      MoveOver(done, pending, 5);
      out := out + Encode(pending[..5]);
      done := done + pending[..5];
      pending := pending[5..];
    }

    /** However the bytes came in, closing completes the encoding of all of them. */
    method Close()
      requires Valid()
      modifies this
      ensures out == Encode(old(Written()))
      ensures pending == []
    {
      EncodeOfBlocks(done, pending);
      if pending != [] {
        out := out + Encode(pending);
        pending := [];
      } else {
        assert done + pending == done;
      }
    }
  }

  /**
   * An identifier for the bytes of a UUID. None stands for the panic of truncating the buffer to more
   * than it holds.
   */
  method NewID(uuid: seq<Byte>) returns (id: Option<string>)
    ensures id.Some? <==> LENGTH <= |Encode(uuid)|
    ensures id.Some? ==> id.value == Encode(uuid)[..LENGTH]
  {
    var encoder := new Encoder();
    encoder.Write(uuid);
    encoder.Close();
    assert uuid == [] + uuid;
    if |encoder.out| < LENGTH {
      return None;
    }
    encoder.out := encoder.out[..LENGTH];
    return Some(encoder.out);
  }

  /** With fewer than the 16 bytes of a UUID the buffer is too short to be truncated. */
  lemma PanicsIffUuidIsShort(uuid: seq<Byte>)
    ensures LENGTH <= |Encode(uuid)| <==> 16 <= |uuid|
  {
    StrippedLength(uuid);
  }

  /** Truncation drops the padding and nothing else. */
  lemma TruncationDropsPadding(uuid: seq<Byte>)
    requires |uuid| == 16
    ensures |Stripped(uuid)| == LENGTH
    ensures Encode(uuid)[..LENGTH] == Stripped(uuid)
    ensures Encode(uuid)[LENGTH..] == "======"
  {
    StrippedLength(uuid);
  }

  /** The identifier of a UUID. */
  function IdOf(uuid: seq<Byte>): (id: string)
    requires |uuid| == 16
  {
    PanicsIffUuidIsShort(uuid);
    Encode(uuid)[..LENGTH]
  }

  /** An identifier is 26 letters of the alphabet from which the UUID can be read back. */
  lemma IdIsReversible(uuid: seq<Byte>)
    requires |uuid| == 16
    ensures |IdOf(uuid)| == 26 && AllLetters(IdOf(uuid)) && Decode(IdOf(uuid)) == uuid
  {
    TruncationDropsPadding(uuid);
    DecodeOfStripped(uuid);
  }

  lemma DifferentUuidsDifferentIds(a: seq<Byte>, b: seq<Byte>)
    requires |a| == 16 && |b| == 16 && a != b
    ensures IdOf(a) != IdOf(b)
  {
    IdIsReversible(a);
    IdIsReversible(b);
  }

  /** The last letter only has three bits of the UUID to show. */
  ghost predicate IsId(s: string) {
    |s| == LENGTH && AllLetters(s) && Place(s[LENGTH - 1]) % 4 == 0
  }

  /** The identifiers are exactly the 26-letter texts whose last letter has its two low bits clear. */
  lemma IdsAre(s: string)
    ensures IsId(s) <==> exists uuid: seq<Byte> :: |uuid| == 16 && IdOf(uuid) == s
  {
    if IsId(s) {
      TextOfId(s);
      assert IdOf(Decode(s)) == s;
    }
    if uuid: seq<Byte> :| |uuid| == 16 && IdOf(uuid) == s {
      IdOfUuid(uuid);
    }
  }

  lemma IdOfUuid(uuid: seq<Byte>)
    requires |uuid| == 16
    ensures IsId(IdOf(uuid))
  {
    TruncationDropsPadding(uuid);
    PlacesOfLetters(Quintets(uuid));
    LastQuintets(uuid);
    var vs := Quintets(uuid);
    assert Places(Letters(vs))[25] == vs[25];
  }

  lemma LastOfRest(data: seq<Byte>)
    requires |data| > 5
    ensures |Quintets(data)| == 8 + |Quintets(data[5..])|
    ensures |Quintets(data[5..])| > 0
    ensures Quintets(data)[|Quintets(data)| - 1] == Quintets(data[5..])[|Quintets(data[5..])| - 1]
  {
  }

  lemma LastQuintets(uuid: seq<Byte>)
    requires |uuid| == 16
    ensures |Quintets(uuid)| == 26 && Quintets(uuid)[25] % 4 == 0
  {
    LastOfRest(uuid);
    LastOfRest(uuid[5..]);
    LastOfRest(uuid[5..][5..]);
    LastOfTail(uuid[5..][5..][5..][0]);
    assert Quintets(uuid[5..][5..][5..]) == Tail(uuid[5..][5..][5..]);
  }

  lemma TextOfId(s: string)
    requires IsId(s)
    ensures |Decode(s)| == 16 && IdOf(Decode(s)) == s
  {
    var vs := Places(s);
    assert vs == vs[..25] + [vs[25]];
    LastOfId(vs[..25], vs[25]);
    BitsToBytesToBits(Ungroup(vs, 5)[..128]);
    QuintetsAreGroups(Decode(s));
    LettersOfPlaces(s);
    TruncationDropsPadding(Decode(s));
  }

  lemma MultipleOfFour(v: Quintet)
    requires v % 4 == 0
    ensures Join(Low(Shr(v, 2), 3), 2, 0) == v
  {
    var q := v / 2 / 2;
    assert Shr(v, 2) == Shr(v / 2, 1) == Shr(q, 0) == q;
    assert Low(q, 3) == 2 * Low(q / 2, 2) + q % 2 && Low(q / 2, 2) == 2 * Low(q / 2 / 2, 1) + q / 2 % 2;
    assert Low(q / 2 / 2, 1) == q / 2 / 2 % 2;
    assert Join(q, 2, 0) == 2 * Join(q, 1, 0) && Join(q, 1, 0) == 2 * Join(q, 0, 0);
  }

  lemma LastOfTail(a: Byte)
    ensures Across(a, 3, 0) % 4 == 0
  {
    ShrOfZero(6);
    var x := Low(a, 3);
    assert Join(x, 2, 0) == 2 * Join(x, 1, 0) && Join(x, 1, 0) == 2 * Join(x, 0, 0);
  }

  lemma LastOfId(init: seq<Quintet>, last: Quintet)
    requires |init| == 25 && last % 4 == 0
    ensures |Ungroup(init + [last], 5)| == 130
    ensures Groups(Ungroup(init + [last], 5)[..128], 5) == init + [last]
  {
    var end := Spread(3, Shr(last, 2));
    SpreadOfShr(3, 2, last);
    MultipleOfFour(last);
    UngroupEnd(init, last);
    UngroupLength(init, 5);
    assert Ungroup(init + [last], 5)[..128] == Ungroup(init, 5) + end;
    LastGroup(3, Shr(last, 2), 2);
    WholeGroupsFirst(init, 5, end);
  }

  lemma UngroupEnd(init: seq<Quintet>, last: Quintet)
    ensures Ungroup(init + [last], 5) == Ungroup(init, 5) + Spread(5, last)
  {
    UngroupOfConcat(init, [last]);
    assert Ungroup([last], 5) == Spread(5, last) + Ungroup([], 5) == Spread(5, last);
  }

  lemma {:induction false} UngroupOfConcat(a: seq<nat>, b: seq<nat>)
    ensures Ungroup(a + b, 5) == Ungroup(a, 5) + Ungroup(b, 5)
  {
    if a == [] {
      assert a + b == b;
    } else {
      UngroupOfConcat(a[1..], b);
      assert (a + b)[1..] == a[1..] + b;
    }
  }
}
