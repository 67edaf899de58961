/** Base64 in the URL alphabet without padding: sections 4 and 5 of RFC 4648. */
module Base64 {

  import opened Bits

  type Sextet = v: nat | v < 64

  function Letter(v: Sextet): char {
    (if v < 26 then 'A' as int + v
     else if v < 52 then 'a' as int + (v - 26)
     else if v < 62 then '0' as int + (v - 52)
     else if v == 62 then '-' as int
     else '_' as int) as char
  }

  predicate IsLetter(c: char) {
    'A' <= c <= 'Z' || 'a' <= c <= 'z' || '0' <= c <= '9' || c == '-' || c == '_'
  }

  predicate AllLetters(s: string) {
    forall i :: 0 <= i < |s| ==> IsLetter(s[i])
  }

  /** The letter's place in the alphabet. */
  function Place(c: char): (v: Sextet)
    requires IsLetter(c)
  {
    if 'A' <= c <= 'Z' then c as int - 'A' as int
    else if 'a' <= c <= 'z' then c as int - 'a' as int + 26
    else if '0' <= c <= '9' then c as int - '0' as int + 52
    else if c == '-' then 62
    else 63
  }

  lemma LetterOfPlace(c: char)
    requires IsLetter(c)
    ensures Letter(Place(c)) == c
  {
  }

  lemma PlaceOfLetter(v: Sextet)
    ensures IsLetter(Letter(v)) && Place(Letter(v)) == v
  {
  }

  const CAPITALS: string := "ABCDEFGHIJKLMNOPQRSTUVWXYZ"
  const SMALLS: string := "abcdefghijklmnopqrstuvwxyz"
  const DIGITS: string := "0123456789"

  /** The letters in the order of the URL alphabet (table 2 of RFC 4648). */
  lemma LettersAreThoseOfTheTable(v: Sextet)
    ensures Letter(v) == (if v < 26 then CAPITALS[v] else if v < 52 then SMALLS[v - 26] else if v < 62 then DIGITS[v - 52]
                          else "-_"[v - 62])
  {
  }

  function Letters(vs: seq<Sextet>): (s: string) {
    seq(|vs|, i requires 0 <= i < |vs| => Letter(vs[i]))
  }

  function Places(s: string): (vs: seq<Sextet>)
    requires AllLetters(s)
  {
    seq(|s|, i requires 0 <= i < |s| => Place(s[i]))
  }

  lemma PlacesOfLetters(vs: seq<Sextet>)
    ensures AllLetters(Letters(vs)) && Places(Letters(vs)) == vs
  {
    forall i | 0 <= i < |vs|
      ensures IsLetter(Letters(vs)[i]) && Place(Letters(vs)[i]) == vs[i]
    {
      PlaceOfLetter(vs[i]);
    }
  }

  lemma LettersOfPlaces(s: string)
    requires AllLetters(s)
    ensures Letters(Places(s)) == s
  {
    forall i | 0 <= i < |s|
      ensures Letters(Places(s))[i] == s[i]
    {
      LetterOfPlace(s[i]);
    }
  }

  /** A byte's last `k` bits, then the first `6 - k` of the next one. */
  function Across(a: Byte, k: nat, b: Byte): (v: Sextet)
    requires 0 < k < 6
  {
    LowFits(a, k);
    JoinFits(k, Low(a, k), 6 - k, Shr(b, k + 2));
    SmallPowers();
    Join(Low(a, k), 6 - k, Shr(b, k + 2))
  }

  /** The six bits of a byte that its last `n` follow. */
  function Within(a: Byte, n: nat): (v: Sextet) {
    LowFits(Shr(a, n), 6);
    SmallPowers();
    Low(Shr(a, n), 6)
  }

  function Block(a: Byte, b: Byte, c: Byte): (vs: seq<Sextet>)
    ensures |vs| == 4
  {
    [Within(a, 2), Across(a, 2, b), Across(b, 4, c), Within(c, 0)]
  }

  /** Three bytes make four sextets; one or two left over make two or three. */
  function Sextets(data: seq<Byte>): (vs: seq<Sextet>) {
    if data == [] then []
    else if |data| == 1 then Block(data[0], 0, 0)[..2]
    else if |data| == 2 then Block(data[0], data[1], 0)[..3]
    else Block(data[0], data[1], data[2]) + Sextets(data[3..])
  }

  function Encode(data: seq<Byte>): (s: string) {
    Letters(Sextets(data))
  }

  lemma BlockIsGroups(a: Byte, b: Byte, c: Byte, rest: seq<bool>)
    ensures Groups(Spread(8, a) + (Spread(8, b) + (Spread(8, c) + rest)), 6) == Block(a, b, c) + Groups(rest, 6)
  {
    TakeWhole(6, 2, a, Spread(8, b) + (Spread(8, c) + rest));
    TakeCarried(2, a, 4, 4, b, Spread(8, c) + rest);
    TakeCarried(4, b, 2, 6, c, rest);
    TakeWhole(6, 0, c, rest);
    assert Spread(0, c) + rest == rest;
  }

  /** The bits left over at the end, filled up. */
  lemma LastSextet(a: Byte, k: nat)
    requires 0 < k < 6
    ensures Groups(Spread(k, a) + [], 6) == [Across(a, k, 0)]
  {
    LastGroup(k, a, 6 - k);
    ShrOfZero(k + 2);
    assert Spread(k, a) + [] == Spread(k, a);
  }

  lemma OneLeft(a: Byte)
    ensures Groups(Spread(8, a) + [], 6) == Block(a, 0, 0)[..2]
  {
    TakeWhole(6, 2, a, []);
    LastSextet(a, 2);
  }

  lemma TwoLeft(a: Byte, b: Byte)
    ensures Groups(Spread(8, a) + (Spread(8, b) + []), 6) == Block(a, b, 0)[..3]
  {
    TakeWhole(6, 2, a, Spread(8, b) + []);
    TakeCarried(2, a, 4, 4, b, []);
    LastSextet(b, 4);
  }

  lemma BitsOfBlock(data: seq<Byte>)
    requires |data| >= 3
    ensures BytesToBits(data)
         == Spread(8, data[0]) + (Spread(8, data[1]) + (Spread(8, data[2]) + BytesToBits(data[3..])))
  {
    BytesToBitsStep(data);
    BytesToBitsStep(data[1..]);
    BytesToBitsStep(data[2..]);
    assert data[1..][1..] == data[2..] && data[2..][1..] == data[3..];
  }

  /** The block arithmetic cuts the bit string of the input into sixes. */
  lemma {:induction false} SextetsAreGroups(data: seq<Byte>)
    ensures Sextets(data) == Groups(BytesToBits(data), 6)
  {
    if data == [] {
    } else if |data| == 1 {
      BytesToBitsStep(data);
      OneLeft(data[0]);
    } else if |data| == 2 {
      BytesToBitsStep(data);
      BytesToBitsStep(data[1..]);
      TwoLeft(data[0], data[1]);
    } else {
      BitsOfBlock(data);
      BlockIsGroups(data[0], data[1], data[2], BytesToBits(data[3..]));
      SextetsAreGroups(data[3..]);
    }
  }
}

/**
 * Fresh keys and bearer tokens (service/auth/crypto.go): random bytes in base64, cut to length. What
 * the random source delivers is a parameter.
 */
module Token {

  import opened Wrappers
  import opened Bits
  import opened Base64
  import Auth

  /** How many random bytes are asked for. */
  function Size(length: nat): nat {
    1 + length * 4 / 3
  }

  /** Bits of the buffer that no character of the string shows. */
  function FillerLength(length: nat): nat {
    8 * Size(length) - 6 * length
  }

  /** Outcome of reading the random source: an error, or some bytes (never more than asked for). */
  datatype Read = ReadError | ReadBytes(data: seq<Byte>)

  lemma SliceIsInRange(length: nat, data: seq<Byte>)
    requires |data| == Size(length)
    ensures length <= |Encode(data)|
    ensures 6 * length <= 8 * |data|
  {
    SextetsAreGroups(data);
    GroupsLength(BytesToBits(data), 6);
  }

  function RandomString(length: nat, data: seq<Byte>): (s: string)
    requires |data| == Size(length)
    ensures |s| == length
  {
    SliceIsInRange(length, data);
    Encode(data)[..length]
  }

  method NewRandomString(length: nat, read: Read) returns (r: Option<string>)
    requires read.ReadBytes? ==> |read.data| <= Size(length)
    ensures r == match read
                 case ReadError => None
                 case ReadBytes(data) => if |data| == Size(length) then Some(RandomString(length, data)) else None
  {
    if read.ReadError? {
      return None;
    } else if |read.data| != Size(length) {
      return None;
    }
    SliceIsInRange(length, read.data);
    return Some(Encode(read.data)[..length]);
  }

  function Filler(length: nat, data: seq<Byte>): (bits: seq<bool>)
    requires |data| == Size(length)
    ensures |bits| == FillerLength(length)
  {
    BytesToBits(data)[6 * length..]
  }

  /** The buffer that shows as `s` and has `filler` behind it. */
  function Source(length: nat, s: string, filler: seq<bool>): (data: seq<Byte>)
    requires |s| == length && AllLetters(s) && |filler| == FillerLength(length)
    ensures |data| == Size(length)
  {
    UngroupLength(Places(s), 6);
    BitsToBytes(Ungroup(Places(s), 6) + filler)
  }

  /** Whole sextets at the front of a bit string can be cut off before grouping. */
  lemma SextetsOfPrefix(bits: seq<bool>, k: nat)
    requires 6 * k <= |bits|
    ensures k <= |Groups(bits, 6)|
    ensures Ungroup(Groups(bits, 6)[..k], 6) == bits[..6 * k]
  {
    var prefix, rest := bits[..6 * k], bits[6 * k..];
    var gs := Groups(prefix, 6);
    WholeSextets(prefix, k);
    GroupsAreGroups(prefix, 6);
    WholeGroupsFirst(gs, 6, rest);
    assert bits == prefix + rest;
    assert (gs + Groups(rest, 6))[..k] == gs;
  }

  lemma WholeSextets(bits: seq<bool>, k: nat)
    requires |bits| == 6 * k
    ensures |Groups(bits, 6)| == k
    ensures Ungroup(Groups(bits, 6), 6) == bits
  {
    GroupsLength(bits, 6);
    UngroupOfGroups(bits, 6);
    UngroupLength(Groups(bits, 6), 6);
  }

  /** The string's characters are the first `6 * length` bits of the buffer, and nothing else. */
  lemma ShowsItsFirstBits(length: nat, data: seq<Byte>)
    requires |data| == Size(length)
    ensures AllLetters(RandomString(length, data))
    ensures Ungroup(Places(RandomString(length, data)), 6) == BytesToBits(data)[..6 * length]
  {
    var vs := Sextets(data);
    SliceIsInRange(length, data);
    SextetsAreGroups(data);
    PlacesOfLetters(vs[..length]);
    assert RandomString(length, data) == Letters(vs[..length]);
    SextetsOfPrefix(BytesToBits(data), length);
  }

  /** Every string of letters is drawn, whatever the filler. */
  lemma EveryStringIsDrawn(length: nat, s: string, filler: seq<bool>)
    requires |s| == length && AllLetters(s) && |filler| == FillerLength(length)
    ensures RandomString(length, Source(length, s, filler)) == s
    ensures Filler(length, Source(length, s, filler)) == filler
  {
    var vs := Places(s);
    var data := Source(length, s, filler);
    UngroupLength(vs, 6);
    BitsToBytesToBits(Ungroup(vs, 6) + filler);
    assert AreGroups(vs, 6) by { SmallPowers(); }
    WholeGroupsFirst(vs, 6, filler);
    SextetsAreGroups(data);
    SliceIsInRange(length, data);
    assert Sextets(data)[..length] == vs;
    LettersOfPlaces(s);
    assert RandomString(length, data) == Letters(vs);
  }

  /** A buffer is no more than the string it shows and its filler. */
  lemma BufferIsDetermined(length: nat, data: seq<Byte>)
    requires |data| == Size(length)
    ensures AllLetters(RandomString(length, data))
    ensures Source(length, RandomString(length, data), Filler(length, data)) == data
  {
    var bits, s := BytesToBits(data), RandomString(length, data);
    ShowsItsFirstBits(length, data);
    assert Ungroup(Places(s), 6) + Filler(length, data) == bits by {
      assert bits[..6 * length] + bits[6 * length..] == bits;
    }
    BytesToBitsToBytes(data);
  }

  /** All bit strings of one length. */
  ghost function AllBits(n: nat): set<seq<bool>> {
    if n == 0 then {[]} else Appended(AllBits(n - 1), false) + Appended(AllBits(n - 1), true)
  }

  lemma {:induction false} AllBitsAre(n: nat)
    ensures forall bits :: bits in AllBits(n) <==> |bits| == n
    ensures |AllBits(n)| == Pow2(n)
  {
    if n > 0 {
      var shorter := AllBits(n - 1);
      AllBitsAre(n - 1);
      AppendOne(shorter, n - 1, false);
      AppendOne(shorter, n - 1, true);
      assert Appended(shorter, false) !! Appended(shorter, true);
    }
  }

  ghost function Appended(shorter: set<seq<bool>>, bit: bool): set<seq<bool>> {
    set bits | bits in shorter :: bits + [bit]
  }

  lemma AppendOne(shorter: set<seq<bool>>, n: nat, bit: bool)
    requires forall bits :: bits in shorter <==> |bits| == n
    ensures |Appended(shorter, bit)| == |shorter|
    ensures forall bits: seq<bool> :: bits in Appended(shorter, bit) <==> |bits| == n + 1 && bits[n] == bit
  {
    var f := (bits: seq<bool>) => bits + [bit];
    forall a, b | a in shorter && b in shorter && f(a) == f(b)
      ensures a == b
    {
      assert f(a)[..n] == a && f(b)[..n] == b;
    }
    ImageSize(shorter, f, Appended(shorter, bit));
    forall bits: seq<bool> | |bits| == n + 1 && bits[n] == bit
      ensures bits in Appended(shorter, bit)
    {
      assert bits == bits[..n] + [bit] && bits[..n] in shorter;
    }
  }

  lemma {:induction false} ImageSize<T, U>(s: set<T>, f: T --> U, image: set<U>)
    requires forall a :: a in s ==> f.requires(a)
    requires forall a, b :: a in s && b in s && f(a) == f(b) ==> a == b
    requires image == set a | a in s :: f(a)
    ensures |image| == |s|
  {
    if s != {} {
      var a :| a in s;
      var rest := s - {a};
      ImageSize(rest, f, set b | b in rest :: f(b));
      assert image == (set b | b in rest :: f(b)) + {f(a)};
    }
  }

  /** The buffers from which `s` is drawn. */
  ghost predicate Draws(length: nat, data: seq<Byte>, s: string) {
    |data| == Size(length) && RandomString(length, data) == s
  }

  ghost function Sources(length: nat, s: string): set<seq<Byte>>
    requires |s| == length && AllLetters(s)
  {
    AllBitsAre(FillerLength(length));
    set filler | filler in AllBits(FillerLength(length)) :: Source(length, s, filler)
  }

  lemma SourcesAreTheDraws(length: nat, s: string, data: seq<Byte>)
    requires |s| == length && AllLetters(s)
    ensures data in Sources(length, s) <==> Draws(length, data, s)
  {
    var fillers := AllBits(FillerLength(length));
    AllBitsAre(FillerLength(length));
    if data in Sources(length, s) {
      var filler :| filler in fillers && data == Source(length, s, filler);
      EveryStringIsDrawn(length, s, filler);
    }
    if Draws(length, data, s) {
      BufferIsDetermined(length, data);
      assert Filler(length, data) in fillers;
    }
  }

  /**
   * Six bits of entropy a character: each of the 64^length strings of letters is drawn from equally
   * many buffers, so that a uniform buffer gives a uniform string.
   */
  lemma EveryStringIsEquallyLikely(length: nat, s: string)
    requires |s| == length && AllLetters(s)
    ensures forall data: seq<Byte> :: data in Sources(length, s) <==> Draws(length, data, s)
    ensures |Sources(length, s)| == Pow2(FillerLength(length))
  {
    forall data: seq<Byte>
      ensures data in Sources(length, s) <==> Draws(length, data, s)
    {
      SourcesAreTheDraws(length, s, data);
    }
    var fillers := AllBits(FillerLength(length));
    AllBitsAre(FillerLength(length));
    var f := (filler: seq<bool>) requires |filler| == FillerLength(length) => Source(length, s, filler);
    forall a, b | a in fillers && b in fillers && f(a) == f(b)
      ensures a == b
    {
      EveryStringIsDrawn(length, s, a);
      EveryStringIsDrawn(length, s, b);
    }
    ImageSize(fillers, f, Sources(length, s));
  }

  /** A new bearer token: 43 random bytes, as many characters as the shortest key. */
  method NewRandomToken(read: Read) returns (r: Option<string>)
    requires read.ReadBytes? ==> |read.data| <= 43
    ensures r.Some? <==> read.ReadBytes? && |read.data| == 43
    ensures r.Some? ==> |r.value| == 32 && AllLetters(r.value) && r.value == RandomString(Auth.MIN_KEY_LEN, read.data)
  {
    r := NewRandomString(Auth.MIN_KEY_LEN, read);
    if r.Some? {
      ShowsItsFirstBits(Auth.MIN_KEY_LEN, read.data);
    }
  }

  /** Such a token serves a login: with the client's key, it is cached and handed out exactly when
      it is not in use already. */
  lemma LoginWithNewToken(s: Auth.State, id: string, key: string, data: seq<Byte>, expiresAt: int)
    requires |data| == Size(Auth.MIN_KEY_LEN)
    ensures var token := RandomString(Auth.MIN_KEY_LEN, data);
            var (s', answer) := Auth.LoginSpec(s, id, key, Some(token), expiresAt, false);
            && (answer.Some? <==> Auth.AuthenticateSpec(s.db, id, key, false) && token !in s.sessions)
            && (answer.Some? ==> answer.value == token && token in s'.sessions && s'.sessions[token].clientId == id)
  {
  }
}
