/** Bit strings, most significant bit first, and their cutting into groups of equal size. */
module Bits {

  type Byte = b: int | 0 <= b < 256

  function Pow2(n: nat): (p: nat)
    ensures p > 0
  {
    if n == 0 then 1 else 2 * Pow2(n - 1)
  }

  lemma SmallPowers()
    ensures Pow2(1) == 2 && Pow2(2) == 4 && Pow2(3) == 8 && Pow2(4) == 16
    ensures Pow2(5) == 32 && Pow2(6) == 64 && Pow2(7) == 128 && Pow2(8) == 256
  {
    assert Pow2(0) == 1 && Pow2(1) == 2 && Pow2(2) == 4 && Pow2(3) == 8 && Pow2(4) == 16;
    assert Pow2(6) == 2 * Pow2(5) && Pow2(8) == 2 * Pow2(7);
  }

  /** The number a bit string stands for. */
  function Num(bits: seq<bool>): nat {
    if bits == [] then 0 else 2 * Num(bits[..|bits| - 1]) + (if bits[|bits| - 1] then 1 else 0)
  }

  /** The last `n` bits of a number. */
  function Spread(n: nat, v: nat): (bits: seq<bool>)
    ensures |bits| == n
  {
    if n == 0 then [] else Spread(n - 1, v / 2) + [v % 2 == 1]
  }

  lemma {:induction false} NumOfSpread(n: nat, v: nat)
    requires v < Pow2(n)
    ensures Num(Spread(n, v)) == v
  {
    if n > 0 {
      NumOfSpread(n - 1, v / 2);
      assert Spread(n, v)[..n - 1] == Spread(n - 1, v / 2);
    }
  }

  lemma {:induction false} SpreadOfNum(bits: seq<bool>)
    ensures Num(bits) < Pow2(|bits|)
    ensures Spread(|bits|, Num(bits)) == bits
  {
    if bits != [] {
      var init := bits[..|bits| - 1];
      SpreadOfNum(init);
      assert bits == init + [bits[|bits| - 1]];
    }
  }

  /** The last `k` bits of a number, as a mask leaves them. */
  function Low(v: nat, k: nat): nat {
    if k == 0 then 0 else 2 * Low(v / 2, k - 1) + v % 2
  }

  /** Shifts `v` right by `k` bits. */
  function Shr(v: nat, k: nat): nat {
    if k == 0 then v else Shr(v / 2, k - 1)
  }

  /** Shifts `x` left by `k` bits and puts the last `k` bits of `y` there. */
  function Join(x: nat, k: nat, y: nat): nat {
    if k == 0 then x else 2 * Join(x, k - 1, y / 2) + y % 2
  }

  lemma {:induction false} LowFits(v: nat, k: nat)
    ensures Low(v, k) < Pow2(k)
  {
    if k > 0 {
      LowFits(v / 2, k - 1);
    }
  }

  lemma {:induction false} JoinFits(n: nat, x: nat, k: nat, y: nat)
    requires x < Pow2(n)
    ensures Join(x, k, y) < Pow2(n + k)
    decreases k
  {
    if k > 0 {
      JoinFits(n, x, k - 1, y / 2);
    }
  }

  lemma {:induction false} ShrOfZero(k: nat)
    ensures Shr(0, k) == 0
  {
    if k > 0 {
      ShrOfZero(k - 1);
    }
  }

  /** Masking is spreading and reading back. */
  lemma {:induction false} NumOfLow(k: nat, v: nat)
    ensures Num(Spread(k, v)) == Low(v, k)
  {
    if k > 0 {
      NumOfLow(k - 1, v / 2);
      assert Spread(k, v)[..k - 1] == Spread(k - 1, v / 2);
    }
  }

  /** Shifting right cuts bits off. */
  lemma {:induction false} SpreadOfShr(n: nat, k: nat, v: nat)
    ensures Spread(n + k, v) == Spread(n, Shr(v, k)) + Spread(k, v)
    decreases k
  {
    if k > 0 {
      SpreadOfShr(n, k - 1, v / 2);
    }
  }

  /** Shifting left makes room for more bits. */
  lemma {:induction false} NumOfJoin(bits: seq<bool>, k: nat, y: nat)
    ensures Num(bits + Spread(k, y)) == Join(Num(bits), k, y)
    decreases k
  {
    if k == 0 {
      assert bits + Spread(0, y) == bits;
    } else {
      NumOfJoin(bits, k - 1, y / 2);
      assert (bits + Spread(k, y))[..|bits| + k - 1] == bits + Spread(k - 1, y / 2);
    }
  }

  function Zeros(n: nat): (bits: seq<bool>)
    ensures |bits| == n
  {
    Spread(n, 0)
  }

  lemma {:induction false} ZerosAreFalse(n: nat)
    ensures forall i :: 0 <= i < n ==> !Zeros(n)[i]
  {
    if n > 0 {
      ZerosAreFalse(n - 1);
      assert Zeros(n) == Zeros(n - 1) + [false];
    }
  }

  /** The bits in groups of `g`, the last one filled up with zeros. */
  function Groups(bits: seq<bool>, g: nat): (gs: seq<nat>)
    requires 0 < g
    decreases |bits|
  {
    if bits == [] then []
    else if |bits| < g then [Num(bits + Zeros(g - |bits|))]
    else [Num(bits[..g])] + Groups(bits[g..], g)
  }

  /** Every group is a number of `g` bits. */
  ghost predicate AreGroups(gs: seq<nat>, g: nat) {
    forall i :: 0 <= i < |gs| ==> gs[i] < Pow2(g)
  }

  function Ungroup(gs: seq<nat>, g: nat): (bits: seq<bool>) {
    if gs == [] then [] else Spread(g, gs[0]) + Ungroup(gs[1..], g)
  }

  lemma {:induction false} UngroupLength(gs: seq<nat>, g: nat)
    ensures |Ungroup(gs, g)| == |gs| * g
  {
    if gs != [] {
      UngroupLength(gs[1..], g);
      assert |gs| * g == (|gs| - 1) * g + g;
    }
  }

  lemma {:induction false} GroupsAreGroups(bits: seq<bool>, g: nat)
    requires 0 < g
    ensures AreGroups(Groups(bits, g), g)
    decreases |bits|
  {
    if bits == [] {
    } else if |bits| < g {
      SpreadOfNum(bits + Zeros(g - |bits|));
    } else {
      SpreadOfNum(bits[..g]);
      GroupsAreGroups(bits[g..], g);
    }
  }

  lemma {:induction false} GroupsLength(bits: seq<bool>, g: nat)
    requires 0 < g
    ensures |bits| <= |Groups(bits, g)| * g < |bits| + g
    decreases |bits|
  {
    if |bits| >= g {
      GroupsLength(bits[g..], g);
      var k := |Groups(bits[g..], g)|;
      assert (k + 1) * g == k * g + g;
    }
  }

  lemma UngroupStep(bits: seq<bool>, g: nat)
    requires 0 < g <= |bits|
    ensures Ungroup(Groups(bits, g), g) == bits[..g] + Ungroup(Groups(bits[g..], g), g)
  {
    SpreadOfNum(bits[..g]);
    assert Groups(bits, g)[1..] == Groups(bits[g..], g);
  }

  lemma UngroupLast(bits: seq<bool>, g: nat)
    requires 0 < |bits| < g
    ensures Ungroup(Groups(bits, g), g) == bits + Zeros(g - |bits|)
  {
    var full := bits + Zeros(g - |bits|);
    SpreadOfNum(full);
    assert Ungroup([Num(full)], g) == full + Ungroup([], g) == full;
  }

  /** Ungrouping gives the bits back, followed by zeros only. */
  lemma {:induction false} UngroupOfGroups(bits: seq<bool>, g: nat)
    requires 0 < g
    ensures bits <= Ungroup(Groups(bits, g), g)
    ensures forall i :: |bits| <= i < |Ungroup(Groups(bits, g), g)| ==> !Ungroup(Groups(bits, g), g)[i]
    decreases |bits|
  {
    if bits == [] {
    } else if |bits| < g {
      ZerosAreFalse(g - |bits|);
      UngroupLast(bits, g);
    } else {
      UngroupStep(bits, g);
      UngroupOfGroups(bits[g..], g);
      assert bits == bits[..g] + bits[g..];
    }
  }

  lemma Assoc<T>(a: seq<T>, b: seq<T>, c: seq<T>)
    ensures (a + b) + c == a + (b + c)
  {
  }

  lemma GroupsStep(first: seq<bool>, rest: seq<bool>)
    requires first != []
    ensures Groups(first + rest, |first|) == [Num(first)] + Groups(rest, |first|)
  {
    assert (first + rest)[..|first|] == first && (first + rest)[|first|..] == rest;
  }

  /** Whole groups come first and do not depend on what follows them. */
  lemma {:induction false} WholeGroupsFirst(gs: seq<nat>, g: nat, rest: seq<bool>)
    requires 0 < g && AreGroups(gs, g)
    ensures Groups(Ungroup(gs, g) + rest, g) == gs + Groups(rest, g)
  {
    if gs == [] {
      assert Ungroup(gs, g) + rest == rest;
    } else {
      var first, others := Spread(g, gs[0]), Ungroup(gs[1..], g);
      NumOfSpread(g, gs[0]);
      WholeGroupsFirst(gs[1..], g, rest);
      Assoc(first, others, rest);
      GroupsStep(first, others + rest);
      Assoc([gs[0]], gs[1..], Groups(rest, g));
      assert [gs[0]] + gs[1..] == gs;
    }
  }

  /** Bytes are groups of eight bits. */
  function BytesToBits(data: seq<Byte>): (bits: seq<bool>)
    ensures |bits| == 8 * |data|
  {
    UngroupLength(data, 8);
    Ungroup(data, 8)
  }

  lemma BytesToBitsStep(data: seq<Byte>)
    requires data != []
    ensures BytesToBits(data) == Spread(8, data[0]) + BytesToBits(data[1..])
  {
  }

  /** The bytes a bit string is made of. */
  function BitsToBytes(bits: seq<bool>): (data: seq<Byte>)
    requires |bits| % 8 == 0
    ensures |data| == |bits| / 8
  {
    SmallPowers();
    GroupsAreGroups(bits, 8);
    GroupsLength(bits, 8);
    Groups(bits, 8)
  }

  lemma BitsToBytesToBits(bits: seq<bool>)
    requires |bits| % 8 == 0
    ensures BytesToBits(BitsToBytes(bits)) == bits
  {
    UngroupOfGroups(bits, 8);
  }

  lemma BytesToBitsToBytes(data: seq<Byte>)
    ensures BitsToBytes(BytesToBits(data)) == data
  {
    SmallPowers();
    WholeGroupsFirst(data, 8, []);
    assert Ungroup(data, 8) + [] == Ungroup(data, 8);
  }

  /** A group off the front of a number, which leaves the number's last `n` bits. */
  lemma TakeWhole(g: nat, n: nat, x: nat, rest: seq<bool>)
    requires 0 < g
    ensures Groups(Spread(g + n, x) + rest, g) == [Low(Shr(x, n), g)] + Groups(Spread(n, x) + rest, g)
  {
    var first := Spread(g, Shr(x, n));
    SpreadOfShr(g, n, x);
    NumOfLow(g, Shr(x, n));
    Assoc(first, Spread(n, x), rest);
    GroupsStep(first, Spread(n, x) + rest);
  }

  /** A group of `k` bits left over and the first `m` of what follows. */
  lemma TakeCarried(k: nat, v: nat, m: nat, n: nat, x: nat, rest: seq<bool>)
    requires 0 < m
    ensures Groups(Spread(k, v) + (Spread(m + n, x) + rest), k + m)
         == [Join(Low(v, k), m, Shr(x, n))] + Groups(Spread(n, x) + rest, k + m)
  {
    var first, others := Spread(k, v) + Spread(m, Shr(x, n)), Spread(n, x) + rest;
    SpreadOfShr(m, n, x);
    NumOfLow(k, v);
    NumOfJoin(Spread(k, v), m, Shr(x, n));
    Assoc(Spread(m, Shr(x, n)), Spread(n, x), rest);
    Assoc(Spread(k, v), Spread(m, Shr(x, n)), others);
    GroupsStep(first, others);
  }

  /** A last, short group is filled up with zeros. */
  lemma LastGroup(k: nat, v: nat, m: nat)
    requires 0 < k && 0 < m
    ensures Groups(Spread(k, v), k + m) == [Join(Low(v, k), m, 0)]
  {
    NumOfLow(k, v);
    NumOfJoin(Spread(k, v), m, 0);
  }
}
