/**
 * Sets of small numbers in 64-bit words (src/porcupine/bitset.go): bits 0-63 are in word 0, the next
 * in word 1, and so on. `Members` is the set that a bitset stands for; every operation is stated on it.
 */
module Bitset {
  // ---------- one word ----------

  function Mask(k: bv8): bv64
    requires k < 64
  {
    (1 as bv64) << k
  }

  function Common(w: bv64, m: bv64): bv64 {
    w & m
  }

  function With(w: bv64, m: bv64): bv64 {
    w | m
  }

  function Without(w: bv64, m: bv64): bv64 {
    w & !m
  }

  predicate Has(w: bv64, k: bv8)
    requires k < 64
  {
    Common(w, Mask(k)) != 0
  }

  /** All bits under a power of two are clear. */
  ghost predicate ClearUnder(w: bv64, m: bv64) {
    w & (m - 1) == 0
  }

  lemma MasksApart(m: bv8, k: bv8)
    requires m < 64 && k < 64
    ensures Common(Mask(m), Mask(k)) == if m == k then Mask(k) else 0
    ensures Mask(k) != 0
  {
  }

  lemma OrDistributes(w: bv64, m: bv64, n: bv64)
    ensures (w | m) & n == (w & n) | (m & n)
  {
  }

  lemma OrIsZero(v: bv64, w: bv64)
    ensures v | w == 0 <==> v == 0 && w == 0
  {
  }

  lemma OrMeets(w: bv64, m: bv64, n: bv64)
    ensures Common(w | m, n) == 0 <==> Common(w, n) == 0 && Common(m, n) == 0
  {
    OrDistributes(w, m, n);
    OrIsZero(w & n, m & n);
  }

  lemma AndNotSpreads(w: bv64, m: bv64, n: bv64)
    ensures Common(m, n) == 0 ==> Common(Without(w, m), n) == Common(w, n)
    ensures Common(m, n) == n ==> Common(Without(w, m), n) == 0
  {
  }

  lemma OrMask(w: bv64, m: bv8, k: bv8)
    requires m < 64 && k < 64
    ensures Has(With(w, Mask(m)), k) <==> Has(w, k) || k == m
  {
    hide Mask, Common;
    MasksApart(m, k);
    OrMeets(w, Mask(m), Mask(k));
  }

  lemma AndNotMask(w: bv64, m: bv8, k: bv8)
    requires m < 64 && k < 64
    ensures Has(Without(w, Mask(m)), k) <==> Has(w, k) && k != m
  {
    hide Mask, Common, Without;
    MasksApart(m, k);
    AndNotSpreads(w, Mask(m), Mask(k));
  }

  lemma MaskNext(k: bv8)
    requires k < 63
    ensures Mask(k + 1) == Mask(k) << 1
  {
  }

  lemma MaskIsPower(k: bv8)
    requires k < 64
    ensures Mask(k) & (Mask(k) - 1) == 0
  {
  }

  lemma MaskEnds()
    ensures Mask(0) == 1 && Mask(63) << 1 == 0
  {
  }

  lemma OneMoreClear(w: bv64, m: bv64)
    requires m & (m - 1) == 0 && ClearUnder(w, m) && Common(w, m) == 0
    ensures ClearUnder(w, m << 1)
  {
  }

  lemma ClearAll(w: bv64)
    requires ClearUnder(w, 0)
    ensures w == 0
  {
  }

  lemma ClearOneMore(w: bv64, k: bv8)
    requires k < 64 && w != 0 && ClearUnder(w, Mask(k)) && !Has(w, k)
    ensures k < 63 && ClearUnder(w, Mask(k + 1))
  {
    hide Mask, Common, ClearUnder;
    MaskIsPower(k);
    OneMoreClear(w, Mask(k));
    if k == 63 {
      MaskEnds();
      ClearAll(w);
    } else {
      MaskNext(k);
    }
  }

  lemma SomeBitFrom(w: bv64, k: bv8) returns (r: bv8)
    requires k < 64 && w != 0 && ClearUnder(w, Mask(k))
    ensures r < 64 && Has(w, r)
    decreases 64 - k
  {
    hide Mask, Has, ClearUnder;
    r := k;
    if !Has(w, k) {
      ClearOneMore(w, k);
      r := SomeBitFrom(w, k + 1);
    }
  }

  lemma XorBit(v: bv64, w: bv64, k: bv8)
    requires k < 64 && Has(v ^ w, k)
    ensures Has(v, k) != Has(w, k)
  {
  }

  lemma XorZero(v: bv64, w: bv64)
    requires v ^ w == 0
    ensures v == w
  {
  }

  lemma NothingUnderOne(w: bv64)
    ensures ClearUnder(w, Mask(0))
  {
  }

  lemma DifferentWords(v: bv64, w: bv64) returns (k: bv8)
    requires v != w
    ensures k < 64 && Has(v, k) != Has(w, k)
  {
    hide Has, ClearUnder;
    var x := v ^ w;
    if x == 0 {
      XorZero(v, w);
    }
    NothingUnderOne(x);
    k := SomeBitFrom(x, 0);
    XorBit(v, w, k);
  }

  // ---------- bit numbers as integers ----------

  lemma SmallNumber(k: nat)
    requires k < 64
    ensures (k as bv8) < 64 && (k as bv8) as nat == k
  {
  }

  lemma NumberOf(k: bv8)
    requires k < 64
    ensures k as nat < 64 && (k as nat) as bv8 == k
  {
  }

  function Minor(pos: nat): (k: bv8)
    ensures k < 64
  {
    SmallNumber(pos % 64);
    (pos % 64) as bv8
  }

  lemma SameMinor(p: nat, q: nat)
    ensures Minor(p) == Minor(q) <==> p % 64 == q % 64
  {
    SmallNumber(p % 64);
    SmallNumber(q % 64);
  }

  /** Every bit of word `major` is some position. */
  lemma PositionOf(major: nat, k: bv8) returns (pos: nat)
    requires k < 64
    ensures pos / 64 == major && Minor(pos) == k
  {
    NumberOf(k);
    pos := 64 * major + k as nat;
    assert pos % 64 == k as nat;
  }

  // ---------- bitsets ----------

  function Chunks(bits: nat): nat {
    bits / 64 + if bits % 64 != 0 then 1 else 0
  }

  predicate Bit(words: seq<bv64>, pos: nat)
    requires pos / 64 < |words|
  {
    Has(words[pos / 64], Minor(pos))
  }

  ghost function Members(words: seq<bv64>): set<nat> {
    set pos | 0 <= pos < 64 * |words| && Bit(words, pos)
  }

  /** Bitsets of one length stand for the same set exactly when their words are the same. */
  lemma SameMembers(v: seq<bv64>, w: seq<bv64>)
    requires |v| == |w|
    ensures Members(v) == Members(w) <==> v == w
  {
    hide Has, Minor;
    if v != w {
      var i :| 0 <= i < |v| && v[i] != w[i];
      var k := DifferentWords(v[i], w[i]);
      var pos := PositionOf(i, k);
      assert (pos in Members(v)) != (pos in Members(w));
    }
  }

  lemma FitsIn(pos: nat, bits: nat)
    requires pos < bits
    ensures pos / 64 < Chunks(bits) && pos < 64 * Chunks(bits)
  {
  }

  lemma NoBits(words: seq<bv64>)
    requires forall i :: 0 <= i < |words| ==> words[i] == 0
    ensures Members(words) == {}
  {
    forall pos: nat | pos < 64 * |words| ensures !Bit(words, pos) {
    }
  }

  lemma SetMembers(words: seq<bv64>, pos: nat)
    requires pos / 64 < |words|
    ensures Members(words[pos / 64 := With(words[pos / 64], Mask(Minor(pos)))]) == Members(words) + {pos}
  {
    var words' := words[pos / 64 := With(words[pos / 64], Mask(Minor(pos)))];
    hide Has, Minor, Mask, With;
    forall p: nat | p < 64 * |words| ensures Bit(words', p) <==> Bit(words, p) || p == pos {
      OrMask(words[pos / 64], Minor(pos), Minor(p));
      SameMinor(p, pos);
    }
  }

  lemma ClearMembers(words: seq<bv64>, pos: nat)
    requires pos / 64 < |words|
    ensures Members(words[pos / 64 := Without(words[pos / 64], Mask(Minor(pos)))]) == Members(words) - {pos}
  {
    var words' := words[pos / 64 := Without(words[pos / 64], Mask(Minor(pos)))];
    hide Has, Minor, Mask, Without;
    forall p: nat | p < 64 * |words| ensures Bit(words', p) <==> Bit(words, p) && p != pos {
      AndNotMask(words[pos / 64], Minor(pos), Minor(p));
      SameMinor(p, pos);
    }
  }

  method NewBitset(bits: nat) returns (b: array<bv64>)
    ensures fresh(b) && b.Length == Chunks(bits) && Members(b[..]) == {}
  {
    b := new bv64[Chunks(bits)](_ => 0);
    NoBits(b[..]);
  }

  method Clone(b: array<bv64>) returns (c: array<bv64>)
    ensures fresh(c) && c[..] == b[..]
  {
    c := new bv64[b.Length](i requires 0 <= i < b.Length reads b => b[i]);
  }

  method Set(b: array<bv64>, pos: nat)
    requires pos / 64 < b.Length
    modifies b
    ensures Members(b[..]) == old(Members(b[..])) + {pos}
  {
    SetMembers(b[..], pos);
    b[pos / 64] := With(b[pos / 64], Mask(Minor(pos)));
    assert b[..] == old(b[..])[pos / 64 := b[pos / 64]];
  }

  method Clear(b: array<bv64>, pos: nat)
    requires pos / 64 < b.Length
    modifies b
    ensures Members(b[..]) == old(Members(b[..])) - {pos}
  {
    ClearMembers(b[..], pos);
    b[pos / 64] := Without(b[pos / 64], Mask(Minor(pos)));
    assert b[..] == old(b[..])[pos / 64 := b[pos / 64]];
  }

  method Get(b: array<bv64>, pos: nat) returns (r: bool)
    requires pos / 64 < b.Length
    ensures r <==> pos in Members(b[..])
  {
    r := Has(b[pos / 64], Minor(pos));
  }

  method Equals(b: array<bv64>, words: seq<bv64>) returns (r: bool)
    ensures r <==> b[..] == words
    ensures b.Length == |words| ==> (r <==> Members(b[..]) == Members(words))
  {
    if b.Length == |words| {
      SameMembers(b[..], words);
    }
    if b.Length != |words| {
      return false;
    }
    for i := 0 to b.Length
      invariant b[..i] == words[..i]
    {
      if b[i] != words[i] {
        return false;
      }
    }
    return true;
  }

  // ---------- counting and hashing ----------

  /** bits.OnesCount64. */
  function OnesCount(w: bv64): nat {
    |Ones(w)|
  }

  function Ones(w: bv64): set<nat> {
    set k | 0 <= k < 64 && Has(w, Minor(k))
  }

  function Total(words: seq<bv64>): nat {
    if words == [] then 0 else Total(words[..|words| - 1]) + OnesCount(words[|words| - 1])
  }

  lemma {:induction false} ShiftSize(s: set<nat>, shift: nat, shifted: set<nat>)
    requires forall p: nat :: p in shifted <==> p >= shift && p - shift in s
    ensures |shifted| == |s|
  {
    if s == {} {
      assert shifted == {};
    } else {
      var x :| x in s;
      ShiftSize(s - {x}, shift, shifted - {x + shift});
      assert x + shift in shifted;
    }
  }

  lemma InLastWord(words: seq<bv64>, p: nat)
    requires words != []
    ensures var last := |words| - 1;
            p in Members(words) - Members(words[..last]) <==> p >= 64 * last && p - 64 * last in Ones(words[last])
  {
    hide Has, Minor;
    var last := |words| - 1;
    if p >= 64 * last {
      SameMinor(p, p - 64 * last);
    }
  }

  lemma LowWords(words: seq<bv64>)
    requires words != []
    ensures Members(words[..|words| - 1]) <= Members(words)
  {
    hide Has, Minor;
  }

  lemma {:induction false} TotalIsSize(words: seq<bv64>)
    ensures Total(words) == |Members(words)|
  {
    hide Has, Ones;
    if words == [] {
      assert Members(words) == {};
    } else {
      var last := |words| - 1;
      TotalIsSize(words[..last]);
      LowWords(words);
      var low := Members(words[..last]);
      var high := Members(words) - low;
      forall p: nat ensures p in high <==> p >= 64 * last && p - 64 * last in Ones(words[last]) {
        InLastWord(words, p);
      }
      ShiftSize(Ones(words[last]), 64 * last, high);
      hide Members;
      assert Members(words) == low + high;
    }
  }

  method Popcnt(b: array<bv64>) returns (total: nat)
    ensures total == Total(b[..]) == |Members(b[..])|
  {
    total := 0;
    for i := 0 to b.Length
      invariant total == Total(b[..i])
    {
      assert b[..i + 1][..i] == b[..i];
      total := total + OnesCount(b[i]);
    }
    assert b[..b.Length] == b[..];
    TotalIsSize(b[..]);
  }

  function XorAll(seed: bv64, words: seq<bv64>): bv64 {
    if words == [] then seed else XorAll(seed, words[..|words| - 1]) ^ words[|words| - 1]
  }

  function AsWord(n: nat): bv64 {
    (n % 0x1_0000_0000_0000_0000) as bv64
  }

  function HashOf(words: seq<bv64>): bv64 {
    XorAll(AsWord(Total(words)), words)
  }

  method Hash(b: array<bv64>) returns (h: bv64)
    ensures h == HashOf(b[..])
  {
    hide AsWord, Total, Members;
    var count := Popcnt(b);
    h := AsWord(count);
    ghost var seed := h;
    for i := 0 to b.Length
      invariant h == XorAll(seed, b[..i])
    {
      assert b[..i + 1][..i] == b[..i];
      h := h ^ b[i];
    }
    assert b[..b.Length] == b[..];
  }
}
