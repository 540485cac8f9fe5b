/** The ICMP header and the Internet checksum over it and a body (section 1 of RFC 1071). */
module IcmpChecksum {

  const B: int := 0x1_0000       // values of an unsigned short
  const ONES: int := 0xFFFF      // sixteen ones
  const UINT: int := 0x1_0000_0000  // values of the 32-bit `unsigned int`

  type Byte = x: int | 0 <= x < 256
  type Short = x: int | 0 <= x < 0x1_0000

  // ---------------------------------------------------------------- one's-complement sums

  /** Addition with end-around carry. */
  function OnesAdd(a: Short, b: Short): Short {
    if a + b < B then a + b else a + b - ONES
  }

  function OnesSum(ws: seq<Short>): Short {
    if ws == [] then 0 else OnesAdd(OnesSum(ws[..|ws| - 1]), ws[|ws| - 1])
  }

  function Sum(ws: seq<Short>): nat {
    if ws == [] then 0 else ws[0] + Sum(ws[1..])
  }

  /** The sixteen-bit representative of a sum. */
  function Reduce(n: nat): Short {
    if n == 0 then 0 else (n - 1) % ONES + 1
  }

  lemma {:induction false} SumConcat(a: seq<Short>, b: seq<Short>)
    ensures Sum(a + b) == Sum(a) + Sum(b)
  {
    if a == [] {
      assert a + b == b;
    } else {
      assert (a + b)[1..] == a[1..] + b;
      SumConcat(a[1..], b);
    }
  }

  /** The one's-complement sum depends only on the exact sum. */
  lemma {:induction false} OnesSumReduces(ws: seq<Short>)
    ensures OnesSum(ws) == Reduce(Sum(ws))
  {
    if ws != [] {
      var n := |ws| - 1;
      OnesSumReduces(ws[..n]);
      assert ws == ws[..n] + [ws[n]];
      SumConcat(ws[..n], [ws[n]]);
      assert [ws[n]][1..] == [];
      assert Sum([ws[n]]) == ws[n];
      ReduceAdd(Sum(ws[..n]), ws[n]);
    }
  }

  lemma ReduceAdd(n: nat, w: Short)
    ensures OnesAdd(Reduce(n), w) == Reduce(n + w)
  {
  }

  /** `(hi << 8) + lo` */
  function Word(hi: Byte, lo: Byte): Short {
    (hi as int) * 256 + (lo as int)
  }

  /** The words of a byte string, the first byte of each the high one, an odd last byte padded with zero. */
  function Words(bs: seq<Byte>): seq<Short> {
    if bs == [] then []
    else if |bs| == 1 then [Word(bs[0], 0)]
    else [Word(bs[0], bs[1])] + Words(bs[2..])
  }

  /** A message is intact if its words, the checksum among them, add up to all ones. */
  predicate Intact(bs: seq<Byte>) {
    OnesSum(Words(bs)) == ONES
  }

  // ---------------------------------------------------------------- the header

  class IcmpHeader {
    const rep: array<Byte>

    ghost predicate Valid() {
      rep.Length == 8
    }

    constructor ()
      ensures Valid() && fresh(rep) && rep[..] == [0, 0, 0, 0, 0, 0, 0, 0]
    {
      rep := new Byte[8](_ => 0);
    }

    function Decode(a: nat, b: nat): Short
      requires a < rep.Length && b < rep.Length
      reads rep
    {
      Word(rep[a], rep[b])
    }

    method Encode(a: nat, b: nat, n: Short)
      requires a < rep.Length && b < rep.Length && a != b
      modifies rep
      ensures Decode(a, b) == n
      ensures forall i :: 0 <= i < rep.Length && i != a && i != b ==> rep[i] == old(rep[i])
    {
      rep[a] := n / 256;
      rep[b] := n % 256;
    }
  }

  // ---------------------------------------------------------------- compute_checksum

  /** The exact sum of the header words but the checksum, and of the body words. */
  function ExactSum(rep: seq<Byte>, body: seq<Byte>): nat
    requires |rep| == 8
  {
    Word(rep[0], rep[1]) + Word(rep[4], rep[5]) + Word(rep[6], rep[7]) + Sum(Words(body))
  }

  /** The two folds of a 32-bit sum and the complement. */
  function FoldTwice(sum: int): Short
    requires 0 <= sum < UINT
  {
    var f := sum / B + sum % B;
    ONES - (f + f / B) % B
  }

  /** Two folds are enough for every 32-bit sum. */
  lemma FoldsSuffice(sum: int)
    requires 0 <= sum < UINT
    ensures FoldTwice(sum) == ONES - Reduce(sum)
  {
    var f := sum / B + sum % B;
    assert sum == (sum / B) * ONES + f;
    assert f <= 2 * ONES;
    if sum != 0 {
      assert (sum - 1) % ONES == (f - 1) % ONES;
    }
  }

  /** The sum of the words from position `i` on. */
  function TailSum(body: seq<Byte>, i: nat): nat
    decreases |body| - i
  {
    if |body| <= i then 0
    else if i + 1 == |body| then (body[i] as int) * 256
    else (body[i] as int) * 256 + (body[i + 1] as int) + TailSum(body, i + 2)
  }

  lemma {:induction false} TailWords(body: seq<Byte>, i: nat)
    requires i <= |body|
    ensures TailSum(body, i) == Sum(Words(body[i..]))
    decreases |body| - i
  {
    if i < |body| {
      NextWord(body, i);
      if i + 1 < |body| {
        TailWords(body, i + 2);
      }
    }
  }

  /** The loop of `compute_checksum`, two bytes at a time, in 32-bit arithmetic. */
  method AddWords(header: IcmpHeader, body: seq<Byte>) returns (sum: int)
    requires header.Valid()
    ensures sum == ExactSum(header.rep[..], body) % UINT
  {
    ghost var total := ExactSum(header.rep[..], body);
    sum := Word(header.rep[0], header.rep[1]) + header.Decode(4, 5) + header.Decode(6, 7);
    ghost var exact := sum;
    var i := 0;
    TailWords(body, 0);
    assert body[0..] == body;
    while i < |body|
      invariant 0 <= i <= |body|
      invariant 0 <= exact && sum == exact % UINT && exact + TailSum(body, i) == total
    {
      var high := (body[i] as int) * 256;
      sum := Add32(exact, sum, high);
      exact := exact + high;
      i := i + 1;
      if i < |body| {
        var low := body[i] as int;
        sum := Add32(exact, sum, low);
        exact := exact + low;
        i := i + 1;
      }
    }
  }

  /** Addition of an `unsigned int` that stands for the exact sum `exact`. */
  method Add32(ghost exact: nat, sum: int, x: nat) returns (r: int)
    requires sum == exact % UINT
    ensures r == (exact + x) % UINT
  {
    r := (sum + x) % UINT;
  }

  /** `compute_checksum`: sets the checksum and nothing else; the message is then intact exactly if what
      the 32-bit sum has lost is a multiple of the all-ones word. */
  method ComputeChecksum(header: IcmpHeader, body: seq<Byte>)
    requires header.Valid()
    modifies header.rep
    ensures forall i :: 0 <= i < 8 && i != 2 && i != 3 ==> header.rep[i] == old(header.rep[i])
    ensures header.Decode(2, 3) == FoldTwice(ExactSum(header.rep[..], body) % UINT)
    ensures Intact(header.rep[..] + body) <==> ExactSum(header.rep[..], body) / UINT % ONES == 0
  {
    ghost var before := header.rep[..];
    var sum := AddWords(header, body);
    sum := sum / B + sum % B;
    sum := sum + sum / B;
    header.Encode(2, 3, ONES - sum % B);
    SameSum(before, header.rep[..], body);
    IntactExactly(header.rep[..], body);
  }

  lemma SameSum(rep: seq<Byte>, rep': seq<Byte>, body: seq<Byte>)
    requires |rep| == 8 == |rep'| && forall i :: 0 <= i < 8 && i != 2 && i != 3 ==> rep'[i] == rep[i]
    ensures ExactSum(rep', body) == ExactSum(rep, body)
  {
  }

  lemma NextWord(body: seq<Byte>, i: nat)
    requires i < |body|
    ensures Sum(Words(body[i..])) ==
      if i + 1 < |body| then Word(body[i], body[i + 1]) + Sum(Words(body[i + 2..])) else Word(body[i], 0)
    ensures i + 1 == |body| ==> Sum(Words(body[i + 1..])) == 0
  {
    var bs := body[i..];
    if i + 1 < |body| {
      assert bs[2..] == body[i + 2..];
      assert Words(bs)[1..] == Words(bs[2..]);
    } else {
      assert Words(bs)[1..] == [];
    }
  }

  lemma HeaderWords(rep: seq<Byte>, body: seq<Byte>)
    requires |rep| == 8
    ensures Sum(Words(rep + body)) == ExactSum(rep, body) + Word(rep[2], rep[3])
  {
    var bs := rep + body;
    NextWord(bs, 0);
    NextWord(bs, 2);
    NextWord(bs, 4);
    NextWord(bs, 6);
    assert bs[0..] == bs && bs[8..] == body;
  }

  /** With the computed checksum, the message is intact exactly if what the 32-bit sum has lost is a
      multiple of the all-ones word. */
  lemma IntactExactly(rep: seq<Byte>, body: seq<Byte>)
    requires |rep| == 8 && Word(rep[2], rep[3]) == FoldTwice(ExactSum(rep, body) % UINT)
    ensures Intact(rep + body) <==> ExactSum(rep, body) / UINT % ONES == 0
  {
    var s := ExactSum(rep, body);
    HeaderWords(rep, body);
    OnesSumReduces(Words(rep + body));
    FoldsSuffice(s % UINT);
    LostCarry(s);
  }

  lemma LostCarry(s: nat)
    ensures Reduce(s + (ONES - Reduce(s % UINT))) == ONES <==> s / UINT % ONES == 0
  {
    var q, r := s / UINT, s % UINT;
    var x := s + (ONES - Reduce(r));
    assert s == q * UINT + r;
    assert UINT == ONES * 65537 + 1;
    var k := if r == 0 then 0 else (r - 1) / ONES;
    assert r - Reduce(r) == k * ONES;
    assert x == q + ONES * (q * 65537 + k + 1);
    assert x % ONES == q % ONES;
  }

  lemma {:induction false} SumBound(bs: seq<Byte>)
    ensures Sum(Words(bs)) <= (|bs| + 1) / 2 * ONES
  {
    if 2 <= |bs| {
      SumBound(bs[2..]);
      assert Words(bs)[1..] == Words(bs[2..]);
    } else if |bs| == 1 {
      assert Words(bs)[1..] == [];
    }
  }

  lemma ExactBound(rep: seq<Byte>, body: seq<Byte>)
    requires |rep| == 8 && |body| <= 131068
    ensures ExactSum(rep, body) < UINT
  {
    SumBound(body);
    assert (|body| + 1) / 2 <= 65534;
  }

  /** For bodies of up to 131068 bytes the 32-bit sum is exact, so the message is intact. */
  lemma NoOverflow(rep: seq<Byte>, body: seq<Byte>)
    requires |rep| == 8 && |body| <= 131068
    ensures ExactSum(rep, body) < UINT
    ensures Word(rep[2], rep[3]) == FoldTwice(ExactSum(rep, body) % UINT) ==> Intact(rep + body)
  {
    ExactBound(rep, body);
    assert ExactSum(rep, body) / UINT == 0;
    if Word(rep[2], rep[3]) == FoldTwice(ExactSum(rep, body) % UINT) {
      IntactExactly(rep, body);
    }
  }

  /** With two more bytes the sum can overflow, and then the message is not intact. */
  lemma OverflowBreaks(rep: seq<Byte>, body: seq<Byte>)
    requires |rep| == 8 && |body| == 131070 && (forall i :: 0 <= i < |body| ==> body[i] == 255)
    requires rep[0] == 255 && rep[1] == 255 && rep[4] == 255 && rep[5] == 255 && rep[6] == 255 && rep[7] == 255
    requires Word(rep[2], rep[3]) == FoldTwice(ExactSum(rep, body) % UINT)
    ensures UINT <= ExactSum(rep, body) && !Intact(rep + body)
  {
    AllOnesSum(body);
    IntactExactly(rep, body);
  }

  lemma {:induction false} AllOnesSum(bs: seq<Byte>)
    requires |bs| % 2 == 0 && forall i :: 0 <= i < |bs| ==> bs[i] == 255
    ensures Sum(Words(bs)) == |bs| / 2 * ONES
  {
    if bs != [] {
      AllOnesSum(bs[2..]);
      assert Words(bs)[1..] == Words(bs[2..]);
    }
  }

  // ---------------------------------------------------------------- error detection

  function Power(k: nat): nat {
    if k == 0 then 1 else 2 * Power(k - 1)
  }

  /** Bit `k` of byte `j` inverted. */
  function FlipBit(bs: seq<Byte>, j: nat, k: nat): seq<Byte>
    requires j < |bs| && k < 8
  {
    PowerBound(k);
    var x := bs[j];
    bs[j := if x / Power(k) % 2 == 0 then x + Power(k) else x - Power(k)]
  }

  lemma PowerBound(k: nat)
    requires k < 8
    ensures Power(k) in {1, 2, 4, 8, 16, 32, 64, 128}
    ensures forall x: Byte :: 0 <= (if x / Power(k) % 2 == 0 then x + Power(k) else x - Power(k)) < 256
  {
    assert Power(0) == 1 && Power(1) == 2 && Power(2) == 4 && Power(3) == 8;
    assert Power(4) == 16 && Power(5) == 32 && Power(6) == 64 && Power(7) == 128;
  }

  /** Changing one byte changes the sum by the change of the byte, shifted if it is the high one of its word. */
  lemma {:induction false} TailUpdate(bs: seq<Byte>, j: nat, x: Byte, i: nat)
    requires j < |bs|
    ensures TailSum(bs[j := x], i) == TailSum(bs, i)
              + if j < i then 0 else if (j - i) % 2 == 0 then ((x as int) - (bs[j] as int)) * 256
                  else (x as int) - (bs[j] as int)
    decreases |bs| - i
  {
    if i < |bs| {
      TailUpdate(bs, j, x, i + 2);
    }
  }

  lemma SumUpdate(bs: seq<Byte>, j: nat, x: Byte)
    requires j < |bs|
    ensures Sum(Words(bs[j := x])) == Sum(Words(bs))
              + if j % 2 == 0 then ((x as int) - (bs[j] as int)) * 256 else (x as int) - (bs[j] as int)
  {
    var cs := bs[j := x];
    TailUpdate(bs, j, x, 0);
    TailWords(bs, 0);
    TailWords(cs, 0);
    assert bs[0..] == bs && cs[0..] == cs;
  }

  /** Error detection: inverting any single bit of an intact message makes it fail the test. */
  lemma SingleBitDetected(bs: seq<Byte>, j: nat, k: nat)
    requires j < |bs| && k < 8 && Intact(bs)
    ensures !Intact(FlipBit(bs, j, k))
  {
    PowerBound(k);
    var cs := FlipBit(bs, j, k);
    SumUpdate(bs, j, cs[j]);
    OnesSumReduces(Words(bs));
    OnesSumReduces(Words(cs));
    var d := Power(k) * if j % 2 == 0 then 256 else 1;
    assert Sum(Words(cs)) == Sum(Words(bs)) + d || Sum(Words(cs)) == Sum(Words(bs)) - d;
    NotAMultiple(Sum(Words(bs)), d);
  }

  lemma NotAMultiple(n: nat, d: nat)
    requires Reduce(n) == ONES && 0 < d < ONES
    ensures Reduce(n + d) != ONES && (d <= n ==> Reduce(n - d) != ONES)
  {
  }
}
