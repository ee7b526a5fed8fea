/** The meaning of super-blocks: integer levels, scales and mins, and the rows of reals they stand
    for. The dequantisers compute these rows. */
module KMeaning {
  import opened KBlocks

  function LowInt(b: bv8): (r: int)
    ensures 0 <= r < 16
  {
    (b & 0xF) as int
  }

  function HighInt(b: bv8): (r: int)
    ensures 0 <= r < 16
  {
    (b >> 4) as int
  }

  function CrumbInt(b: bv8, j: nat): (r: int)
    requires j < 4
    ensures 0 <= r < 4
  {
    Crumb(b, j) as int
  }

  function SixInt(b: bv8): (r: int)
    requires b < 64
    ensures 0 <= r < 64
  {
    b as int
  }

  // ---------------------------------------------------------------- meaning

  /** Sixteen groups of sixteen elements; element `e` stands for `d * scale * level - dmin * min`. */
  datatype Super = Super(d: real, dmin: real, scale: seq<int>, min: seq<int>, level: seq<int>)

  predicate Shaped(s: Super) {
    |s.scale| == |s.min| == 16 && |s.level| == QK
  }

  ghost predicate SuperOk(s: Super) {
    && Shaped(s)
    && (forall j :: 0 <= j < 16 ==> -128 <= s.scale[j] < 128 && 0 <= s.min[j] < 64)
    && (forall e :: 0 <= e < QK ==> -32 <= s.level[e] < 32)
  }

  function Times(x: real, k: int): real {
    x * k as real
  }

  function Value(s: Super, e: nat): real
    requires Shaped(s) && e < QK
  {
    Times(Times(s.d, s.scale[e / 16]), s.level[e]) - Times(s.dmin, s.min[e / 16])
  }

  function Values(s: Super): (r: seq<real>)
    requires Shaped(s)
    ensures |r| == QK && forall e :: 0 <= e < QK ==> r[e] == Value(s, e)
  {
    seq(QK, e requires 0 <= e < QK => Value(s, e))
  }

  function Row(x: seq<Super>): (r: seq<real>)
    requires forall i :: 0 <= i < |x| ==> Shaped(x[i])
    ensures |r| == QK * |x|
    decreases |x|
  {
    if x == [] then [] else Row(x[..|x| - 1]) + Values(x[|x| - 1])
  }

  /** Element `e` of a row, two bits each, in four interleaved planes of 32. */
  function Level2(b: BlockQ2, e: nat): (r: int)
    requires Sized2(b) && e < QK
    ensures 0 <= r < 4
  {
    CrumbInt(b.qs[32 * (e / 128) + e % 32], e % 128 / 32)
  }

  function Meaning2(b: BlockQ2): (s: Super)
    requires Sized2(b)
    ensures Shaped(s) && SuperOk(s)
  {
    Super(b.d, b.dmin,
      seq(16, j requires 0 <= j < 16 => LowInt(b.scales[j])),
      seq(16, j requires 0 <= j < 16 => HighInt(b.scales[j])),
      seq(QK, e requires 0 <= e < QK => Level2(b, e)))
  }

  function Meanings2(x: seq<BlockQ2>): (r: seq<Super>)
    requires forall i :: 0 <= i < |x| ==> Sized2(x[i])
    ensures |r| == |x| && forall i :: 0 <= i < |x| ==> r[i] == Meaning2(x[i]) && Shaped(r[i]) && SuperOk(r[i])
  {
    seq(|x|, i requires 0 <= i < |x| => Meaning2(x[i]))
  }

  function Level3(b: BlockQ3, e: nat): (r: int)
    requires Sized3(b) && e < QK
    ensures -4 <= r < 4
  {
    CrumbInt(b.qs[32 * (e / 128) + e % 32], e % 128 / 32) - (if Bit(b.hmask[e % 32], e / 32) then 0 else 4)
  }

  function Meaning3(b: BlockQ3): (s: Super)
    requires Sized3(b)
    ensures Shaped(s) && SuperOk(s)
  {
    Super(b.d, 0.0,
      seq(16, j requires 0 <= j < 16 => SixInt(Scale3(b.scales, j)) - 32),
      seq(16, j requires 0 <= j < 16 => 0),
      seq(QK, e requires 0 <= e < QK => Level3(b, e)))
  }

  function Meanings3(x: seq<BlockQ3>): (r: seq<Super>)
    requires forall i :: 0 <= i < |x| ==> Sized3(x[i])
    ensures |r| == |x| && forall i :: 0 <= i < |x| ==> r[i] == Meaning3(x[i]) && Shaped(r[i]) && SuperOk(r[i])
  {
    seq(|x|, i requires 0 <= i < |x| => Meaning3(x[i]))
  }

  /** Nibbles in pairs of planes of 32. */
  function Nibble(qs: Bytes, e: nat): (r: int)
    requires |qs| == 128 && e < QK
    ensures 0 <= r < 16
  {
    var q := qs[32 * (e / 64) + e % 32];
    if e % 64 < 32 then LowInt(q) else HighInt(q)
  }

  function Meaning4(b: BlockQ4): (s: Super)
    requires Sized4(b)
    ensures Shaped(s) && SuperOk(s)
  {
    Super(b.d, b.dmin,
      seq(16, j requires 0 <= j < 16 => SixInt(ScaleMin4(b.scales, j / 2).0)),
      seq(16, j requires 0 <= j < 16 => SixInt(ScaleMin4(b.scales, j / 2).1)),
      seq(QK, e requires 0 <= e < QK => Nibble(b.qs, e)))
  }

  function Meanings4(x: seq<BlockQ4>): (r: seq<Super>)
    requires forall i :: 0 <= i < |x| ==> Sized4(x[i])
    ensures |r| == |x| && forall i :: 0 <= i < |x| ==> r[i] == Meaning4(x[i]) && Shaped(r[i]) && SuperOk(r[i])
  {
    seq(|x|, i requires 0 <= i < |x| => Meaning4(x[i]))
  }

  function Level5(b: BlockQ5, e: nat): (r: int)
    requires Sized5(b) && e < QK
    ensures 0 <= r < 32
  {
    Nibble(b.qs, e) + (if Bit(b.qh[e % 32], e / 32) then 16 else 0)
  }

  function Meaning5(b: BlockQ5): (s: Super)
    requires Sized5(b)
    ensures Shaped(s) && SuperOk(s)
  {
    Super(b.d, b.dmin,
      seq(16, j requires 0 <= j < 16 => SixInt(ScaleMin4(b.scales, j / 2).0)),
      seq(16, j requires 0 <= j < 16 => SixInt(ScaleMin4(b.scales, j / 2).1)),
      seq(QK, e requires 0 <= e < QK => Level5(b, e)))
  }

  function Meanings5(x: seq<BlockQ5>): (r: seq<Super>)
    requires forall i :: 0 <= i < |x| ==> Sized5(x[i])
    ensures |r| == |x| && forall i :: 0 <= i < |x| ==> r[i] == Meaning5(x[i]) && Shaped(r[i]) && SuperOk(r[i])
  {
    seq(|x|, i requires 0 <= i < |x| => Meaning5(x[i]))
  }

  /** A low nibble and a high crumb, in four planes of 32. */
  function Level6(b: BlockQ6, e: nat): (r: int)
    requires Sized6(b) && e < QK
    ensures -32 <= r < 32
  {
    var n, c, l := e / 128, e % 128 / 32, e % 32;
    var q := b.ql[64 * n + 32 * (c % 2) + l];
    SixInt(if c < 2 then LowSix(q, b.qh[32 * n + l], c) else HighSix(q, b.qh[32 * n + l], c)) - 32
  }

  lemma Level6In(b: BlockQ6, n: nat, c: nat, l: nat)
    requires Sized6(b) && n < 2 && c < 4 && l < 32
    ensures var q, h := b.ql[64 * n + 32 * (c % 2) + l], b.qh[32 * n + l];
      Level6(b, 128 * n + 32 * c + l) == SixInt(if c < 2 then LowSix(q, h, c) else HighSix(q, h, c)) - 32
  {
    hide LowSix, HighSix, SixInt;
    var e := 128 * n + 32 * c + l;
    assert e / 128 == n && e % 32 == l && e % 128 / 32 == c;
  }

  function Meaning6(b: BlockQ6): (s: Super)
    requires Sized6(b)
    ensures Shaped(s) && SuperOk(s)
  {
    Super(b.d, 0.0,
      seq(16, j requires 0 <= j < 16 => b.scales[j] as int),
      seq(16, j requires 0 <= j < 16 => 0),
      seq(QK, e requires 0 <= e < QK => Level6(b, e)))
  }

  function Meanings6(x: seq<BlockQ6>): (r: seq<Super>)
    requires forall i :: 0 <= i < |x| ==> Sized6(x[i])
    ensures |r| == |x| && forall i :: 0 <= i < |x| ==> r[i] == Meaning6(x[i]) && Shaped(r[i]) && SuperOk(r[i])
  {
    seq(|x|, i requires 0 <= i < |x| => Meaning6(x[i]))
  }
}
