/** Storage footprint of a frame in the AM21C block-compressed format:
    a body of 4 KiB per 64x32 block, a head of 32 bytes per 128x64 block,
    and the total rounded up to 64 KiB. The functions compute in `u32`
    exactly as the driver does; the lemmas give the block formulas and
    show that no wrap-around happens for frames up to MAX_DIM x MAX_DIM. */
module Am21c {
  import opened MachineInt

  const SZ_4K: nat := 0x1000
  const SZ_64K: nat := 0x1_0000

  /** Largest width and height for which the formulas are proved exact. */
  const MAX_DIM: nat := 8192

  /** Number of `b`-sized blocks needed to cover `x`. */
  function CeilDiv(x: nat, b: nat): nat
    requires b > 0
  {
    (x + b - 1) / b
  }

  /** amcodec_am21c_body_size. */
  function BodySize(width: U32, height: U32): U32
  {
    var width64 := Align32(width, 64) / 64;
    var height32 := Align32(height, 32) / 32;
    Wrap32(Wrap32(SZ_4K * width64) * height32)
  }

  /** amcodec_am21c_head_size. */
  function HeadSize(width: U32, height: U32): U32
  {
    var width128 := Align32(width, 128) / 128;
    var height64 := Align32(height, 64) / 64;
    Wrap32(Wrap32(32 * width128) * height64)
  }

  /** amcodec_am21c_size: on every input, a multiple of 64 KiB. */
  function Size(width: U32, height: U32): (r: U32)
    ensures r % SZ_64K == 0
  {
    Align32(Wrap32(BodySize(width, height) + HeadSize(width, height)), SZ_64K)
  }

  /** ALIGN without wrap-around is rounding up to a multiple of `a`. */
  lemma AlignNoWrap(x: U32, a: nat)
    requires IsAlignment(a) && x + a - 1 < U32_LIMIT
    ensures Align32(x, a) == CeilDiv(x, a) * a
    ensures Align32(x, a) / a == CeilDiv(x, a)
  {
    var s := x + a - 1;
    assert Align32(x, a) == s - s % a;
    assert s - s % a == a * (s / a);
    MultipleDivMod(a, s / a);
  }

  lemma MulMono(a: nat, b: nat, c: nat, d: nat)
    requires a <= c && b <= d
    ensures a * b <= c * d
  {
    assert a * b <= c * b;
  }

  /** The body is 4 KiB per 64x32 block of the frame. */
  lemma BodySizeFormula(width: U32, height: U32)
    requires width <= MAX_DIM && height <= MAX_DIM
    ensures BodySize(width, height) == SZ_4K * CeilDiv(width, 64) * CeilDiv(height, 32)
    ensures BodySize(width, height) <= SZ_4K * 128 * 256
  {
    AlignNoWrap(width, 64);
    AlignNoWrap(height, 32);
    var w, h := CeilDiv(width, 64), CeilDiv(height, 32);
    assert w <= 128 && h <= 256;
    MulMono(SZ_4K * w, h, SZ_4K * 128, 256);
  }

  /** The head is 32 bytes per 128x64 block of the frame. */
  lemma HeadSizeFormula(width: U32, height: U32)
    requires width <= MAX_DIM && height <= MAX_DIM
    ensures HeadSize(width, height) == 32 * CeilDiv(width, 128) * CeilDiv(height, 64)
    ensures HeadSize(width, height) <= 32 * 64 * 128
  {
    AlignNoWrap(width, 128);
    AlignNoWrap(height, 64);
    var w, h := CeilDiv(width, 128), CeilDiv(height, 64);
    assert w <= 64 && h <= 128;
    MulMono(32 * w, h, 32 * 64, 128);
  }

  /** The body plus head of a frame, computed without wrap-around. */
  function IdealSum(width: nat, height: nat): nat
  {
    SZ_4K * CeilDiv(width, 64) * CeilDiv(height, 32) + 32 * CeilDiv(width, 128) * CeilDiv(height, 64)
  }

  /** The total is body plus head rounded up to the next multiple of 64 KiB:
      at least their sum and less than 64 KiB above it. */
  lemma SizeFormula(width: U32, height: U32)
    requires width <= MAX_DIM && height <= MAX_DIM
    ensures var sum := IdealSum(width, height);
      && Size(width, height) == CeilDiv(sum, SZ_64K) * SZ_64K
      && sum <= Size(width, height) < sum + SZ_64K
  {
    BodySizeFormula(width, height);
    HeadSizeFormula(width, height);
    var sum := BodySize(width, height) + HeadSize(width, height);
    AlignNoWrap(sum, SZ_64K);
  }

  lemma CeilDivMono(x: nat, y: nat, b: nat)
    requires b > 0 && x <= y
    ensures CeilDiv(x, b) <= CeilDiv(y, b)
  {
    DivMono(x + b - 1, y + b - 1, b);
  }

  lemma DivMono(x: nat, y: nat, b: nat)
    requires b > 0 && x <= y
    ensures x / b <= y / b
  {
    var qx, qy := x / b, y / b;
    assert x == b * qx + x % b && y == b * qy + y % b;
    if qx > qy {
      MulMono(b, qy + 1, b, qx);
    }
  }

  /** `k` times the number of bw x bh blocks never decreases as the frame grows. */
  lemma BlocksMono(w1: nat, h1: nat, w2: nat, h2: nat, k: nat, bw: nat, bh: nat)
    requires w1 <= w2 && h1 <= h2 && bw > 0 && bh > 0
    ensures k * CeilDiv(w1, bw) * CeilDiv(h1, bh) <= k * CeilDiv(w2, bw) * CeilDiv(h2, bh)
  {
    CeilDivMono(w1, w2, bw);
    CeilDivMono(h1, h2, bh);
    var a1, b1, a2, b2 := CeilDiv(w1, bw), CeilDiv(h1, bh), CeilDiv(w2, bw), CeilDiv(h2, bh);
    MulMono(k, a1, k, a2);
    MulMono(k * a1, b1, k * a2, b2);
  }

  lemma IdealSumMono(w1: nat, h1: nat, w2: nat, h2: nat)
    requires w1 <= w2 && h1 <= h2
    ensures IdealSum(w1, h1) <= IdealSum(w2, h2)
  {
    BlocksMono(w1, h1, w2, h2, SZ_4K, 64, 32);
    BlocksMono(w1, h1, w2, h2, 32, 128, 64);
  }

  /** A larger frame never needs less storage. */
  lemma SizeMonotone(w1: U32, h1: U32, w2: U32, h2: U32)
    requires w1 <= w2 <= MAX_DIM && h1 <= h2 <= MAX_DIM
    ensures Size(w1, h1) <= Size(w2, h2)
  {
    SizeFormula(w1, h1);
    SizeFormula(w2, h2);
    IdealSumMono(w1, h1, w2, h2);
    CeilDivMono(IdealSum(w1, h1), IdealSum(w2, h2), SZ_64K);
  }

  /** The smallest frames: one body block and one head block. */
  lemma OneBlockSizes()
    ensures BodySize(64, 32) == 4096
    ensures HeadSize(128, 64) == 32
    ensures Size(1, 1) == SZ_64K
  {
    BodySizeFormula(64, 32);
    HeadSizeFormula(128, 64);
    SizeFormula(1, 1);
  }

  /** A 1920x1080 frame: 30 * 34 body blocks, 15 * 17 head blocks. */
  lemma Size1080p()
    ensures BodySize(1920, 1080) == 4177920
    ensures HeadSize(1920, 1080) == 8160
    ensures Size(1920, 1080) == 4194304
  {
    BodySizeFormula(1920, 1080);
    HeadSizeFormula(1920, 1080);
    SizeFormula(1920, 1080);
  }

  /** The driver computes in u32: beyond MAX_DIM the body size can wrap,
      as it does (to 0) for a 65536x65536 frame, whose true body is 8 GiB. */
  lemma BodySizeWraps()
    ensures SZ_4K * CeilDiv(65536, 64) * CeilDiv(65536, 32) == 2 * U32_LIMIT
    ensures BodySize(65536, 65536) == 0
  {
    AlignNoWrap(65536, 64);
    AlignNoWrap(65536, 32);
  }

  /** A 65536x65536 frame gets its head only, the body having wrapped to 0. */
  lemma SizeWide()
    ensures Size(65536, 65536) == 16777216
  {
    BodySizeWraps();
    assert HeadSize(65536, 65536) == 16777216;
    AlignNoWrap(16777216, SZ_64K);
  }

  /** The largest frame: 128 * 256 body blocks, 64 * 128 head blocks. */
  lemma Size8192()
    ensures BodySize(8192, 8192) == 134217728
    ensures HeadSize(8192, 8192) == 262144
    ensures Size(8192, 8192) == 134479872
  {
    BodySizeFormula(8192, 8192);
    HeadSizeFormula(8192, 8192);
    SizeFormula(8192, 8192);
  }

  /** Beyond MAX_DIM the wrap-around breaks monotonicity: a 65536x65536
      frame gets less storage than an 8192x8192 one. */
  lemma SizeNotMonotoneBeyondMax()
    ensures Size(65536, 65536) == 16777216
    ensures Size(8192, 8192) == 134479872
    ensures Size(65536, 65536) < Size(8192, 8192)
  {
    SizeWide();
    Size8192();
  }
}
