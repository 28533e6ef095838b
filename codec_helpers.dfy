/** The decoder session's canvas pool and the helpers that bind the
    planes of destination buffers to canvases, as the driver runs them:
    a session object whose counter and id array are updated in place,
    and a core object standing for the hardware, whose canvas
    configurations and register writes are recorded in call order. Every
    method is proved to have exactly the effects CanvasSpec gives it. */
module CodecHelpers {
  import opened MachineInt
  import opened CanvasSpec

  /** The decoder core: the external canvas configuration service and
      the decoder registers, seen through the calls made to them. */
  class Core {
    ghost var configs: seq<CanvasConfig>
    ghost var writes: seq<RegWrite>

    constructor ()
      ensures configs == [] && writes == []
    {
      configs, writes := [], [];
    }

    /** meson_canvas_config: bind an address and a geometry to a canvas. */
    method CanvasConfigure(id: U8, addr: nat, width: U32, height: U32,
                           wrap: WrapMode, blkMode: BlockMode, endian: EndianMode)
      modifies this
      ensures configs == old(configs) + [CanvasConfig(id, addr, width, height, wrap, blkMode, endian)]
      ensures writes == old(writes)
    {
      configs := configs + [CanvasConfig(id, addr, width, height, wrap, blkMode, endian)];
    }

    /** amvdec_write_dos: one 32-bit write to a decoder register. */
    method WriteDos(reg: U32, value: U32)
      modifies this
      ensures writes == old(writes) + [RegWrite(reg, value)]
      ensures configs == old(configs)
    {
      writes := writes + [RegWrite(reg, value)];
    }
  }

  /** The part of a decoding session the helpers use. */
  class Session {
    const core: Core
    const canvasAlloc: array<U8>
    var canvasNum: nat
    const pixfmtCap: U32
    const width: U32
    const height: U32

    /** The canvases the session holds, in allocation order. */
    ghost var pool: seq<U8>

    /** The pool never holds more than MAX_CANVAS canvases, and `pool`
        is the used prefix of the id array. */
    ghost predicate Valid()
      reads this, canvasAlloc
    {
      && canvasAlloc.Length == MAX_CANVAS && canvasNum <= MAX_CANVAS
      && |pool| == canvasNum && pool == canvasAlloc[..canvasNum]
    }

    /** A session with an empty pool. */
    constructor (core: Core, pixfmt: U32, width: U32, height: U32)
      ensures Valid() && pool == [] && fresh(canvasAlloc)
      ensures this.core == core && pixfmtCap == pixfmt && this.width == width && this.height == height
    {
      this.core := core;
      canvasAlloc := new U8[MAX_CANVAS];
      canvasNum := 0;
      pool := [];
      pixfmtCap, this.width, this.height := pixfmt, width, height;
    }

    /** amvdec_alloc_canvas: refuse with -ENOMEM at capacity, else take a
        canvas from the external allocator, whose reply is `reply`, and
        append its id to the pool. On any failure the pool is unchanged. */
    method AllocCanvas(reply: AllocReply) returns (ret: int, canvasId: U8)
      requires Valid()
      modifies this`canvasNum, this`pool, canvasAlloc
      ensures Valid()
      ensures ret == AllocRet(old(canvasNum), reply)
      ensures ret == 0 ==> canvasId == reply.id && canvasNum == old(canvasNum) + 1
                           && canvasAlloc[..] == old(canvasAlloc[..])[old(canvasNum) := canvasId]
                           && pool == old(pool) + [canvasId]
      ensures ret != 0 ==> canvasNum == old(canvasNum) && canvasAlloc[..] == old(canvasAlloc[..])
                           && pool == old(pool)
    {
      if canvasNum >= MAX_CANVAS {
        return -ENOMEM, 0;
      }
      match reply
      case Refused(code) =>
        return code, 0;
      case Granted(id) =>
        canvasAlloc[canvasNum] := id;
        canvasNum := canvasNum + 1;
        pool := pool + [id];
        return 0, id;
    }

    /** The plane loop both mappers open with: one canvas per entry of
        `canvasId`, the plane addresses of `buf` alongside; returns at
        the first failed allocation without releasing earlier canvases. */
    method AllocPlanes(buf: DstBuffer, replies: seq<AllocReply>,
                       canvasId: array<U8>, bufPaddr: array<nat>) returns (ret: int)
      requires Valid() && canvasId != canvasAlloc
      requires canvasId.Length == bufPaddr.Length
      requires canvasId.Length <= |replies| && canvasId.Length <= |buf.planes|
      modifies this`canvasNum, this`pool, canvasAlloc, canvasId, bufPaddr
      ensures Valid()
      ensures var run := AllocCanvases(old(canvasNum), replies, canvasId.Length);
        && ret == run.ret
        && pool == old(pool) + run.ids
        && (ret == 0 ==> canvasId[..] == run.ids && bufPaddr[..] == buf.planes[..canvasId.Length])
    {
      ghost var count := canvasNum;
      var n := canvasId.Length;
      var i := 0;
      while i < n
        invariant 0 <= i <= n && Valid()
        invariant AllocCanvases(count, replies, i).ret == 0
        invariant canvasNum == count + i
        invariant pool == old(pool) + AllocCanvases(count, replies, i).ids
        invariant canvasId[..i] == AllocCanvases(count, replies, i).ids
        invariant bufPaddr[..i] == buf.planes[..i]
      {
        AllocStep(count, replies, i);
        var r, id := AllocCanvas(replies[i]);
        if r != 0 {
          AllocFailureSticks(count, replies, i + 1, n);
          return r;
        }
        AppendAssoc(old(pool), AllocCanvases(count, replies, i).ids, [id]);
        canvasId[i] := id;
        bufPaddr[i] := buf.planes[i];
        i := i + 1;
      }
      ret := 0;
    }

    /** codec_helper_set_canvas_yuv420m. */
    method SetCanvasYuv420m(buf: DstBuffer, width: U32, height: U32, reg: U32,
                            replies: seq<AllocReply>) returns (ret: int)
      requires Valid()
      requires |replies| >= NUM_CANVAS_YUV420 && |buf.planes| >= NUM_CANVAS_YUV420
      modifies this`canvasNum, this`pool, canvasAlloc, core
      ensures Valid()
      ensures var e := Yuv420mEffects(old(canvasNum), replies, buf, width, height, reg);
        && ret == e.ret
        && pool == old(pool) + e.ids
        && core.configs == old(core.configs) + e.configs
        && core.writes == old(core.writes) + e.writes
    {
      var canvasId := new U8[NUM_CANVAS_YUV420];
      var bufPaddr := new nat[NUM_CANVAS_YUV420];
      ret := AllocPlanes(buf, replies, canvasId, bufPaddr);
      if ret != 0 {
        return;
      }
      // Y plane
      core.CanvasConfigure(canvasId[0], bufPaddr[0], width, height,
                           WrapNone, BlockLinear, EndianSwap64);
      // U plane
      core.CanvasConfigure(canvasId[1], bufPaddr[1], width / 2, height / 2,
                           WrapNone, BlockLinear, EndianSwap64);
      // V plane
      core.CanvasConfigure(canvasId[2], bufPaddr[2], width / 2, height / 2,
                           WrapNone, BlockLinear, EndianSwap64);
      core.WriteDos(reg, PackCanvasWord(canvasId[0], canvasId[1], canvasId[2]));
      ret := 0;
    }

    /** codec_helper_set_canvas_nv12m. */
    method SetCanvasNv12m(buf: DstBuffer, width: U32, height: U32, reg: U32,
                          replies: seq<AllocReply>) returns (ret: int)
      requires Valid()
      requires |replies| >= NUM_CANVAS_NV12 && |buf.planes| >= NUM_CANVAS_NV12
      modifies this`canvasNum, this`pool, canvasAlloc, core
      ensures Valid()
      ensures var e := Nv12mEffects(old(canvasNum), replies, buf, width, height, reg);
        && ret == e.ret
        && pool == old(pool) + e.ids
        && core.configs == old(core.configs) + e.configs
        && core.writes == old(core.writes) + e.writes
    {
      var canvasId := new U8[NUM_CANVAS_NV12];
      var bufPaddr := new nat[NUM_CANVAS_NV12];
      ret := AllocPlanes(buf, replies, canvasId, bufPaddr);
      if ret != 0 {
        return;
      }
      // Y plane
      core.CanvasConfigure(canvasId[0], bufPaddr[0], width, height,
                           WrapNone, BlockLinear, EndianSwap64);
      // U/V plane
      core.CanvasConfigure(canvasId[1], bufPaddr[1], width, height / 2,
                           WrapNone, BlockLinear, EndianSwap64);
      core.WriteDos(reg, PackCanvasWord(canvasId[0], canvasId[1], canvasId[1]));
      ret := 0;
    }

    /** The switch on the capture format inside the queue loop. */
    method MapBuffer(buf: DstBuffer, width: U32, height: U32, reg: U32,
                     replies: seq<AllocReply>) returns (ret: int)
      requires Valid()
      requires |replies| >= PlaneCount(pixfmtCap) && |buf.planes| >= PlaneCount(pixfmtCap)
      modifies this`canvasNum, this`pool, canvasAlloc, core
      ensures Valid()
      ensures var e := BufferEffects(old(canvasNum), pixfmtCap, replies, buf, width, height, reg);
        && ret == e.ret
        && pool == old(pool) + e.ids
        && core.configs == old(core.configs) + e.configs
        && core.writes == old(core.writes) + e.writes
    {
      if pixfmtCap == PIX_FMT_NV12M {
        ret := SetCanvasNv12m(buf, width, height, reg, replies);
      } else if pixfmtCap == PIX_FMT_YUV420M {
        ret := SetCanvasYuv420m(buf, width, height, reg, replies);
      } else {
        ret := -EINVAL;
      }
    }

    /** amcodec_helper_set_canvases as written: the loop over the queue
        returns from its first iteration whatever the format, so the
        bank-advance code after the switch (BankAdvance) never runs. */
    method SetCanvases(regBase: seq<U32>, regNum: seq<U32>, queue: seq<DstBuffer>,
                       replies: seq<AllocReply>) returns (ret: int)
      requires Valid() && |regBase| >= 1
      requires |replies| >= PlaneCount(pixfmtCap)
      requires |queue| > 0 ==> |queue[0].planes| >= PlaneCount(pixfmtCap)
      modifies this`canvasNum, this`pool, canvasAlloc, core
      ensures Valid()
      ensures var e := SetCanvasesEffects(old(canvasNum), pixfmtCap, width, height, regBase, queue, replies);
        && ret == e.ret
        && pool == old(pool) + e.ids
        && core.configs == old(core.configs) + e.configs
        && core.writes == old(core.writes) + e.writes
    {
      var w := Align32(width, 64);
      var h := Align32(height, 64);
      var regCur := regBase[0];
      for i := 0 to |queue|
        invariant i == 0
        invariant canvasNum == old(canvasNum) && canvasAlloc[..] == old(canvasAlloc[..])
        invariant core.configs == old(core.configs) && core.writes == old(core.writes)
      {
        ret := MapBuffer(queue[i], w, h, regCur, replies);
        return;
      }
      ret := 0;
    }

    /** The mapping half of one iteration of the corrected walk: map the
        next queued buffer at `regCur`, the register of slot `pos` of a
        live bank. `done` holds the effects of the buffers already mapped
        on top of the pool and logs `pool0`, `configs0`, `writes0`, and
        `total` those of the whole walk; a failure ends the walk. */
    method MapNext(ghost regBase: seq<U32>, ghost regNum: seq<U32>, ghost pos: BankPos, regCur: U32, w: U32, h: U32,
                   rest: seq<DstBuffer>, restReplies: seq<seq<AllocReply>>,
                   ghost count: nat, ghost done: Effects, ghost total: Effects, ghost pool0: seq<U8>,
                   ghost configs0: seq<CanvasConfig>, ghost writes0: seq<RegWrite>)
      returns (ret: int, ghost countNext: nat, ghost doneNext: Effects)
      requires Valid() && ValidBanks(regBase, regNum) && LiveSlot(regBase, pos) && regCur == SlotReg(regBase, pos)
      requires rest != [] && WellFormedQueue(pixfmtCap, rest, restReplies)
      requires canvasNum == count
      requires Then(done, WalkEffects(count, pixfmtCap, w, h, regBase, regNum, pos, rest, restReplies)) == total
      requires pool == pool0 + done.ids
      requires core.configs == configs0 + done.configs && core.writes == writes0 + done.writes
      modifies this`canvasNum, this`pool, canvasAlloc, core
      ensures Valid()
      ensures ret != 0 ==> && ret == total.ret
                           && pool == pool0 + total.ids
                           && core.configs == configs0 + total.configs
                           && core.writes == writes0 + total.writes
      ensures ret == 0 ==> var e := BufferEffects(count, pixfmtCap, restReplies[0], rest[0], w, h, regCur);
                           && e.ret == 0 && doneNext == Then(done, e)
                           && canvasNum == countNext && countNext == count + |e.ids|
                           && pool == pool0 + doneNext.ids
                           && core.configs == configs0 + doneNext.configs
                           && core.writes == writes0 + doneNext.writes
    {
      ghost var e := BufferEffects(count, pixfmtCap, restReplies[0], rest[0], w, h, regCur);
      AppendAssoc(pool0, done.ids, e.ids);
      AppendAssoc(configs0, done.configs, e.configs);
      AppendAssoc(writes0, done.writes, e.writes);
      ret := MapBuffer(rest[0], w, h, regCur, restReplies[0]);
      if ret != 0 {
        WalkResumeFails(done, total, count, pixfmtCap, w, h, regBase, regNum, pos, rest, restReplies);
      }
      doneNext := Then(done, e);
      countNext := count + |e.ids|;
    }

    /** amcodec_helper_set_canvases with each mapper's result returned
        only when it is an error, so that the bank walk its remaining
        code sets up runs: each buffer in turn is mapped at the current
        register slot, the first failure is returned, and the walk fails
        with -EINVAL when the advance after a buffer meets the zero base
        closing the table. */
    method SetCanvasesAll(regBase: seq<U32>, regNum: seq<U32>, queue: seq<DstBuffer>,
                          replies: seq<seq<AllocReply>>) returns (ret: int)
      requires Valid() && ValidBanks(regBase, regNum) && (queue != [] ==> regBase[0] != 0)
      requires WellFormedQueue(pixfmtCap, queue, replies)
      modifies this`canvasNum, this`pool, canvasAlloc, core
      ensures Valid()
      ensures var e := SetCanvasesAllEffects(old(canvasNum), pixfmtCap, width, height, regBase, regNum, queue, replies);
        && ret == e.ret
        && pool == old(pool) + e.ids
        && core.configs == old(core.configs) + e.configs
        && core.writes == old(core.writes) + e.writes
    {
      var w := Align32(width, 64);
      var h := Align32(height, 64);
      var regCur := regBase[0];
      var regNumCur: U32 := 0;
      var regBaseCur: nat := 0;
      var rest, restReplies := queue, replies;
      ghost var total := WalkEffects(canvasNum, pixfmtCap, w, h, regBase, regNum, BankPos(0, 0), queue, replies);
      ghost var done := NoEffects;
      ghost var count := canvasNum;
      assert Then(done, total) == total;
      while rest != []
        invariant Valid() && canvasNum == count
        invariant regBaseCur < |regBase| && regCur == SlotReg(regBase, BankPos(regBaseCur, regNumCur))
        invariant rest != [] ==> LiveSlot(regBase, BankPos(regBaseCur, regNumCur))
        invariant WellFormedQueue(pixfmtCap, rest, restReplies)
        invariant Then(done, WalkEffects(count, pixfmtCap, w, h, regBase, regNum, BankPos(regBaseCur, regNumCur),
                                         rest, restReplies)) == total
        invariant pool == old(pool) + done.ids
        invariant core.configs == old(core.configs) + done.configs
        invariant core.writes == old(core.writes) + done.writes
        decreases |rest|
      {
        ghost var pos, count0, done0 := BankPos(regBaseCur, regNumCur), count, done;
        ret, count, done := MapNext(regBase, regNum, pos, regCur, w, h, rest, restReplies, count, done, total,
                                    old(pool), old(core.configs), old(core.writes));
        if ret != 0 {
          return;
        }
        LiveBank(regBase, regNum, pos);
        ret, regBaseCur, regNumCur, regCur := AdvanceSlot(regBase, regNum, regBaseCur, regNumCur);
        if ret != 0 {
          WalkResumeEnds(done0, total, count0, pixfmtCap, w, h, regBase, regNum, pos, rest, restReplies);
          return;
        }
        WellFormedTail(pixfmtCap, rest, restReplies);
        WalkResumeGoes(done0, total, count0, pixfmtCap, w, h, regBase, regNum, pos, rest, restReplies,
                       BankPos(regBaseCur, regNumCur), count, done);
        rest, restReplies := rest[1..], restReplies[1..];
      }
      WalkEnds(done, total, count, pixfmtCap, w, h, regBase, regNum, BankPos(regBaseCur, regNumCur), restReplies);
      ret := 0;
    }
  }

  /** Lines 164-173 of amcodec_helper_set_canvases: count one more slot
      used in the current bank, move to the next bank once reg_num of its
      slots are used, fail with -EINVAL at the zero base that closes the
      table, and compute the register of the new slot. */
  method AdvanceSlot(regBase: seq<U32>, regNum: seq<U32>, regBaseCur: nat, regNumCur: U32)
    returns (ret: int, regBaseNext: nat, regNumNext: U32, regNext: U32)
    requires regBaseCur < |regNum| && regBaseCur + 1 < |regBase|
    ensures var pos := BankPos(regBaseCur, regNumCur);
      var adv := BankAdvance(regBase, regNum, pos);
      && BankPos(regBaseNext, regNumNext) == NextSlot(regNum, pos)
      && (adv.AdvanceFailed? ==> ret == adv.ret)
      && (adv.NextReg? ==> ret == 0 && regNext == adv.reg)
  {
    regBaseNext, regNumNext := regBaseCur, Wrap32(regNumCur + 1);
    if regNumNext >= regNum[regBaseNext] {
      regBaseNext := regBaseNext + 1;
      regNumNext := 0;
    }
    if regBase[regBaseNext] == 0 {
      return -EINVAL, regBaseNext, regNumNext, 0;
    }
    ret, regNext := 0, Wrap32(regBase[regBaseNext] as nat + regNumNext as nat * 4);
  }
}
