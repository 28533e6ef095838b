# Amlogic Meson video decoder: codec helpers

A Dafny model of the helper layer of the Amlogic Meson stateful video
decoder driver (`drivers/media/platform/meson/vdec/codec_helpers.c`).
The layer does three things:

- It computes the storage footprint of a frame in the AM21C
  block-compressed format.
- It manages a decoding session's pool of *canvases*: hardware
  descriptors that bind a DMA address and a geometry to an 8-bit id.
- It binds the planes of queued destination buffers to canvases, then
  writes the packed canvas ids into the decoder's registers. The register
  table is a zero-terminated array of bank base addresses, each bank
  with its number of 4-byte registers.

The project has four modules:

- `MachineInt` (`machine_int.dfy`): the C `u8`/`u32` types, `u32`
  wrap-around, and the kernel's `ALIGN` macro evaluated in `u32`.
- `Am21c` (`am21c.dfy`): `amcodec_am21c_body_size`, `_head_size` and
  `_size`, computed in `u32` exactly as the C does.
  - Lemmas give the block formulas for frames up to 8192x8192, and show
    that no wrap-around occurs there.
  - Lemmas exhibit the wrap-around beyond that size, where a larger
    frame can get less storage.
- `CanvasSpec` (`canvas_spec.dfy`): a value-level specification. Each
  helper's return code and side effects are a function of the pool
  size, the frame geometry and the external allocator's replies. The
  side effects are canvases added to the pool, canvas configurations and
  register writes. The module also proves the properties of these
  functions.
- `CodecHelpers` (`codec_helpers.dfy`): the helpers as the driver runs
  them.
  - A `Session` class holds `canvas_num` and the `canvas_alloc` array,
    both updated in place. Its invariant is `canvas_num <= MAX_CANVAS`.
  - A `Core` class records, in call order, every call to the canvas
    configuration service and every register write.
  - Each method is proved to have exactly the effects `CanvasSpec` gives
    it.

`amcodec_helper_set_canvases` returns from inside its loop body on every
branch of the format switch. So only the first queued buffer is ever
mapped, and the bank-advance code after the switch (lines 164–173) never
runs. The model has both versions:

- the walker as written: `SetCanvasesEffects` and `Session.SetCanvases`;
- the walk the bank-advance code is there for: `WalkEffects` and
  `Session.SetCanvasesAll`. It is the same loop, except that a mapper's
  result is returned only when it is an error.

The corrected walk keeps the code's own order. It maps the buffer at the
current register, advances, and then tests for the zero base. So a queue
that uses the last slot of the table also ends with -EINVAL
(`LastSlotUsedFails`): a table of k slots serves k - 1 buffers
(`OneBankWalk`). With a supported format (YUV420M or NV12M), every
allocation granted and room in the pool, the corrected walk succeeds
exactly when the table has a slot after each buffer, and fails with
-EINVAL otherwise (`WalkCompletes`). With an unsupported format a
non-empty queue always fails with -EINVAL at its first buffer, whatever
the table (`BufferEffects`).

## Model

| member | source | states |
|---|---|---|
| MachineInt.Align32 | drivers/media/platform/meson/vdec/codec_helpers.c:17-18 | `ALIGN(x, a)` on a `u32` is a multiple of `a`; without wrap-around it is the least multiple of `a` that is at least `x` |
| Am21c.Size | drivers/media/platform/meson/vdec/codec_helpers.c:34-38 | the AM21C size is a multiple of 64 KiB for every `u32` width and height |
| Am21c.BodySizeFormula | drivers/media/platform/meson/vdec/codec_helpers.c:14-21 | up to 8192x8192 the body is 4 KiB times the number of 64x32 blocks covering the frame, with no `u32` wrap-around |
| Am21c.HeadSizeFormula | drivers/media/platform/meson/vdec/codec_helpers.c:24-31 | up to 8192x8192 the head is 32 bytes times the number of 128x64 blocks covering the frame, with no wrap-around |
| Am21c.SizeFormula | drivers/media/platform/meson/vdec/codec_helpers.c:34-38 | up to 8192x8192 the size is body plus head rounded up to a multiple of 64 KiB: at least their sum and less than 64 KiB above it |
| Am21c.SizeMonotone | drivers/media/platform/meson/vdec/codec_helpers.c:15-38 | up to 8192x8192, a frame no wider and no taller than another never needs more storage |
| Am21c.SizeNotMonotoneBeyondMax | drivers/media/platform/meson/vdec/codec_helpers.c:15-38 | beyond 8192 the `u32` wrap-around breaks monotonicity: size(65536, 65536) = 16777216 < size(8192, 8192) = 134479872 |
| Am21c.OneBlockSizes | drivers/media/platform/meson/vdec/codec_helpers.c:15-38 | body(64, 32) = 4096, head(128, 64) = 32, size(1, 1) = 64 KiB |
| Am21c.Size1080p | drivers/media/platform/meson/vdec/codec_helpers.c:15-38 | a 1920x1080 frame: body 4177920, head 8160, size 4194304 |
| Am21c.Size8192 | drivers/media/platform/meson/vdec/codec_helpers.c:15-38 | the largest frame, 8192x8192: body 134217728, head 262144, size 134479872 |
| Am21c.SizeWide | drivers/media/platform/meson/vdec/codec_helpers.c:15-38 | a 65536x65536 frame gets only its head, 16777216 bytes, once the body wraps to 0 |
| Am21c.BodySizeWraps | drivers/media/platform/meson/vdec/codec_helpers.c:15-21 | beyond 8192 the `u32` body size wraps: 65536x65536 gives 0 for a true 8 GiB |
| CanvasSpec.AllocRet | drivers/media/platform/meson/vdec/codec_helpers.c:41-55 | an allocation succeeds exactly when the pool has room and the allocator grants; -ENOMEM at capacity, otherwise the allocator's own code |
| CanvasSpec.AllocCanvases | drivers/media/platform/meson/vdec/codec_helpers.c:66-73 | the plane loop returns 0 exactly when all `n` canvases are granted; on failure it returns the failed call's code; the pool never exceeds MAX_CANVAS |
| CanvasSpec.AllocCanvasesGrants | drivers/media/platform/meson/vdec/codec_helpers.c:66-73 | the ids granted are those of the allocator's replies, in order; the loop succeeds exactly when there is room for all `n` and every reply is a grant |
| CanvasSpec.AllocFailureSticks | drivers/media/platform/meson/vdec/codec_helpers.c:67-69 | after a failed allocation the loop has returned: later iterations change nothing |
| CanvasSpec.PackCanvasWord | drivers/media/platform/meson/vdec/codec_helpers.c:93-96 | `id2 << 16 \| id1 << 8 \| id0` holds id0, id1 and id2 in its byte lanes 0–2, and its top byte is clear |
| CanvasSpec.PackUnpack | drivers/media/platform/meson/vdec/codec_helpers.c:93-96 | every register word with a clear top byte is the packing of its three low lanes (packing is a bijection onto such words) |
| CanvasSpec.Yuv420mEffects | drivers/media/platform/meson/vdec/codec_helpers.c:57-99 | returns the plane loop's code and takes its canvases; on failure nothing is configured or written and earlier canvases stay allocated; on success 3 canvases, 3 configurations, one write to `reg` |
| CanvasSpec.Yuv420mSucceeds | drivers/media/platform/meson/vdec/codec_helpers.c:66-73 | a YUV420M buffer is mapped exactly when the pool has room for 3 more canvases and all 3 allocations are granted |
| CanvasSpec.Yuv420mLayout | drivers/media/platform/meson/vdec/codec_helpers.c:75-96 | on success Y is width x height and U, V are width/2 x height/2, each at its plane's address, unwrapped, linear, 64-bit swap; the word holds the Y, U, V ids in lanes 0, 1, 2 |
| CanvasSpec.Nv12mEffects | drivers/media/platform/meson/vdec/codec_helpers.c:101-137 | as for YUV420M, with 2 canvases and 2 configurations |
| CanvasSpec.Nv12mSucceeds | drivers/media/platform/meson/vdec/codec_helpers.c:110-117 | an NV12M buffer is mapped exactly when the pool has room for 2 more canvases and both allocations are granted |
| CanvasSpec.Nv12mLayout | drivers/media/platform/meson/vdec/codec_helpers.c:119-134 | on success Y is width x height and U/V is width x height/2; lanes 1 and 2 of the word both hold the U/V id |
| CanvasSpec.BufferEffects | drivers/media/platform/meson/vdec/codec_helpers.c:151-162 | NV12M and YUV420M go to their mappers; any other format gives -EINVAL with no canvas, configuration or write |
| CanvasSpec.SetCanvasesEffects | drivers/media/platform/meson/vdec/codec_helpers.c:139-177 | an empty queue gives 0 and no effect; otherwise the result is that of mapping buffer 0 at `reg_base[0]` with the size aligned up to 64; at most one write, to `reg_base[0]` |
| CanvasSpec.OnlyFirstBufferMapped | drivers/media/platform/meson/vdec/codec_helpers.c:150-162 | two queues with the same first buffer have the same effects |
| CanvasSpec.SecondBufferNotMapped | drivers/media/platform/meson/vdec/codec_helpers.c:150-162 | two NV12M buffers and a granting allocator: success, yet only 2 canvases and one register write |
| CanvasSpec.NextSlot | drivers/media/platform/meson/vdec/codec_helpers.c:164-168 | the walk stays in the bank, one slot further, exactly when the incremented `reg_num_cur` is below the bank's `reg_num`; otherwise it moves to slot 0 of the next bank |
| CanvasSpec.BankAdvance | drivers/media/platform/meson/vdec/codec_helpers.c:164-173 | the advance fails with -EINVAL exactly when the next slot's bank base is zero; otherwise the next register is the current one plus 4 (mod 2^32) within a bank, and the next bank's base when the bank is used up |
| CanvasSpec.SingleSlotBankExhausted | drivers/media/platform/meson/vdec/codec_helpers.c:164-171 | with one single-slot bank the first advance already fails |
| CanvasSpec.RegisterWalk | drivers/media/platform/meson/vdec/codec_helpers.c:164-173 | the registers `n` buffers go to from a slot on, one per buffer, or none if an advance meets the end of the table |
| CanvasSpec.WalkEffects | drivers/media/platform/meson/vdec/codec_helpers.c:150-176 | a successful walk writes one register per queued buffer, at the slots the bank advance visits, in order; if the table ends first, the walk fails |
| CanvasSpec.SetCanvasesAllEffects | drivers/media/platform/meson/vdec/codec_helpers.c:139-177 | the corrected walker succeeds only by writing one register per buffer; an empty queue gives 0 and no effect |
| CanvasSpec.WalkCompletes | drivers/media/platform/meson/vdec/codec_helpers.c:150-176 | the converse: with a supported format, room in the pool for every canvas and every allocation granted, the walk succeeds exactly when the register walk finds a slot after each buffer, taking PlaneCount canvases per buffer; otherwise it fails with -EINVAL |
| CanvasSpec.SetCanvasesAllCompletes | drivers/media/platform/meson/vdec/codec_helpers.c:139-177 | the same for the corrected walker from `reg_base[0]`: on success the registers written are exactly the register walk's, one per buffer |
| CanvasSpec.OneBankWalk | drivers/media/platform/meson/vdec/codec_helpers.c:164-173 | a table of one bank of `k` registers: from slot `s`, `n` buffers get a slot after each exactly when `s + n < k`, and they go to consecutive 4-byte registers from the bank base |
| CanvasSpec.SingleSlotBankTwoBuffers | drivers/media/platform/meson/vdec/codec_helpers.c:150-171 | one single-slot bank, two buffers: the first is mapped at the bank base, then -EINVAL |
| CanvasSpec.LastSlotUsedFails | drivers/media/platform/meson/vdec/codec_helpers.c:164-171 | a queue that fills the table is fully mapped yet ends with -EINVAL, because the advance after the last buffer is tested too |
| CanvasSpec.TwoBuffersMapped | drivers/media/platform/meson/vdec/codec_helpers.c:150-176 | a three-slot bank and a granting allocator: both buffers are mapped, at the base and at base + 4 |
| CodecHelpers.Session.AllocCanvas | drivers/media/platform/meson/vdec/codec_helpers.c:41-55 | keeps `canvas_num <= MAX_CANVAS`; on success stores the granted id at `canvas_alloc[old canvas_num]`, adds one to `canvas_num` and changes no other entry; on failure changes nothing |
| CodecHelpers.Session.AllocPlanes | drivers/media/platform/meson/vdec/codec_helpers.c:66-73 | the mappers' plane loop has the effects `AllocCanvases` gives: the same code, the granted ids appended to the pool, and the ids and plane addresses in the local arrays |
| CodecHelpers.Session.SetCanvasYuv420m | drivers/media/platform/meson/vdec/codec_helpers.c:57-99 | returns the code and makes exactly the pool additions, configurations and writes of `Yuv420mEffects` |
| CodecHelpers.Session.SetCanvasNv12m | drivers/media/platform/meson/vdec/codec_helpers.c:101-137 | returns the code and makes exactly the pool additions, configurations and writes of `Nv12mEffects` |
| CodecHelpers.Session.MapBuffer | drivers/media/platform/meson/vdec/codec_helpers.c:151-162 | the format switch has exactly the effects of `BufferEffects` |
| CodecHelpers.Session.SetCanvases | drivers/media/platform/meson/vdec/codec_helpers.c:139-177 | the walker as written has exactly the effects of `SetCanvasesEffects` |
| CodecHelpers.Session.MapNext | drivers/media/platform/meson/vdec/codec_helpers.c:150-162 | mapping the next buffer at the current slot either ends the walk with its error and the walk's full effects, or adds that buffer's effects to the logs |
| CodecHelpers.AdvanceSlot | drivers/media/platform/meson/vdec/codec_helpers.c:164-173 | the in-place update of `reg_num_cur`/`reg_base_cur`/`reg_cur` computes `BankAdvance` and moves to `NextSlot` |
| CodecHelpers.Session.SetCanvasesAll | drivers/media/platform/meson/vdec/codec_helpers.c:139-177 | the corrected walker has exactly the effects of `SetCanvasesAllEffects` |

## Left out

- `drivers/staging/media/meson/vdec/vdec_ctrls.c`: V4L2 control registration, glue over library calls.
- `codec_helpers.h`: declarations only.
- `vdec.h` is not part of this model. `MAX_CANVAS` is taken as 32 * 3. The general lemmas hold for any value; the example lemmas `SecondBufferNotMapped`, `SingleSlotBankTwoBuffers` and `LastSlotUsedFails` need `MAX_CANVAS >= 2`, and `TwoBuffersMapped` needs `MAX_CANVAS >= 4`. The `amvdec_session` fields the helpers read (`pixfmt_cap`, `width`, `height`) are constants of the `Session`, because no helper changes them.
- `meson_canvas_alloc` is an oracle: each call's reply (a granted 8-bit id or a nonzero error code) is an input. Its internals are left out.
- `meson_canvas_config` and `amvdec_write_dos` are appends to ghost logs in `Core`. `vb2_dma_contig_plane_dma_addr` is a buffer's list of plane addresses. Their internals (hardware and DMA) are left out.
- Distinctness of canvas ids across the hardware is the allocator's business. The model neither assumes nor proves it.
- `v4l2_m2m_for_each_dst_buf`: the destination queue is a sequence of buffers, not a linked list.
- `dev_err` logging, and session locking (the caller's job).
- `ALIGN`'s bit mask `& ~(a - 1)` is written as `s - s % a`. For the power-of-two alignments used (64, 32, 128, 64 KiB) the two are equal.
- The register word's shifts and ors are written as `id2 * 65536 + id1 * 256 + id0`. The lanes do not overlap, so the two are equal.
- `reg_base[] + reg_num_cur * 4` wraps the product to 32 bits before the sum. The model wraps only the sum; modulo 2^32 the result is the same.
- Session.SetCanvasYuv420m, Session.SetCanvasNv12m, Session.MapBuffer, Session.SetCanvases, Session.SetCanvasesAll (and `WalkEffects`, through `WellFormedQueue`): require every buffer they reach to have as many planes as its format has. The C looks up plane `i` only after canvas `i` is granted (lines 67-72 and 111-116). So a buffer with fewer planes whose allocations fail first gets the allocation's error in the C, with no lookup of the missing plane. Such inputs (for example a 2-plane YUV420M buffer whose third allocation is refused) are outside the model. The lookup of a plane the buffer lacks, once its canvas is granted, is outside the model too.
- Session.SetCanvasesAll: requires a nonzero first bank base when the queue is not empty. With a zero first base the C writes to register 0 and may read past the end of the table.

## Findings

| source | as written | input that shows it | evidently intended | confidence | as-written member | corrected member |
|---|---|---|---|---|---|---|
| drivers/media/platform/meson/vdec/codec_helpers.c:150-174 | every branch of the format switch `return`s, so the loop maps only the first queued buffer and the bank-advance code (lines 164–173) never runs | two NV12M buffers, an empty pool, every allocation granted: returns 0 after 2 canvases and one register write | map every queued buffer at successive register slots and return at the first mapper error; after each buffer, advance and fail with -EINVAL at the zero base, so a table of k slots serves k - 1 buffers (`OneBankWalk`, `LastSlotUsedFails`) | not executed | CanvasSpec.SecondBufferNotMapped | CodecHelpers.Session.SetCanvasesAll |
