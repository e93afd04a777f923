/** The paint pipeline of the SDL host: on_paint (lib/host/sdl/base_view.cpp:121-161). The SDL and
    cairo resources are tokens, the calls on them a log; the row copy from the drawing surface into
    the locked texture is an array method. BaseView.Host.OnPaint in host.dfy runs the whole paint. */
module Paint {

  type Byte = bv8

  /** A graphics resource pointer: null, or a live resource the host created. */
  datatype Res = Null | Live(id: nat)

  /** The four resource pointers a view_info owns. */
  datatype Resources = Resources(renderer: Res, renderTarget: Res, surface: Res, context: Res)

  /** A new view_info owns nothing. */
  const NO_RESOURCES: Resources := Resources(Null, Null, Null, Null)

  /** The SDL and cairo calls on_paint makes, with the resources they name. */
  datatype GfxOp =
    | CreateRenderer(renderer: Res)
    | DestroyContext(context: Res)
    | DestroySurface(surface: Res)
    | DestroyTexture(texture: Res)
    | CreateTexture(texture: Res, renderer: Res, w: int, h: int)
    | CreateSurface(surface: Res, w: int, h: int)
    | CreateContext(context: Res, surface: Res)
    | LockTexture(texture: Res)
    | UnlockTexture(texture: Res)
    | RenderClear(renderer: Res)
    | RenderTexture(renderer: Res, texture: Res)
    | RenderPresent(renderer: Res)

  /** The grow check: the window is wider or taller than the recorded size. */
  predicate Grows(w: int, h: int, infoW: int, infoH: int) {
    w > infoW || h > infoH
  }

  /** The renderer after the create-once check; a created renderer gets the id `id`. */
  function EnsureRenderer(res: Resources, id: nat): Res {
    if res.renderer == Null then Live(id) else res.renderer
  }

  /** The resources after a paint of a w by h window; the texture, surface and context created on
      growth get the ids id + 1, id + 2 and id + 3. */
  function PaintResources(res: Resources, w: int, h: int, infoW: int, infoH: int, id: nat): Resources {
    var renderer := EnsureRenderer(res, id);
    if Grows(w, h, infoW, infoH) then Resources(renderer, Live(id + 1), Live(id + 2), Live(id + 3))
    else res.(renderer := renderer)
  }

  /** The destroy calls for the resources that are live, context first. */
  function DestroyOps(res: Resources): seq<GfxOp> {
    (if res.context != Null then [DestroyContext(res.context)] else [])
    + (if res.surface != Null then [DestroySurface(res.surface)] else [])
    + (if res.renderTarget != Null then [DestroyTexture(res.renderTarget)] else [])
  }

  /** The SDL and cairo calls of a paint before the view draws. */
  function PrepareOps(res: Resources, w: int, h: int, infoW: int, infoH: int, id: nat): seq<GfxOp> {
    var after := PaintResources(res, w, h, infoW, infoH, id);
    (if res.renderer == Null then [CreateRenderer(after.renderer)] else [])
    + (if Grows(w, h, infoW, infoH) then
         DestroyOps(res)
         + [CreateTexture(after.renderTarget, after.renderer, w, h), CreateSurface(after.surface, w, h),
            CreateContext(after.context, after.surface)]
       else [])
  }

  /** The SDL calls of a paint after the view draws: copy into the texture and present it. */
  function PresentOps(after: Resources): seq<GfxOp> {
    [LockTexture(after.renderTarget), UnlockTexture(after.renderTarget), RenderClear(after.renderer),
     RenderTexture(after.renderer, after.renderTarget), RenderPresent(after.renderer)]
  }

  /** The destroy calls on_paint makes before reallocating: each live resource, context first. */
  method DestroyLive(res: Resources) returns (ops: seq<GfxOp>)
    ensures ops == DestroyOps(res)
    ensures forall i :: 0 <= i < |ops| ==> IsDestroy(ops[i]) && Destroyed(ops[i]) != Null
  {
    ops := [];
    if res.context != Null {
      ops := ops + [DestroyContext(res.context)];
    }
    if res.surface != Null {
      ops := ops + [DestroySurface(res.surface)];
    }
    if res.renderTarget != Null {
      ops := ops + [DestroyTexture(res.renderTarget)];
    }
  }

  /** on_paint up to the draw call: the renderer if there is none, then on growth the destroy
      calls and three new resources; ids come from id upwards. */
  method Prepare(res0: Resources, w: int, h: int, infoW: int, infoH: int, id: nat)
    returns (res: Resources, ops: seq<GfxOp>)
    ensures res == PaintResources(res0, w, h, infoW, infoH, id)
    ensures ops == PrepareOps(res0, w, h, infoW, infoH, id)
  {
    res := res0;
    ops := [];
    if res.renderer == Null {
      res := res.(renderer := Live(id));
      ops := ops + [CreateRenderer(res.renderer)];
    }
    assert res == res0.(renderer := EnsureRenderer(res0, id));
    ghost var created := ops;
    if w > infoW || h > infoH {
      var destroys := DestroyLive(res);
      ops := ops + destroys;
      res := res.(renderTarget := Live(id + 1));
      ops := ops + [CreateTexture(res.renderTarget, res.renderer, w, h)];
      res := res.(surface := Live(id + 2));
      ops := ops + [CreateSurface(res.surface, w, h)];
      res := res.(context := Live(id + 3));
      ops := ops + [CreateContext(res.context, res.surface)];
      assert ops == created + (DestroyOps(res0) + [CreateTexture(res.renderTarget, res.renderer, w, h),
        CreateSurface(res.surface, w, h), CreateContext(res.context, res.surface)]);
    }
  }

  predicate IsCreate(op: GfxOp) {
    op.CreateRenderer? || op.CreateTexture? || op.CreateSurface? || op.CreateContext?
  }

  predicate IsDestroy(op: GfxOp) {
    op.DestroyContext? || op.DestroySurface? || op.DestroyTexture?
  }

  function Destroyed(op: GfxOp): Res
    requires IsDestroy(op)
  {
    match op
    case DestroyContext(c) => c
    case DestroySurface(s) => s
    case DestroyTexture(t) => t
  }

  /** The resource a create call makes. */
  function Created(op: GfxOp): Res
    requires IsCreate(op)
  {
    match op
    case CreateRenderer(r) => r
    case CreateTexture(t, _, _, _) => t
    case CreateSurface(s, _, _) => s
    case CreateContext(c, _) => c
  }

  /** A resource pointer that is null or has an id below n. */
  predicate IdBelow(r: Res, n: nat) {
    r.Live? ==> r.id < n
  }

  /** Every resource a view_info holds is null or has an id below n. */
  predicate IdsBelow(res: Resources, n: nat) {
    IdBelow(res.renderer, n) && IdBelow(res.renderTarget, n) && IdBelow(res.surface, n) && IdBelow(res.context, n)
  }

  /** Every create call in ops makes a live resource with an id from lo to below hi. */
  predicate CreatesWithin(ops: seq<GfxOp>, lo: nat, hi: nat) {
    forall i :: 0 <= i < |ops| && IsCreate(ops[i]) ==> Created(ops[i]).Live? && lo <= Created(ops[i]).id < hi
  }

  /** A resource is one of the four a view_info holds. */
  predicate Holds(res: Resources, r: Res) {
    r == res.renderer || r == res.renderTarget || r == res.surface || r == res.context
  }

  lemma IdsBelowMonotone(res: Resources, m: nat, n: nat)
    requires IdsBelow(res, m) && m <= n
    ensures IdsBelow(res, n)
  {
  }

  lemma CreatesWithinAppend(a: seq<GfxOp>, b: seq<GfxOp>, lo: nat, hi: nat)
    requires CreatesWithin(a, lo, hi) && CreatesWithin(b, lo, hi)
    ensures CreatesWithin(a + b, lo, hi)
  {
    forall i | 0 <= i < |a + b| && IsCreate((a + b)[i])
      ensures Created((a + b)[i]).Live? && lo <= Created((a + b)[i]).id < hi
    {
      if i >= |a| {
        assert (a + b)[i] == b[i - |a|];
      } else {
        assert (a + b)[i] == a[i];
      }
    }
  }

  lemma CreatesWithinWiden(ops: seq<GfxOp>, lo: nat, hi: nat, hi2: nat)
    requires CreatesWithin(ops, lo, hi) && hi <= hi2
    ensures CreatesWithin(ops, lo, hi2)
  {
  }

  /** A paint with ids from id on creates resources with ids id to id + 3 only, and afterwards
      every held id is below id + 4: when every id held before was below id, no created resource
      is one held before. The calls after the draw create nothing. */
  lemma PaintIdsFresh(res: Resources, w: int, h: int, infoW: int, infoH: int, id: nat)
    requires IdsBelow(res, id)
    ensures IdsBelow(PaintResources(res, w, h, infoW, infoH, id), id + 4)
    ensures CreatesWithin(PrepareOps(res, w, h, infoW, infoH, id) + PresentOps(PaintResources(res, w, h, infoW, infoH, id)), id, id + 4)
  {
  }

  /** The renderer is created exactly when there is none and is kept otherwise. */
  lemma RendererCreatedOnce(res: Resources, w: int, h: int, infoW: int, infoH: int, id: nat)
    ensures (exists i :: 0 <= i < |PrepareOps(res, w, h, infoW, infoH, id)|
               && PrepareOps(res, w, h, infoW, infoH, id)[i].CreateRenderer?)
        <==> res.renderer == Null
    ensures res.renderer != Null ==> PaintResources(res, w, h, infoW, infoH, id).renderer == res.renderer
  {
    var ops := PrepareOps(res, w, h, infoW, infoH, id);
    if res.renderer == Null {
      assert ops[0].CreateRenderer?;
    }
  }

  /** Texture, surface and context are replaced exactly when the window grows; otherwise no
      resource besides a missing renderer is created and nothing is destroyed. */
  lemma ReallocatesIffGrows(res: Resources, w: int, h: int, infoW: int, infoH: int, id: nat)
    ensures var after := PaintResources(res, w, h, infoW, infoH, id);
      Grows(w, h, infoW, infoH) ==>
        after.renderTarget == Live(id + 1) && after.surface == Live(id + 2) && after.context == Live(id + 3)
    ensures !Grows(w, h, infoW, infoH) ==>
      PaintResources(res, w, h, infoW, infoH, id) == res.(renderer := EnsureRenderer(res, id))
    ensures !Grows(w, h, infoW, infoH) ==>
      forall i :: 0 <= i < |PrepareOps(res, w, h, infoW, infoH, id)| ==>
        PrepareOps(res, w, h, infoW, infoH, id)[i] == CreateRenderer(Live(id))
  {
  }

  /** Every destroy call names a live resource the window owned before the paint, and each of them
      once. */
  lemma DestroysOnlyOwned(res: Resources)
    ensures forall i :: 0 <= i < |DestroyOps(res)| ==>
      IsDestroy(DestroyOps(res)[i]) && Destroyed(DestroyOps(res)[i]) != Null
      && Destroyed(DestroyOps(res)[i]) in {res.context, res.surface, res.renderTarget}
    ensures |DestroyOps(res)| ==
      (if res.context != Null then 1 else 0) + (if res.surface != Null then 1 else 0)
      + (if res.renderTarget != Null then 1 else 0)
  {
  }

  /** The recorded size is never written, so it stays 0 and every paint of a non-empty window
      reallocates. */
  lemma ZeroWatermarkAlwaysGrows(w: int, h: int)
    ensures Grows(w, h, 0, 0) <==> w > 0 || h > 0
  {
  }

  // ---------------------------------------------------------------------------------------------
  // The row copy

  /** n copies of a added up: the product a * n written as a recursion, so that the row arithmetic
      below is proved step by step. MulIsProduct connects the two, and CopiedAtSourceOffsets
      restates the copy with the products on_paint computes. */
  function Mul(a: int, n: int): int
    decreases if n <= 0 then 0 else n
  {
    if n <= 0 then 0 else Mul(a, n - 1) + a
  }

  lemma {:induction false} MulIsProduct(a: int, n: int)
    requires n >= 0
    ensures Mul(a, n) == a * n
    decreases n
  {
    if n > 0 {
      MulIsProduct(a, n - 1);
      assert a * n == a * (n - 1) + a;
    }
  }

  lemma {:induction false} MulMonotone(a: int, m: int, n: int)
    requires a >= 0 && 0 <= m <= n
    ensures Mul(a, m) <= Mul(a, n)
    decreases n - m
  {
    if m < n {
      MulMonotone(a, m, n - 1);
    }
  }

  lemma MulNonNegative(a: int, n: int)
    requires a >= 0
    ensures Mul(a, n) >= 0
  {
    if n > 0 {
      MulMonotone(a, 0, n);
    }
  }

  /** The byte offset of byte k of row i in a buffer with the given row stride. */
  function Offset(pitch: int, i: int, k: int): int {
    Mul(pitch, i) + k
  }

  /** Rows of rw bytes, h of them: at stride pitch they fit in the texture memory, packed they fit
      in the surface memory. */
  predicate RowsFit(dstLength: int, pitch: int, srcLength: int, rw: int, h: int) {
    rw >= 0 && pitch >= rw && (h <= 0 || (Offset(pitch, h - 1, rw) <= dstLength && Mul(rw, h) <= srcLength))
  }

  /** d with the len bytes from offset off on replaced by the len bytes of src from offset from. */
  function Put(d: seq<Byte>, off: int, src: seq<Byte>, from: int, len: int): (r: seq<Byte>)
    requires 0 <= off && 0 <= len && off + len <= |d| && 0 <= from && from + len <= |src|
    ensures |r| == |d|
  {
    seq(|d|, j requires 0 <= j < |d| => if off <= j < off + len then src[from + j - off] else d[j])
  }

  /** Rows do not overlap: a later row starts after an earlier one ends, in the texture memory at
      a stride of at least the row's length, and in the packed surface memory. */
  lemma RowsApart(pitch: int, rw: int, i: int, i2: int)
    requires rw >= 0 && pitch >= rw && 0 <= i < i2
    ensures Offset(pitch, i, rw) <= Offset(pitch, i2, 0)
    ensures Mul(rw, i) + rw <= Mul(rw, i2)
  {
    MulMonotone(pitch, i + 1, i2);
    MulMonotone(rw, i + 1, i2);
  }

  lemma RowsFitPrefix(dstLength: int, pitch: int, srcLength: int, rw: int, h: int)
    requires h > 0 && RowsFit(dstLength, pitch, srcLength, rw, h)
    ensures RowsFit(dstLength, pitch, srcLength, rw, h - 1)
    ensures 0 <= Offset(pitch, h - 1, 0) && Offset(pitch, h - 1, 0) + rw <= dstLength
    ensures 0 <= Mul(rw, h - 1) && Mul(rw, h - 1) + rw == Mul(rw, h) <= srcLength
  {
    MulNonNegative(pitch, h - 1);
    MulNonNegative(rw, h - 1);
    if h > 1 {
      RowsApart(pitch, rw, h - 2, h - 1);
    }
  }

  lemma RowsFitBelow(dstLength: int, pitch: int, srcLength: int, rw: int, i: int, h: int)
    requires RowsFit(dstLength, pitch, srcLength, rw, h) && 0 <= i <= h
    ensures RowsFit(dstLength, pitch, srcLength, rw, i)
  {
    if 0 < i < h {
      RowsApart(pitch, rw, i - 1, h - 1);
      MulMonotone(rw, i, h);
    }
  }

  /** The texture memory after the first h rows have been copied, row i taking the rw bytes at
      source offset rw * i. */
  function Copied(d: seq<Byte>, src: seq<Byte>, rw: int, h: int, pitch: int): (r: seq<Byte>)
    requires RowsFit(|d|, pitch, |src|, rw, h)
    ensures |r| == |d|
    decreases if h <= 0 then 0 else h
  {
    if h <= 0 then d
    else
      RowsFitPrefix(|d|, pitch, |src|, rw, h);
      Put(Copied(d, src, rw, h - 1, pitch), Offset(pitch, h - 1, 0), src, Mul(rw, h - 1), rw)
  }

  /** The byte at offset j lies in one of the first h destination rows. */
  predicate InRows(pitch: int, rw: int, h: int, j: int) {
    exists i :: 0 <= i < h && Offset(pitch, i, 0) <= j < Offset(pitch, i, rw)
  }

  /** Each copied row holds its source bytes ... */
  lemma {:induction false} CopiedRowBytes(d: seq<Byte>, src: seq<Byte>, rw: int, h: int, pitch: int, i: int, k: int)
    requires RowsFit(|d|, pitch, |src|, rw, h)
    requires 0 <= i < h && 0 <= k < rw
    ensures 0 <= Offset(pitch, i, k) < |d| && 0 <= Mul(rw, i) + k < |src|
    ensures Copied(d, src, rw, h, pitch)[Offset(pitch, i, k)] == src[Mul(rw, i) + k]
    decreases h
  {
    RowsFitPrefix(|d|, pitch, |src|, rw, h);
    var prev := Copied(d, src, rw, h - 1, pitch);
    var off := Offset(pitch, h - 1, 0);
    assert Copied(d, src, rw, h, pitch) == Put(prev, off, src, Mul(rw, h - 1), rw);
    if i < h - 1 {
      RowsApart(pitch, rw, i, h - 1);
      MulNonNegative(pitch, i);
      MulNonNegative(rw, i);
      CopiedRowBytes(d, src, rw, h - 1, pitch, i, k);
    }
  }

  /** The copy with the offsets as on_paint writes them: byte k of row i sits at pitch * i + k in
      the texture memory and comes from 4 * w * i + k in the surface. */
  lemma CopiedAtSourceOffsets(d: seq<Byte>, src: seq<Byte>, w: int, h: int, pitch: int, i: int, k: int)
    requires w >= 0 && RowsFit(|d|, pitch, |src|, 4 * w, h)
    requires 0 <= i < h && 0 <= k < 4 * w
    ensures 0 <= pitch * i + k < |d| && 0 <= 4 * w * i + k < |src|
    ensures Copied(d, src, 4 * w, h, pitch)[pitch * i + k] == src[4 * w * i + k]
  {
    CopiedRowBytes(d, src, 4 * w, h, pitch, i, k);
    MulIsProduct(pitch, i);
    MulIsProduct(4 * w, i);
  }

  /** ... and every byte outside the copied rows keeps its old value. */
  lemma {:induction false} CopiedElsewhereUnchanged(d: seq<Byte>, src: seq<Byte>, rw: int, h: int, pitch: int, j: int)
    requires RowsFit(|d|, pitch, |src|, rw, h)
    requires 0 <= j < |d| && !InRows(pitch, rw, h, j)
    ensures Copied(d, src, rw, h, pitch)[j] == d[j]
    decreases if h <= 0 then 0 else h
  {
    if h > 0 {
      RowsFitPrefix(|d|, pitch, |src|, rw, h);
      forall i | 0 <= i < h - 1
        ensures !(Offset(pitch, i, 0) <= j < Offset(pitch, i, rw))
      {
        assert i < h;
      }
      assert !(Offset(pitch, h - 1, 0) <= j < Offset(pitch, h - 1, rw));
      CopiedElsewhereUnchanged(d, src, rw, h - 1, pitch, j);
    }
  }

  /** Copying the same rows again into the same memory changes nothing. */
  lemma CopiedTwice(d: seq<Byte>, src: seq<Byte>, rw: int, h: int, pitch: int)
    requires RowsFit(|d|, pitch, |src|, rw, h)
    ensures Copied(Copied(d, src, rw, h, pitch), src, rw, h, pitch) == Copied(d, src, rw, h, pitch)
  {
    var c := Copied(d, src, rw, h, pitch);
    forall j | 0 <= j < |d|
      ensures Copied(c, src, rw, h, pitch)[j] == c[j]
    {
      if InRows(pitch, rw, h, j) {
        var i :| 0 <= i < h && Offset(pitch, i, 0) <= j < Offset(pitch, i, rw);
        var k := j - Offset(pitch, i, 0);
        assert j == Offset(pitch, i, k);
        CopiedRowBytes(c, src, rw, h, pitch, i, k);
        CopiedRowBytes(d, src, rw, h, pitch, i, k);
      } else {
        CopiedElsewhereUnchanged(c, src, rw, h, pitch, j);
      }
    }
  }

  /** One memcpy of the copy loop: len bytes from source offset from to destination offset off. */
  method CopyRow(dst: array<Byte>, off: int, src: seq<Byte>, from: int, len: int)
    requires 0 <= off && 0 <= len && off + len <= dst.Length
    requires 0 <= from && from + len <= |src|
    modifies dst
    ensures dst[..] == Put(old(dst[..]), off, src, from, len)
  {
    forall k | 0 <= k < len {
      dst[off + k] := src[from + k];
    }
  }

  /** The copy loop of on_paint: for each row i below h, the 4w bytes at source offset 4wi go to
      destination offset pitch * i. The offsets advance by one row per iteration; that these sums
      are the source's products is CopiedAtSourceOffsets. */
  method CopyRows(dst: array<Byte>, pitch: int, src: seq<Byte>, w: int, h: int)
    requires w >= 0 && RowsFit(dst.Length, pitch, |src|, 4 * w, h)
    modifies dst
    ensures dst[..] == Copied(old(dst[..]), src, 4 * w, h, pitch)
  {
    ghost var d := dst[..];
    var rw := 4 * w;
    var i, off, from := 0, 0, 0;
    while i < h
      invariant 0 <= i <= if h < 0 then 0 else h
      invariant off == Offset(pitch, i, 0) && from == Mul(rw, i)
      invariant RowsFit(dst.Length, pitch, |src|, rw, i)
      invariant dst[..] == Copied(d, src, rw, i, pitch)
    {
      RowsFitBelow(dst.Length, pitch, |src|, rw, i + 1, h);
      RowsFitPrefix(dst.Length, pitch, |src|, rw, i + 1);
      assert Copied(d, src, rw, i + 1, pitch) == Put(Copied(d, src, rw, i, pitch), off, src, from, rw);
      CopyRow(dst, off, src, from, rw);
      off, from := off + pitch, from + rw;
      i := i + 1;
    }
  }
}
