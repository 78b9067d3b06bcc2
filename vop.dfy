/** The VOP itself (struct vop) and its windows (struct vop_win): the commit of a window's
    pending configuration to the registers, the plane update and disable entry points, the
    confirmation that runs from the frame-start interrupt, and the enable, disable and
    initialisation of the controller.  Each method changes the objects in place and is proved
    equal to the functions of modules Plane, Geometry and Scaling. */
module Vop {
  import opened Wrappers
  import opened Regs
  import opened Formats
  import opened Layout
  import opened Scaling
  import Geometry
  import opened Plane
  import opened Crtc
  import Power

  /** The register values of the alpha-blending macros of rockchip_drm_vop.h (not part of this
      model): DST_FACTOR_M0(ALPHA_SRC_INVERSE), the per-pixel blending word and
      SRC_ALPHA_EN(0). */
  datatype Alpha = Alpha(dstFactor: bv32, srcPerPixel: bv32, srcOff: bv32)

  /** What a window reads of a struct drm_framebuffer: its identity, its pixel format, the
      two plane pitches and the two plane offsets (32-bit values). */
  datatype Fbuf = Fbuf(id: Fb, format: bv32, pitch0: nat, pitch1: nat, offset0: nat, offset1: nat)

  /** A value as a 32-bit register word. */
  function Word(x: int): bv32 {
    Geometry.U32(x) as bv32
  }

  /** Every window field lies in the bank. */
  predicate WinInBank(o: Offsets, d: WinData, n: nat) {
    forall f :: (d.base + WinReg(d.phy, o, f).offset) / 4 < n
  }

  /** One VOP_WIN_SET: a field of the window and the value for it. */
  datatype WinWrite = WinWrite(field: WinField, value: bv32)

  /** A plan lowered to register writes: each VOP_WIN_SET is a REG_SET at the window's base. */
  function LowerWin(d: WinData, o: Offsets, p: seq<WinWrite>): (ws: seq<Write>)
    ensures |ws| == |p|
    ensures forall k :: 0 <= k < |p| ==> ws[k] == RegSet(d.base, WinReg(d.phy, o, p[k].field), p[k].value)
    ensures forall n :: WinInBank(o, d, n) ==> AllInBank(n, ws)
    decreases |p|
  {
    if p == [] then []
    else
      var last := p[|p| - 1];
      LowerWin(d, o, p[..|p| - 1]) + [RegSet(d.base, WinReg(d.phy, o, last.field), last.value)]
  }

  /** The first writes of vop_win_update_commit: format code, luma stride in words and luma
      start address. */
  function LumaPlan(fb: Fbuf, yrgbMst: nat): seq<WinWrite> {
    [WinWrite(Format, Word(ConvertFormat(fb.format))),
     WinWrite(YrgbVir, Word(fb.pitch0 / 4)),
     WinWrite(YrgbMst, Word(yrgbMst))]
  }

  /** For YUV formats, the chroma stride in words and chroma start address. */
  function ChromaPlan(fb: Fbuf, uvMst: nat): seq<WinWrite> {
    if IsYuvSupport(fb.format)
    then [WinWrite(UvVir, Word(fb.pitch1 / 4)), WinWrite(UvMst, Word(uvMst))]
    else []
  }

  /** The scaler writes of a window that has a scaler, for the source and destination size. */
  function SclWrites(d: WinData, o: Offsets, h: Helpers, fb: Fbuf, src: Geometry.Rect,
                     dest: Geometry.Rect): seq<Write> {
    if HasScl(d.phy) then
      LowerScl(d.base, o, Plan(h, fb.format, HSub(fb.format), VSub(fb.format),
                               Geometry.ActualW(src), Geometry.ActualH(src),
                               Geometry.U32(dest.x2 - dest.x1), Geometry.U32(dest.y2 - dest.y1)))
    else []
  }

  lemma SclWritesUnfold(d: WinData, o: Offsets, h: Helpers, fb: Fbuf, src: Geometry.Rect,
                        dest: Geometry.Rect)
    ensures HasScl(d.phy) ==>
              SclWrites(d, o, h, fb, src, dest)
              == LowerScl(d.base, o, Plan(h, fb.format, HSub(fb.format), VSub(fb.format),
                                          Geometry.ActualW(src), Geometry.ActualH(src),
                                          Geometry.U32(dest.x2 - dest.x1),
                                          Geometry.U32(dest.y2 - dest.y1)))
    ensures !HasScl(d.phy) ==> SclWrites(d, o, h, fb, src, dest) == []
  {
  }

  /** After the scaler: the packed source size, destination size and position, and the
      red/blue swap. */
  function PlacementPlan(fb: Fbuf, src: Geometry.Rect, dest: Geometry.Rect,
                         m: Geometry.DisplayMode): seq<WinWrite> {
    [WinWrite(WinField.ActInfo, Word(Geometry.ActInfo(src))),
     WinWrite(WinField.DspInfo, Word(Geometry.DspInfo(dest))),
     WinWrite(WinField.DspSt, Word(Geometry.DspSt(dest, m))),
     WinWrite(RbSwap, if HasRbSwapped(fb.format) then 1 else 0)]
  }

  /** Last the alpha control (per-pixel blending for formats with alpha, none otherwise) and
      the enable bit. */
  function BlendPlan(a: Alpha, fb: Fbuf): seq<WinWrite> {
    (if IsAlphaSupport(fb.format)
     then [WinWrite(DstAlphaCtl, a.dstFactor), WinWrite(SrcAlphaCtl, a.srcPerPixel)]
     else [WinWrite(SrcAlphaCtl, a.srcOff)])
    + [WinWrite(Enable, 1)]
  }

  /** The first part of vop_win_update_commit: the buffer and the scaler. */
  function FrontWrites(d: WinData, o: Offsets, h: Helpers, fb: Fbuf, yrgbMst: nat, uvMst: nat,
                       src: Geometry.Rect, dest: Geometry.Rect): seq<Write> {
    LowerWin(d, o, LumaPlan(fb, yrgbMst)) + LowerWin(d, o, ChromaPlan(fb, uvMst))
    + SclWrites(d, o, h, fb, src, dest)
  }

  /** The second part: placement on screen, blending and the enable bit. */
  function BackWrites(d: WinData, o: Offsets, a: Alpha, fb: Fbuf, src: Geometry.Rect,
                      dest: Geometry.Rect, m: Geometry.DisplayMode): seq<Write> {
    LowerWin(d, o, PlacementPlan(fb, src, dest, m)) + LowerWin(d, o, BlendPlan(a, fb))
  }

  /** Everything vop_win_update_commit writes, in order. */
  function CommitWrites(d: WinData, o: Offsets, h: Helpers, a: Alpha, fb: Fbuf, yrgbMst: nat,
                        uvMst: nat, src: Geometry.Rect, dest: Geometry.Rect,
                        m: Geometry.DisplayMode): seq<Write> {
    FrontWrites(d, o, h, fb, yrgbMst, uvMst, src, dest) + BackWrites(d, o, a, fb, src, dest, m)
  }

  /** One VOP_WIN_SET: write i of the lowered plan ws, after writes 0..i have been done. */
  method WinSet(bank: RegBank, d: WinData, o: Offsets, f: WinField, v: bv32,
                ghost p: seq<WinWrite>, ghost ws: seq<Write>, ghost s0: Bank, ghost i: nat)
    requires bank.Valid() && WinInBank(o, d, bank.regsbak.Length)
    requires ws == LowerWin(d, o, p) && i < |p| && p[i] == WinWrite(f, v)
    requires WellSized(s0) && |s0.shadow| == bank.regsbak.Length
    requires bank.State() == ApplyRange(s0, ws, 0, i)
    modifies bank.regsbak, bank.regs
    ensures bank.Valid()
    ensures bank.State() == ApplyRange(s0, ws, 0, i + 1)
  {
    bank.SetReg(d.base, WinReg(d.phy, o, f), v);
  }

  method WriteLuma(bank: RegBank, d: WinData, o: Offsets, fb: Fbuf, yrgbMst: nat)
    requires bank.Valid() && WinInBank(o, d, bank.regsbak.Length)
    modifies bank.regsbak, bank.regs
    ensures bank.Valid()
    ensures bank.State() == ApplyAll(old(bank.State()), LowerWin(d, o, LumaPlan(fb, yrgbMst)))
  {
    ghost var p := LumaPlan(fb, yrgbMst);
    ghost var ws := LowerWin(d, o, p);
    ghost var s0 := bank.State();
    WinSet(bank, d, o, Format, Word(ConvertFormat(fb.format)), p, ws, s0, 0);
    WinSet(bank, d, o, YrgbVir, Word(fb.pitch0 / 4), p, ws, s0, 1);
    WinSet(bank, d, o, YrgbMst, Word(yrgbMst), p, ws, s0, 2);
    ApplyRangeAll(s0, ws);
  }

  method WriteChroma(bank: RegBank, d: WinData, o: Offsets, fb: Fbuf, uvMst: nat)
    requires bank.Valid() && WinInBank(o, d, bank.regsbak.Length)
    modifies bank.regsbak, bank.regs
    ensures bank.Valid()
    ensures bank.State() == ApplyAll(old(bank.State()), LowerWin(d, o, ChromaPlan(fb, uvMst)))
  {
    ghost var p := ChromaPlan(fb, uvMst);
    ghost var ws := LowerWin(d, o, p);
    ghost var s0 := bank.State();
    if IsYuvSupport(fb.format) {
      WinSet(bank, d, o, UvVir, Word(fb.pitch1 / 4), p, ws, s0, 0);
      WinSet(bank, d, o, UvMst, Word(uvMst), p, ws, s0, 1);
    }
    ApplyRangeAll(s0, ws);
  }

  method WritePlacement(bank: RegBank, d: WinData, o: Offsets, fb: Fbuf, src: Geometry.Rect,
                        dest: Geometry.Rect, m: Geometry.DisplayMode)
    requires bank.Valid() && WinInBank(o, d, bank.regsbak.Length)
    modifies bank.regsbak, bank.regs
    ensures bank.Valid()
    ensures bank.State() == ApplyAll(old(bank.State()), LowerWin(d, o, PlacementPlan(fb, src, dest, m)))
  {
    ghost var p := PlacementPlan(fb, src, dest, m);
    ghost var ws := LowerWin(d, o, p);
    ghost var s0 := bank.State();
    var actInfo := Geometry.ActInfo(src);
    var dspInfo := Geometry.DspInfo(dest);
    var dspSt := Geometry.DspSt(dest, m);
    WinSet(bank, d, o, WinField.ActInfo, Word(actInfo), p, ws, s0, 0);
    WinSet(bank, d, o, WinField.DspInfo, Word(dspInfo), p, ws, s0, 1);
    WinSet(bank, d, o, WinField.DspSt, Word(dspSt), p, ws, s0, 2);
    WinSet(bank, d, o, RbSwap, if HasRbSwapped(fb.format) then 1 else 0, p, ws, s0, 3);
    ApplyRangeAll(s0, ws);
  }

  method WriteBlend(bank: RegBank, d: WinData, o: Offsets, a: Alpha, fb: Fbuf)
    requires bank.Valid() && WinInBank(o, d, bank.regsbak.Length)
    modifies bank.regsbak, bank.regs
    ensures bank.Valid()
    ensures bank.State() == ApplyAll(old(bank.State()), LowerWin(d, o, BlendPlan(a, fb)))
  {
    ghost var p := BlendPlan(a, fb);
    ghost var ws := LowerWin(d, o, p);
    ghost var s0 := bank.State();
    if IsAlphaSupport(fb.format) {
      WinSet(bank, d, o, DstAlphaCtl, a.dstFactor, p, ws, s0, 0);
      WinSet(bank, d, o, SrcAlphaCtl, a.srcPerPixel, p, ws, s0, 1);
      WinSet(bank, d, o, Enable, 1, p, ws, s0, 2);
    } else {
      WinSet(bank, d, o, SrcAlphaCtl, a.srcOff, p, ws, s0, 0);
      WinSet(bank, d, o, Enable, 1, p, ws, s0, 1);
    }
    ApplyRangeAll(s0, ws);
  }

  /** Applying three write sequences one after another is applying their concatenation. */
  lemma ApplyAll3(b: Bank, s1: seq<Write>, s2: seq<Write>, s3: seq<Write>)
    requires WellSized(b)
    requires AllInBank(|b.shadow|, s1) && AllInBank(|b.shadow|, s2) && AllInBank(|b.shadow|, s3)
    ensures AllInBank(|b.shadow|, s1 + s2 + s3)
    ensures ApplyAll(b, s1 + s2 + s3) == ApplyAll(ApplyAll(ApplyAll(b, s1), s2), s3)
  {
    ApplyAllAppend(b, s1, s2);
    ApplyAllAppend(b, s1 + s2, s3);
  }

  /** The buffer and scaler writes of vop_win_update_commit. */
  method WriteFront(bank: RegBank, d: WinData, o: Offsets, h: Helpers, fb: Fbuf, yrgbMst: nat,
                    uvMst: nat, src: Geometry.Rect, dest: Geometry.Rect)
    requires bank.Valid() && WinInBank(o, d, bank.regsbak.Length)
    requires SclInBank(o, d.base, bank.regsbak.Length)
    modifies bank.regsbak, bank.regs
    ensures bank.Valid()
    ensures AllInBank(bank.regsbak.Length, FrontWrites(d, o, h, fb, yrgbMst, uvMst, src, dest))
    ensures bank.State()
         == ApplyAll(old(bank.State()), FrontWrites(d, o, h, fb, yrgbMst, uvMst, src, dest))
  {
    ghost var b0 := bank.State();
    ghost var sw := SclWrites(d, o, h, fb, src, dest);
    SclWritesUnfold(d, o, h, fb, src, dest);
    WriteLuma(bank, d, o, fb, yrgbMst);
    WriteChroma(bank, d, o, fb, uvMst);
    ghost var b2 := bank.State();
    if HasScl(d.phy) {
      CalSclFac(bank, o, d.base, h, fb.format, HSub(fb.format), VSub(fb.format),
                Geometry.ActualW(src), Geometry.ActualH(src),
                Geometry.U32(dest.x2 - dest.x1), Geometry.U32(dest.y2 - dest.y1));
    } else {
      assert ApplyAll(b2, []) == b2;
    }
    ghost var lw := LowerWin(d, o, LumaPlan(fb, yrgbMst));
    ghost var cw := LowerWin(d, o, ChromaPlan(fb, uvMst));
    ApplyAll3(b0, lw, cw, sw);
    assert FrontWrites(d, o, h, fb, yrgbMst, uvMst, src, dest) == lw + cw + sw;
  }

  /** The placement, blending and enable writes of vop_win_update_commit. */
  method WriteBack(bank: RegBank, d: WinData, o: Offsets, a: Alpha, fb: Fbuf,
                   src: Geometry.Rect, dest: Geometry.Rect, m: Geometry.DisplayMode)
    requires bank.Valid() && WinInBank(o, d, bank.regsbak.Length)
    modifies bank.regsbak, bank.regs
    ensures bank.Valid()
    ensures AllInBank(bank.regsbak.Length, BackWrites(d, o, a, fb, src, dest, m))
    ensures bank.State() == ApplyAll(old(bank.State()), BackWrites(d, o, a, fb, src, dest, m))
  {
    ghost var b0 := bank.State();
    WritePlacement(bank, d, o, fb, src, dest, m);
    WriteBlend(bank, d, o, a, fb);
    ApplyAllAppend(b0, LowerWin(d, o, PlacementPlan(fb, src, dest, m)),
                   LowerWin(d, o, BlendPlan(a, fb)));
  }

  /** The register writes of vop_win_update_commit, from the format to the enable bit. */
  method WriteWindow(bank: RegBank, d: WinData, o: Offsets, h: Helpers, a: Alpha, fb: Fbuf,
                     yrgbMst: nat, uvMst: nat, src: Geometry.Rect, dest: Geometry.Rect,
                     m: Geometry.DisplayMode)
    requires bank.Valid() && WinInBank(o, d, bank.regsbak.Length)
    requires SclInBank(o, d.base, bank.regsbak.Length)
    modifies bank.regsbak, bank.regs
    ensures bank.Valid()
    ensures AllInBank(bank.regsbak.Length, CommitWrites(d, o, h, a, fb, yrgbMst, uvMst, src, dest, m))
    ensures bank.State()
         == ApplyAll(old(bank.State()), CommitWrites(d, o, h, a, fb, yrgbMst, uvMst, src, dest, m))
  {
    ghost var b0 := bank.State();
    WriteFront(bank, d, o, h, fb, yrgbMst, uvMst, src, dest);
    WriteBack(bank, d, o, a, fb, src, dest, m);
    ApplyAllAppend(b0, FrontWrites(d, o, h, fb, yrgbMst, uvMst, src, dest),
                   BackWrites(d, o, a, fb, src, dest, m));
  }

  lemma AllInBankAppend(n: nat, ws: seq<Write>, vs: seq<Write>)
    requires AllInBank(n, ws) && AllInBank(n, vs)
    ensures AllInBank(n, ws + vs)
  {
    forall k | 0 <= k < |ws + vs|
      ensures WordOf((ws + vs)[k]) < n
    {
      if k >= |ws| {
        assert (ws + vs)[k] == vs[k - |ws|];
      }
    }
  }

  /** Every register vop_win_update_commit writes lies in a bank that holds the window. */
  lemma CommitInBank(d: WinData, o: Offsets, h: Helpers, a: Alpha, fb: Fbuf, yrgbMst: nat,
                     uvMst: nat, src: Geometry.Rect, dest: Geometry.Rect,
                     m: Geometry.DisplayMode, n: nat)
    requires WinInBank(o, d, n) && SclInBank(o, d.base, n)
    ensures AllInBank(n, CommitWrites(d, o, h, a, fb, yrgbMst, uvMst, src, dest, m))
  {
    var lw := LowerWin(d, o, LumaPlan(fb, yrgbMst));
    var cw := LowerWin(d, o, ChromaPlan(fb, uvMst));
    var sw := SclWrites(d, o, h, fb, src, dest);
    var pw := LowerWin(d, o, PlacementPlan(fb, src, dest, m));
    var bw := LowerWin(d, o, BlendPlan(a, fb));
    SclWritesUnfold(d, o, h, fb, src, dest);
    AllInBankAppend(n, lw, cw);
    AllInBankAppend(n, lw + cw, sw);
    AllInBankAppend(n, pw, bw);
    AllInBankAppend(n, lw + cw + sw, pw + bw);
  }

  /** What the rest of the system answers to one plane update: the return of
      drm_plane_helper_check_update with the visibility and the clipped source (16.16 fixed
      point) and destination rectangles it computes, the DMA addresses of the framebuffer's
      GEM objects for planes 0 and 1 (None when rockchip_fb_get_gem_obj finds none), whether
      the buffer has a reservation object to synchronise with, and the returns of
      drm_vblank_get and vop_win_update_sync. */
  datatype Env = Env(checkRet: int, visible: bool, src: Geometry.Rect, dest: Geometry.Rect,
                     obj0: Option<nat>, obj1: Option<nat>, hasResv: bool, vblankGet: int,
                     syncRet: int)

  /** The returns of vop_update_plane_event before it touches the window: a failed check,
      an invisible plane (0), an unsupported format, a missing luma or (for YUV) chroma
      buffer object.  The format test is read as signed, as the driver intends; compiled,
      it never fires (see EarlyReturnAsWritten). */
  function EarlyReturn(fb: Fbuf, env: Env): Option<int> {
    if env.checkRet != 0 then Some(env.checkRet)
    else if !env.visible then Some(0)
    else if ConvertFormat(fb.format) < 0 then Some(ConvertFormat(fb.format))
    else if env.obj0.None? then Some(-EINVAL)
    else if IsYuvSupport(fb.format) && env.obj1.None? then Some(-EINVAL)
    else None
  }

  /** An update reaches the window exactly when the check passes, the plane is visible, the
      format is one of formats_01 and every buffer object it needs exists; the early
      failures other than the check's own are -EINVAL. */
  lemma EarlyReturnCases(fb: Fbuf, env: Env)
    ensures EarlyReturn(fb, env).None?
        <==> && env.checkRet == 0 && env.visible && fb.format in Formats01 && env.obj0.Some?
             && (IsYuvSupport(fb.format) ==> env.obj1.Some?)
    ensures env.checkRet == 0 && env.visible && EarlyReturn(fb, env).Some?
        ==> EarlyReturn(fb, env) == Some(-EINVAL)
    ensures env.checkRet == 0 && !env.visible ==> EarlyReturn(fb, env) == Some(0)
  {
  }

  /** The early returns as the compiled driver takes them: the test `format < 0` reads a
      value of the unsigned enum vop_data_format, so it never holds (see
      Formats.ConvertFormatAsWritten) and an unsupported format is not refused here. */
  function EarlyReturnAsWritten(fb: Fbuf, env: Env): Option<int> {
    if env.checkRet != 0 then Some(env.checkRet)
    else if !env.visible then Some(0)
    else if env.obj0.None? then Some(-EINVAL)
    else if IsYuvSupport(fb.format) && env.obj1.None? then Some(-EINVAL)
    else None
  }

  /** As written, every format gets past the early returns; the two readings differ exactly
      on a format outside formats_01, which only the signed test refuses. */
  lemma EarlyReturnAsWrittenCases(fb: Fbuf, env: Env)
    ensures EarlyReturnAsWritten(fb, env).None?
        <==> && env.checkRet == 0 && env.visible && env.obj0.Some?
             && (IsYuvSupport(fb.format) ==> env.obj1.Some?)
    ensures fb.format in Formats01 ==> EarlyReturnAsWritten(fb, env) == EarlyReturn(fb, env)
    ensures EarlyReturnAsWritten(fb, env) != EarlyReturn(fb, env)
        <==> fb.format !in Formats01 && EarlyReturnAsWritten(fb, env).None?
  {
  }

  /** As written, an unsupported format that passes the early returns is committed: the
      first write of vop_win_update_commit puts 2^32 - 22, shifted, under the 3-bit format
      mask of WIN0_CTRL0 for windows 0 and 1.  REG_SET does not mask the value, so whatever
      the register held, the word afterwards has the format field at 2 (RGB565), the two high
      bits of lb_mode and rb_swap set, and every bit outside the four fields set; only the
      enable bit and the low bit of lb_mode keep their values. */
  lemma UnsupportedFormatReachesCommit(d: WinData, o: Offsets, h: Helpers, a: Alpha, fb: Fbuf,
                                       env: Env, yrgbMst: nat, uvMst: nat, src: Geometry.Rect,
                                       m: Geometry.DisplayMode, old_: bv32)
    requires fb.format !in Formats01 && d.phy == Win01
    requires EarlyReturnAsWritten(fb, env).None?
    ensures EarlyReturn(fb, env) == Some(-EINVAL)
    ensures Word(ConvertFormat(fb.format)) == ConvertFormatAsWritten(fb.format)
    ensures CommitWrites(d, o, h, a, fb, yrgbMst, uvMst, src, env.dest, m)[0]
            == Write(d.base + o.win0Ctrl0, 0xE, 0xFFFF_FFD4)
    ensures var w := MaskedWord(old_, 0xE, 0xFFFF_FFD4);
      && FieldOf(w, WinReg(Win01, o, Format)) as int == FmtRgb565
      && FieldOf(w, SclReg(o, LbMode)) >= 6
      && FieldOf(w, WinReg(Win01, o, RbSwap)) == 1
      && w & 0xFFFF_EF10 == 0xFFFF_EF10
      && FieldOf(w, WinReg(Win01, o, Enable)) == FieldOf(old_, WinReg(Win01, o, Enable))
  {
    EarlyReturnAsWrittenCases(fb, env);
    FormatWordAsWritten(fb.format);
    CommitStartsWithFormat(d, o, h, a, fb, yrgbMst, uvMst, src, env.dest, m);
    FormatWriteAsWritten(d.base, o);
    ClobberedFields(o, old_);
  }

  lemma FormatWriteAsWritten(base: nat, o: Offsets)
    ensures RegSet(base, WinReg(Win01, o, Format), 0xFFFF_FFEA)
            == Write(base + o.win0Ctrl0, 0xE, 0xFFFF_FFD4)
  {
  }

  lemma ClobberedFields(o: Offsets, old_: bv32)
    ensures var w := MaskedWord(old_, 0xE, 0xFFFF_FFD4);
      && FieldOf(w, WinReg(Win01, o, Format)) as int == FmtRgb565
      && FieldOf(w, SclReg(o, LbMode)) >= 6
      && FieldOf(w, WinReg(Win01, o, RbSwap)) == 1
      && w & 0xFFFF_EF10 == 0xFFFF_EF10
      && FieldOf(w, WinReg(Win01, o, Enable)) == FieldOf(old_, WinReg(Win01, o, Enable))
  {
    ClobberedCtrl0(old_);
  }

  /** The first write of the commit is the format field's. */
  lemma CommitStartsWithFormat(d: WinData, o: Offsets, h: Helpers, a: Alpha, fb: Fbuf,
                               yrgbMst: nat, uvMst: nat, src: Geometry.Rect,
                               dest: Geometry.Rect, m: Geometry.DisplayMode)
    ensures |CommitWrites(d, o, h, a, fb, yrgbMst, uvMst, src, dest, m)| > 0
    ensures CommitWrites(d, o, h, a, fb, yrgbMst, uvMst, src, dest, m)[0]
            == RegSet(d.base, WinReg(d.phy, o, Format), Word(ConvertFormat(fb.format)))
  {
    var luma := LowerWin(d, o, LumaPlan(fb, yrgbMst));
    LumaStartsWithFormat(d, o, fb, yrgbMst);
    var front := FrontWrites(d, o, h, fb, yrgbMst, uvMst, src, dest);
    HeadOfAppend(luma + LowerWin(d, o, ChromaPlan(fb, uvMst)), SclWrites(d, o, h, fb, src, dest));
    HeadOfAppend(luma, LowerWin(d, o, ChromaPlan(fb, uvMst)));
    HeadOfAppend(front, BackWrites(d, o, a, fb, src, dest, m));
  }

  lemma LumaStartsWithFormat(d: WinData, o: Offsets, fb: Fbuf, yrgbMst: nat)
    ensures |LowerWin(d, o, LumaPlan(fb, yrgbMst))| == 3
    ensures LowerWin(d, o, LumaPlan(fb, yrgbMst))[0]
            == RegSet(d.base, WinReg(d.phy, o, Format), Word(ConvertFormat(fb.format)))
  {
  }

  lemma HeadOfAppend<T>(xs: seq<T>, ys: seq<T>)
    requires |xs| > 0
    ensures |xs + ys| > 0 && (xs + ys)[0] == xs[0]
  {
  }

  /** The format word the commit writes is the compiled vop_convert_format's value. */
  lemma FormatWordAsWritten(f: bv32)
    ensures Word(ConvertFormat(f)) == ConvertFormatAsWritten(f)
  {
    var c := ConvertFormat(f);
    var e := ConvertFormatAsWritten(f);
    if f !in Formats01 {
      assert Geometry.U32(c) == 0xFFFF_FFEA;
    } else {
      assert Geometry.U32(c) == e as int;
    }
  }

  lemma ClobberedCtrl0(old_: bv32)
    ensures var w := MaskedWord(old_, 0xE, 0xFFFF_FFD4);
      && (w >> 1) & 0x7 == 2 && (w >> 5) & 0x7 >= 6 && (w >> 12) & 0x1 == 1
      && w & 0xFFFF_EF10 == 0xFFFF_EF10 && w & 0x1 == old_ & 0x1
  {
  }

  /** The source rectangle the window shows: for YUV formats its start moved to an even
      pixel (the start of a chroma sample), keeping its width. */
  function SourceRect(fb: Fbuf, src: Geometry.Rect): Geometry.Rect {
    if IsYuvSupport(fb.format) then Geometry.AlignYuv(src) else src
  }

  /** The luma start address (yrgb_mst): the buffer's DMA address, plus the byte offset of
      the first shown pixel, plus the framebuffer's plane-0 offset, as a 32-bit value. */
  function YrgbStart(fb: Fbuf, src: Geometry.Rect, dma: nat): nat {
    Geometry.PlaneStart(dma, Geometry.YrgbOffset(Geometry.Shr16(src.x1), Geometry.Shr16(src.y1),
                                                 Cpp0(fb.format), fb.pitch0), fb.offset0)
  }

  /** The chroma start address (uv_mst) of a YUV framebuffer, with the line of the first
      shown chroma sample taken as y / vsub (see Geometry.UvOffset). */
  function UvStart(fb: Fbuf, src: Geometry.Rect, dma: nat): nat {
    Geometry.PlaneStart(dma, Geometry.UvOffset(Geometry.Shr16(src.x1), Geometry.Shr16(src.y1),
                                               Cpp1(fb.format), HSub(fb.format), VSub(fb.format),
                                               fb.pitch1), fb.offset1)
  }

  /** The start addresses of an update that passed its early checks. */
  function Starts(fb: Fbuf, env: Env): (nat, nat)
    requires EarlyReturn(fb, env).None?
  {
    var src := SourceRect(fb, env.src);
    (YrgbStart(fb, src, env.obj0.value),
     if IsYuvSupport(fb.format) then UvStart(fb, src, env.obj1.value) else 0)
  }

  /** The luma start address names the first shown pixel: taken from the buffer's base, it
      is (modulo 2^32) line y, x * cpp bytes in, of the framebuffer's plane 0. */
  lemma YrgbStartLocates(fb: Fbuf, src: Geometry.Rect, dma: nat)
    requires src.x1 >= 0 && src.y1 >= 0
    requires Geometry.Shr16(src.x1) * Cpp0(fb.format) < fb.pitch0
    ensures var off := Geometry.YrgbOffset(Geometry.Shr16(src.x1), Geometry.Shr16(src.y1),
                                           Cpp0(fb.format), fb.pitch0);
      && YrgbStart(fb, src, dma) == (dma + off + fb.offset0) % Geometry.Two32
      && off / fb.pitch0 == Geometry.Shr16(src.y1)
      && off % fb.pitch0 == Geometry.Shr16(src.x1) * Cpp0(fb.format)
  {
    Geometry.YrgbOffsetLocates(Geometry.Shr16(src.x1), Geometry.Shr16(src.y1), Cpp0(fb.format),
                               fb.pitch0);
  }

  /** vop_disable_plane's register writes: the window's enable bit cleared. */
  function DisableWrites(d: WinData, o: Offsets): seq<Write> {
    LowerWin(d, o, [WinWrite(Enable, 0)])
  }

  /** VOP_CTRL_SET(vop, standby, v). */
  function StandbyWrite(o: Offsets, v: bv32): (w: Write)
    ensures WordOf(w) == CtrlReg(o, Standby).offset / 4
  {
    RegSet(0, CtrlReg(o, Standby), v)
  }

  /** The vop_writel calls of the init-table loop of vop_initial. */
  function TableWrites(t: seq<(nat, bv32)>): (ws: seq<Write>)
    ensures |ws| == |t|
    ensures forall k :: 0 <= k < |t| ==> ws[k] == Write(t[k].0, 0xFFFF_FFFF, t[k].1)
    decreases |t|
  {
    if t == [] then []
    else TableWrites(t[..|t| - 1]) + [Write(t[|t| - 1].0, 0xFFFF_FFFF, t[|t| - 1].1)]
  }

  /** The window loop of vop_initial: each window's enable field set to 0, in order. */
  function DisableAllWrites(o: Offsets, data: seq<WinData>): (ws: seq<Write>)
    ensures |ws| == |data|
    ensures forall k :: 0 <= k < |data| ==> ws[k] == RegSet(data[k].base, WinReg(data[k].phy, o, Enable), 0)
    decreases |data|
  {
    if data == [] then []
    else DisableAllWrites(o, data[..|data| - 1]) + DisableWrites(data[|data| - 1], o)
  }

  /** Every register write of vop_initial. */
  function InitWrites(o: Offsets, data: seq<WinData>): seq<Write> {
    TableWrites(InitTable(o)) + DisableAllWrites(o, data)
  }

  /** Every window's enable field lies in a bank of n words. */
  predicate EnablesInBank(o: Offsets, data: seq<WinData>, n: nat) {
    forall k :: 0 <= k < |data| ==> (data[k].base + WinReg(data[k].phy, o, WinField.Enable).offset) / 4 < n
  }

  /** Every control register lies in a bank of n words. */
  predicate CtrlFit(o: Offsets, n: nat) {
    forall f :: CtrlReg(o, f).offset / 4 < n
  }

  /** VOP_CTRL_SET for each (field, value), in order. */
  function CtrlWrites(o: Offsets, vals: seq<(CtrlField, bv32)>): (ws: seq<Write>)
    ensures |ws| == |vals|
    decreases |vals|
  {
    if vals == [] then []
    else CtrlWrites(o, vals[..|vals| - 1]) + [RegSet(0, CtrlReg(o, vals[|vals| - 1].0), vals[|vals| - 1].1)]
  }

  /** The k-th control write is the VOP_CTRL_SET of the k-th (field, value). */
  lemma {:induction false} CtrlWriteAt(o: Offsets, vals: seq<(CtrlField, bv32)>, k: nat)
    requires k < |vals|
    ensures CtrlWrites(o, vals)[k] == RegSet(0, CtrlReg(o, vals[k].0), vals[k].1)
    decreases |vals|
  {
    if k < |vals| - 1 {
      assert vals[..|vals| - 1][k] == vals[k];
      CtrlWriteAt(o, vals[..|vals| - 1], k);
    }
  }

  /** Control-register writes stay inside a bank that holds the VOP's registers. */
  lemma CtrlInBank(o: Offsets, data: seq<WinData>, n: nat, vals: seq<(CtrlField, bv32)>)
    requires InBank(o, data, n)
    ensures AllInBank(n, CtrlWrites(o, vals))
  {
    var ws := CtrlWrites(o, vals);
    forall k | 0 <= k < |ws|
      ensures WordOf(ws[k]) < n
    {
      CtrlWriteAt(o, vals, k);
    }
  }

  /** The init-table writes of one more entry: its vop_writel comes last. */
  lemma TableWritesSnoc(t: seq<(nat, bv32)>, i: nat)
    requires i < |t|
    ensures TableWrites(t[..i + 1]) == TableWrites(t[..i]) + [Write(t[i].0, 0xFFFF_FFFF, t[i].1)]
  {
    assert t[..i + 1][..i] == t[..i];
  }

  /** The window-loop writes of one more window: its enable write comes last. */
  lemma DisableAllWritesSnoc(o: Offsets, data: seq<WinData>, j: nat)
    requires j < |data|
    ensures DisableAllWrites(o, data[..j + 1])
         == DisableAllWrites(o, data[..j]) + [RegSet(data[j].base, WinReg(data[j].phy, o, WinField.Enable), 0)]
  {
    assert data[..j + 1][..j] == data[..j];
  }

  /** The control writes of one more (field, value): its VOP_CTRL_SET comes last. */
  lemma CtrlWritesSnoc(o: Offsets, vals: seq<(CtrlField, bv32)>, i: nat)
    requires i < |vals|
    ensures CtrlWrites(o, vals[..i + 1])
         == CtrlWrites(o, vals[..i]) + [RegSet(0, CtrlReg(o, vals[i].0), vals[i].1)]
  {
    assert vals[..i + 1][..i] == vals[..i];
  }

  /** The writes of vop_initial stay inside a bank that holds the VOP's registers. */
  lemma InitInBank(o: Offsets, data: seq<WinData>, n: nat)
    requires InBank(o, data, n)
    ensures AllInBank(n, TableWrites(InitTable(o)))
    ensures AllInBank(n, DisableAllWrites(o, data))
    ensures AllInBank(n, InitWrites(o, data))
  {
    var ds := DisableAllWrites(o, data);
    forall k | 0 <= k < |ds|
      ensures WordOf(ds[k]) < n
    {
      WinFitsBank(o, data, n, k);
    }
    AllInBankAppend(n, TableWrites(InitTable(o)), ds);
  }


  /** struct vop_win: one hardware window and its commit state. */
  class VopWin {
    /** The window's register base, layout and plane type (vop_win->data). */
    const data: WinData
    var front: Option<Fb>
    var pendingFb: Option<Fb>
    var pendingEvent: Option<Event>
    var pending: bool
    var pendingYrgbMst: nat
    var pendingUvMst: nat
    /** The completion's count. */
    var done: nat
    /** What pending_fb points to, and the rectangles pending_src and pending_dest. */
    var pendingBuf: Fbuf
    var pendingSrc: Geometry.Rect
    var pendingDest: Geometry.Rect
    /** The DRM core's bookkeeping for this window. */
    ghost var refs: multiset<Fb>
    ghost var vblankRefs: int
    ghost var sent: seq<Event>

    /** The window as a value of module Plane. */
    ghost function Model(): Win
      reads this
    {
      Win(front, pendingFb, pendingEvent, pending, pendingYrgbMst, pendingUvMst, done,
          refs, vblankRefs, sent)
    }

    /** One iteration of vop_win_init: the descriptor set and the completion initialised and
        signalled once, so that the first update does not block. */
    constructor (data: WinData)
      ensures this.data == data && Model() == Plane.Init()
    {
      this.data := data;
      front := None;
      pendingFb := None;
      pendingEvent := None;
      pending := false;
      pendingYrgbMst := 0;
      pendingUvMst := 0;
      done := 1;
      pendingBuf := Fbuf(0, 0, 0, 0, 0, 0);
      pendingSrc := Geometry.Rect(0, 0, 0, 0);
      pendingDest := Geometry.Rect(0, 0, 0, 0);
      refs := multiset{};
      vblankRefs := 0;
      sent := [];
    }

    /** vop_win_update_needs_vblank on this window. */
    predicate NeedsVblank(fb: Option<Fb>, event: Option<Event>)
      reads this
      ensures NeedsVblank(fb, event) == Plane.NeedsVblank(Model(), fb, event)
    {
      event.Some? || (front.Some? && front != fb)
    }

    /** vop_win_update_needs_sync on this window. */
    predicate NeedsSync(fb: Option<Fb>, hasResv: bool)
      reads this
      ensures NeedsSync(fb, hasResv) == Plane.NeedsSync(Model(), fb, hasResv)
    {
      fb.Some? && fb != front && hasResv
    }

    /** complete(&vop_win->completion). */
    method Complete()
      modifies this`done
      ensures Model() == Plane.Complete(old(Model()))
    {
      done := done + 1;
    }

    /** wait_for_completion(&vop_win->completion), once it can proceed. */
    method WaitForCompletion()
      requires done > 0
      modifies this`done
      ensures Model() == Plane.Wait(old(Model()))
    {
      done := done - 1;
    }

    /** A cursor update that finds the gate held: the update waiting for its frame is
        replaced (see Plane.Superseded). */
    method Supersede()
      modifies this`pending, this`pendingFb, this`pendingEvent, this`refs, this`vblankRefs,
               this`sent
      ensures Model() == Superseded(old(Model()))
    {
      ghost var r := Superseded(Model());
      refs := r.refs;
      vblankRefs := r.vblankRefs;
      sent := r.sent;
      pending := false;
      pendingFb := None;
      pendingEvent := None;
    }

    /** vop_win_update. */
    method Update()
      modifies this`front, this`pendingFb, this`pendingEvent, this`refs, this`sent
      ensures Model() == WinUpdate(old(Model()))
    {
      ghost var r := WinUpdate(Model());
      sent := r.sent;
      refs := r.refs;
      pendingEvent := None;
      front := pendingFb;
      pendingFb := None;
    }

    /** pending = true in vop_win_update_commit and vop_disable_plane. */
    method MarkPending()
      modifies this`pending
      ensures Model() == old(Model()).(pending := true)
    {
      pending := true;
    }

    /** The part of vop_update_plane_event after drm_vblank_get: a reference to the
        framebuffer is taken and it becomes pending with its event, start addresses and
        rectangles; the vblank reference (when needsVblank) is counted here too. */
    method Prepare(fb: Fbuf, event: Option<Event>, yrgbMst: nat, uvMst: nat,
                   src: Geometry.Rect, dest: Geometry.Rect, needsVblank: bool)
      modifies this`pendingFb, this`pendingEvent, this`pendingYrgbMst, this`pendingUvMst,
               this`pendingBuf, this`pendingSrc, this`pendingDest, this`refs, this`vblankRefs
      ensures Model() == Prepared(old(Model()), fb.id, event, yrgbMst, uvMst, needsVblank)
      ensures pendingBuf == fb && pendingSrc == src && pendingDest == dest
    {
      Reference(fb.id, event, needsVblank);
      Record(fb, yrgbMst, uvMst, src, dest);
    }

    /** Prepare's bookkeeping half: the references and the pending framebuffer and event. */
    method Reference(fb: Fb, event: Option<Event>, needsVblank: bool)
      modifies this`pendingFb, this`pendingEvent, this`refs, this`vblankRefs
      ensures Model() == old(Model()).(vblankRefs := if needsVblank then old(vblankRefs) + 1
                                                     else old(vblankRefs),
                                       refs := old(refs) + multiset{fb},
                                       pendingFb := Some(fb), pendingEvent := event)
    {
      ghost var r := Model().(vblankRefs := if needsVblank then vblankRefs + 1 else vblankRefs,
                              refs := refs + multiset{fb},
                              pendingFb := Some(fb), pendingEvent := event);
      refs := r.refs;
      vblankRefs := r.vblankRefs;
      pendingFb := Some(fb);
      pendingEvent := event;
    }

    /** Prepare's other half: what the commit will program. */
    method Record(fb: Fbuf, yrgbMst: nat, uvMst: nat, src: Geometry.Rect, dest: Geometry.Rect)
      modifies this`pendingYrgbMst, this`pendingUvMst, this`pendingBuf, this`pendingSrc,
               this`pendingDest
      ensures Model() == old(Model()).(pendingYrgbMst := yrgbMst, pendingUvMst := uvMst)
      ensures pendingBuf == fb && pendingSrc == src && pendingDest == dest
    {
      pendingYrgbMst := yrgbMst;
      pendingUvMst := uvMst;
      pendingBuf := fb;
      pendingSrc := src;
      pendingDest := dest;
    }

    /** The rollback of vop_update_plane_event when the fence sync fails: nothing pending,
        the framebuffer reference dropped, the vblank reference (if one was taken) put back,
        the gate freed. */
    method Rollback(fb: Fb, needsVblank: bool)
      modifies this`pendingFb, this`pendingEvent, this`refs, this`vblankRefs, this`done
      ensures Model() == RolledBack(old(Model()), fb, needsVblank)
    {
      ghost var r := RolledBack(Model(), fb, needsVblank);
      refs := r.refs;
      vblankRefs := r.vblankRefs;
      pendingFb := None;
      pendingEvent := None;
      done := done + 1;
    }

    /** The start of vop_disable_plane after the wait: no luma address confirms a disable. */
    method ClearYrgbMst()
      modifies this`pendingYrgbMst
      ensures Model() == old(Model()).(pendingYrgbMst := 0)
    {
      pendingYrgbMst := 0;
    }

    /** A deferred disable: a vblank reference is taken and the window waits for a frame. */
    method DeferDisable()
      modifies this`vblankRefs, this`pending
      ensures Model() == old(Model()).(vblankRefs := old(Model()).vblankRefs + 1, pending := true)
    {
      vblankRefs := vblankRefs + 1;
      pending := true;
    }

    /** The end of vop_win_process_pending: the vblank reference is put back, the pending
        update becomes front, nothing is pending and the gate is freed. */
    method Retire()
      requires pending
      modifies this`front, this`pendingFb, this`pendingEvent, this`refs, this`sent,
               this`vblankRefs, this`pending, this`done
      ensures Model() == Plane.ProcessPending(old(Model()), true)
    {
      vblankRefs := vblankRefs - 1;
      Update();
      pending := false;
      Complete();
    }
  }
  /** The window descriptors of a VOP all fit its bank. */
  lemma WinFitsBank(o: Offsets, data: seq<WinData>, n: nat, i: nat)
    requires InBank(o, data, n) && i < |data|
    ensures WinInBank(o, data[i], n) && SclInBank(o, data[i].base, n)
  {
  }

  /** struct vop: the register bank, the windows, the mode the CRTC runs and whether the
      controller is powered and clocked. */
  class Vop {
    /** The register layout, the scaling helpers and the blending words of the VOP model. */
    const o: Offsets
    const h: Helpers
    const alpha: Alpha
    /** vop->data->win: the window descriptors. */
    const data: seq<WinData>
    const bank: RegBank
    /** vop->win: one VopWin per descriptor. */
    const wins: seq<VopWin>
    var isEnabled: bool
    /** crtc->mode: the mode requested of the CRTC, from which windows are placed. */
    var mode: Geometry.DisplayMode
    /** The runtime-PM, clock and IOMMU references the VOP holds. */
    ghost var power: Power.Power

    ghost predicate Valid()
      reads this, bank
    {
      && bank.Valid()
      && InBank(o, data, bank.regsbak.Length)
      && |wins| == |data|
      && (forall i :: 0 <= i < |wins| ==> wins[i].data == data[i])
      && (forall i, j :: 0 <= i < j < |wins| ==> wins[i] != wins[j])
    }

    /** vop_bind's allocation of the shadow bank, then vop_win_init: one window per
        descriptor, each with its completion signalled once. */
    constructor (o: Offsets, h: Helpers, alpha: Alpha, data: seq<WinData>, hw: seq<bv32>)
      requires InBank(o, data, |hw|)
      ensures Valid() && this.o == o && this.h == h && this.alpha == alpha && this.data == data
      ensures fresh(bank) && fresh(bank.regsbak) && fresh(bank.regs)
      ensures bank.regsbak[..] == seq(|hw|, _ => 0)
      ensures bank.regs[..] == hw && bank.active == hw && !bank.cfgDone
      ensures forall i :: 0 <= i < |wins| ==> fresh(wins[i]) && wins[i].Model() == Plane.Init()
      ensures !isEnabled && PowerOk()
    {
      this.o := o;
      this.h := h;
      this.alpha := alpha;
      this.data := data;
      var ws: seq<VopWin> := [];
      var i := 0;
      while i < |data|
        invariant i <= |data| && |ws| == i
        invariant forall k :: 0 <= k < i ==> ws[k].data == data[k]
        invariant forall k :: 0 <= k < i ==> fresh(ws[k]) && ws[k].Model() == Plane.Init()
        invariant forall k, l :: 0 <= k < l < i ==> ws[k] != ws[l]
      {
        var w := new VopWin(data[i]);
        ws := ws + [w];
        i := i + 1;
      }
      bank := new RegBank(hw);
      wins := ws;
      isEnabled := false;
      mode := Geometry.DisplayMode(0, 0, 0, 0, 0, 0, 0, 0, 0);
      power := Power.Power(0, 0, 0, 0, false);
    }

    /** An enabled VOP holds its runtime-PM reference, its three clocks and its IOMMU. */
    ghost predicate PowerOk()
      reads this
    {
      isEnabled ==> Power.Powered(power)
    }

    /** vop_win_update_commit: the pending framebuffer is either queued for the next frame
        or put on screen at once (freeing the gate), and the window's registers are
        programmed from the pending framebuffer, start addresses and rectangles, followed by
        a cfg_done. */
    method WinUpdateCommit(i: nat, needsVblank: bool)
      requires Valid() && i < |wins| && wins[i].pendingFb.Some?
      modifies wins[i], bank.regsbak, bank.regs, bank`cfgDone
      ensures Valid() && bank.cfgDone
      ensures wins[i].Model() == Commit(old(wins[i].Model()), needsVblank)
      ensures AllInBank(bank.regsbak.Length,
                        CommitWrites(data[i], o, h, alpha, old(wins[i].pendingBuf),
                                     old(wins[i].pendingYrgbMst), old(wins[i].pendingUvMst),
                                     old(wins[i].pendingSrc), old(wins[i].pendingDest), mode))
      ensures bank.State()
           == ApplyAll(old(bank.State()),
                       CommitWrites(data[i], o, h, alpha, old(wins[i].pendingBuf),
                                    old(wins[i].pendingYrgbMst), old(wins[i].pendingUvMst),
                                    old(wins[i].pendingSrc), old(wins[i].pendingDest), mode))
    {
      var w := wins[i];
      var fb := w.pendingBuf;
      var yrgbMst := w.pendingYrgbMst;
      var uvMst := w.pendingUvMst;
      var src := w.pendingSrc;
      var dest := w.pendingDest;
      if needsVblank {
        w.MarkPending();
      } else {
        w.Update();
      }
      ProgramWindow(i, fb, yrgbMst, uvMst, src, dest);
      if !needsVblank {
        w.Complete();
      }
    }

    /** The register half of vop_win_update_commit: the window's fields, then cfg_done. */
    method ProgramWindow(i: nat, fb: Fbuf, yrgbMst: nat, uvMst: nat, src: Geometry.Rect,
                         dest: Geometry.Rect)
      requires Valid() && i < |wins|
      modifies bank.regsbak, bank.regs, bank`cfgDone
      ensures Valid() && bank.cfgDone
      ensures AllInBank(bank.regsbak.Length,
                        CommitWrites(data[i], o, h, alpha, fb, yrgbMst, uvMst, src, dest, mode))
      ensures bank.State()
           == ApplyAll(old(bank.State()),
                       CommitWrites(data[i], o, h, alpha, fb, yrgbMst, uvMst, src, dest, mode))
    {
      WinFitsBank(o, data, bank.regsbak.Length, i);
      WriteWindow(bank, data[i], o, h, alpha, fb, yrgbMst, uvMst, src, dest, mode);
      bank.CfgDone();
    }

    /** The bookkeeping of vop_update_plane_event from the wait on (see Plane.UpdatePlane),
        with the commit when it succeeds.  The luma and chroma start addresses and the
        rectangles are those already computed. */
    method QueueUpdate(i: nat, fb: Fbuf, event: Option<Event>, yrgbMst: nat, uvMst: nat,
                       src: Geometry.Rect, dest: Geometry.Rect, vblankGet: int, hasResv: bool,
                       syncRet: int) returns (ret: int)
      requires Valid() && i < |wins| && (data[i].kind != Cursor ==> wins[i].done > 0)
      modifies wins[i], bank.regsbak, bank.regs, bank`cfgDone
      ensures Valid()
      ensures (wins[i].Model(), ret)
           == UpdatePlane(old(wins[i].Model()), data[i].kind == Cursor, fb.id, event, yrgbMst,
                          uvMst, vblankGet,
                          hasResv, syncRet)
      ensures AllInBank(bank.regsbak.Length,
                        CommitWrites(data[i], o, h, alpha, fb, yrgbMst, uvMst, src, dest, mode))
      ensures ret == 0 ==>
                bank.cfgDone
                && bank.State()
                   == ApplyAll(old(bank.State()),
                               CommitWrites(data[i], o, h, alpha, fb, yrgbMst, uvMst, src, dest, mode))
      ensures ret != 0 ==> bank.State() == old(bank.State())
    {
      var w := wins[i];
      if w.done > 0 {
        w.WaitForCompletion();
      } else {
        w.Supersede();
      }
      var needsVblank := w.NeedsVblank(Some(fb.id), event);
      if needsVblank && vblankGet != 0 {
        w.Complete();
        WinFitsBank(o, data, bank.regsbak.Length, i);
        CommitInBank(data[i], o, h, alpha, fb, yrgbMst, uvMst, src, dest, mode,
                     bank.regsbak.Length);
        return vblankGet;
      }
      ret := PrepareAndCommit(i, fb, event, yrgbMst, uvMst, src, dest, needsVblank, hasResv,
                              syncRet);
    }

    /** Plane.Queue in place: fb becomes pending, then is committed, or rolled back when the
        fence sync fails. */
    method PrepareAndCommit(i: nat, fb: Fbuf, event: Option<Event>, yrgbMst: nat, uvMst: nat,
                            src: Geometry.Rect, dest: Geometry.Rect, needsVblank: bool,
                            hasResv: bool, syncRet: int) returns (ret: int)
      requires Valid() && i < |wins|
      modifies wins[i], bank.regsbak, bank.regs, bank`cfgDone
      ensures Valid()
      ensures (wins[i].Model(), ret)
           == Queue(old(wins[i].Model()), fb.id, event, yrgbMst, uvMst, needsVblank, hasResv,
                    syncRet)
      ensures AllInBank(bank.regsbak.Length,
                        CommitWrites(data[i], o, h, alpha, fb, yrgbMst, uvMst, src, dest, mode))
      ensures ret == 0 ==>
                bank.cfgDone
                && bank.State()
                   == ApplyAll(old(bank.State()),
                               CommitWrites(data[i], o, h, alpha, fb, yrgbMst, uvMst, src, dest, mode))
      ensures ret != 0 ==> bank.State() == old(bank.State())
    {
      var w := wins[i];
      ghost var q := Queue(w.Model(), fb.id, event, yrgbMst, uvMst, needsVblank, hasResv, syncRet);
      w.Prepare(fb, event, yrgbMst, uvMst, src, dest, needsVblank);
      ghost var w2 := w.Model();
      if w.NeedsSync(Some(fb.id), hasResv) && syncRet != 0 {
        w.Rollback(fb.id, needsVblank);
        ret := syncRet;
        WinFitsBank(o, data, bank.regsbak.Length, i);
        CommitInBank(data[i], o, h, alpha, fb, yrgbMst, uvMst, src, dest, mode,
                     bank.regsbak.Length);
        assert q.0 == w.Model();
      } else {
        WinUpdateCommit(i, needsVblank);
        ret := 0;
        assert q.0 == Commit(w2, needsVblank);
      }
    }

    /** vop_update_plane_event: after the early returns, the source start is aligned for
        YUV formats, the start addresses are computed, and the window is updated as
        Plane.UpdatePlane says; a successful update programs the window's registers. */
    method UpdatePlaneEvent(i: nat, fb: Fbuf, event: Option<Event>, env: Env) returns (ret: int)
      requires Valid() && i < |wins|
      requires EarlyReturn(fb, env).None? && data[i].kind != Cursor ==> wins[i].done > 0
      modifies wins[i], bank.regsbak, bank.regs, bank`cfgDone
      ensures Valid()
      ensures EarlyReturn(fb, env).Some? ==>
                && ret == EarlyReturn(fb, env).value
                && wins[i].Model() == old(wins[i].Model())
                && bank.State() == old(bank.State())
      ensures EarlyReturn(fb, env).None? ==>
                (wins[i].Model(), ret)
                == UpdatePlane(old(wins[i].Model()), data[i].kind == Cursor, fb.id, event,
                               Starts(fb, env).0,
                               Starts(fb, env).1, env.vblankGet, env.hasResv, env.syncRet)
      ensures EarlyReturn(fb, env).None? ==>
                AllInBank(bank.regsbak.Length,
                          CommitWrites(data[i], o, h, alpha, fb, Starts(fb, env).0,
                                       Starts(fb, env).1, SourceRect(fb, env.src), env.dest,
                                       mode))
      ensures EarlyReturn(fb, env).None? && ret == 0 ==>
                && bank.cfgDone
                && bank.State()
                   == ApplyAll(old(bank.State()),
                               CommitWrites(data[i], o, h, alpha, fb, Starts(fb, env).0,
                                            Starts(fb, env).1, SourceRect(fb, env.src),
                                            env.dest, mode))
      ensures EarlyReturn(fb, env).None? && ret != 0 ==> bank.State() == old(bank.State())
    {
      if env.checkRet != 0 {
        return env.checkRet;
      }
      if !env.visible {
        return 0;
      }
      var isYuv := IsYuvSupport(fb.format);
      var format := ConvertFormat(fb.format);
      if format < 0 {
        return format;
      }
      if env.obj0.None? {
        return -EINVAL;
      }
      var src := env.src;
      if isYuv {
        src := Geometry.AlignYuv(src);
      }
      var yrgbMst := YrgbStart(fb, src, env.obj0.value);
      var uvMst := 0;
      if isYuv {
        if env.obj1.None? {
          return -EINVAL;
        }
        uvMst := UvStart(fb, src, env.obj1.value);
      }
      ret := QueueUpdate(i, fb, event, yrgbMst, uvMst, src, env.dest, env.vblankGet, env.hasResv,
                         env.syncRet);
    }

    /** vop_disable_plane: without a CRTC nothing happens; otherwise the window is emptied
        or queued to go dark as Plane.DisablePlane says, and unless taking the vblank
        reference failed, its enable bit is cleared and cfg_done written (even while the
        VOP is disabled). */
    method DisablePlane(i: nat, hasCrtc: bool, vblankGet: int) returns (ret: int)
      requires Valid() && i < |wins| && (hasCrtc ==> wins[i].done > 0)
      modifies wins[i], bank.regsbak, bank.regs, bank`cfgDone
      ensures Valid()
      ensures (wins[i].Model(), ret)
           == Plane.DisablePlane(old(wins[i].Model()), hasCrtc, isEnabled, vblankGet)
      ensures AllInBank(bank.regsbak.Length, DisableWrites(data[i], o))
      ensures hasCrtc && ret == 0 ==>
                bank.cfgDone && bank.State() == ApplyAll(old(bank.State()), DisableWrites(data[i], o))
      ensures !(hasCrtc && ret == 0) ==>
                bank.State() == old(bank.State()) && bank.cfgDone == old(bank.cfgDone)
    {
      WinFitsBank(o, data, bank.regsbak.Length, i);
      if !hasCrtc {
        return 0;
      }
      var w := wins[i];
      ghost var r := Plane.DisablePlane(w.Model(), hasCrtc, isEnabled, vblankGet);
      w.WaitForCompletion();
      w.ClearYrgbMst();
      ghost var w1 := w.Model();
      if isEnabled && w.NeedsVblank(None, None) {
        if vblankGet != 0 {
          w.Complete();
          assert r == (Plane.Complete(w1), vblankGet);
          return vblankGet;
        }
        w.DeferDisable();
        assert r.0 == w.Model();
      } else {
        w.Update();
        w.Complete();
        assert r.0 == Plane.Complete(WinUpdate(w1));
      }
      ClearEnable(i);
      ret := 0;
    }

    /** The register writes of vop_disable_plane: enable cleared, then cfg_done. */
    method ClearEnable(i: nat)
      requires Valid() && i < |wins|
      modifies bank.regsbak, bank.regs, bank`cfgDone
      ensures Valid() && bank.cfgDone
      ensures AllInBank(bank.regsbak.Length, DisableWrites(data[i], o))
      ensures bank.State() == ApplyAll(old(bank.State()), DisableWrites(data[i], o))
    {
      WinFitsBank(o, data, bank.regsbak.Length, i);
      ghost var b0 := bank.State();
      var enable := WinReg(data[i].phy, o, WinField.Enable);
      bank.SetReg(data[i].base, enable, 0);
      bank.CfgDone();
      ApplyAllOne(b0, RegSet(data[i].base, enable, 0));
      assert DisableWrites(data[i], o) == [RegSet(data[i].base, enable, 0)];
    }

    /** What VOP_WIN_GET_YRGBADDR reads for window i: the whole live yrgb_mst word. */
    ghost function LiveYrgbMst(i: nat): nat
      requires Valid() && i < |wins|
      reads this, bank
    {
      WinFitsBank(o, data, bank.regsbak.Length, i);
      bank.active[(data[i].base + WinReg(data[i].phy, o, YrgbMst).offset) / 4] as nat
    }

    /** What VOP_WIN_GET(enable) reads for window i: the live enable field. */
    ghost function LiveEnable(i: nat): nat
      requires Valid() && i < |wins|
      reads this, bank
    {
      WinFitsBank(o, data, bank.regsbak.Length, i);
      var r := WinReg(data[i].phy, o, WinField.Enable);
      FieldOf(bank.active[(data[i].base + r.offset) / 4], r) as nat
    }

    /** vop_win_pending_is_complete: a pending framebuffer is confirmed once the live luma
        start address equals the one it was committed with, a pending disable once the
        live enable bit reads 0. */
    method PendingIsComplete(i: nat) returns (c: bool)
      requires Valid() && i < |wins|
      ensures c == Plane.PendingIsComplete(wins[i].Model(), LiveYrgbMst(i), LiveEnable(i))
    {
      var w := wins[i];
      if w.pendingFb.Some? {
        var yrgbMst := ReadYrgbMst(i);
        c := yrgbMst as nat == w.pendingYrgbMst;
      } else {
        var enable := ReadEnable(i);
        c := enable == 0;
      }
    }

    /** VOP_WIN_GET_YRGBADDR: a readl of the window's yrgb_mst word. */
    method ReadYrgbMst(i: nat) returns (x: bv32)
      requires Valid() && i < |wins|
      ensures x as nat == LiveYrgbMst(i)
    {
      WinFitsBank(o, data, bank.regsbak.Length, i);
      x := bank.Readl(data[i].base + WinReg(data[i].phy, o, YrgbMst).offset);
    }

    /** VOP_WIN_GET(enable): vop_read_reg of the window's enable field. */
    method ReadEnable(i: nat) returns (x: bv32)
      requires Valid() && i < |wins|
      ensures x as nat == LiveEnable(i)
    {
      WinFitsBank(o, data, bank.regsbak.Length, i);
      x := bank.ReadReg(data[i].base, WinReg(data[i].phy, o, WinField.Enable));
    }

    /** What vop_win_process_pending makes of window k in state m, given what the live
        registers read now. */
    ghost function Processed(k: nat, m: Win): Win
      requires Valid() && k < |wins|
      reads this, bank
    {
      Plane.ProcessPending(m, Plane.PendingIsComplete(m, LiveYrgbMst(k), LiveEnable(k)))
    }

    /** vop_win_process_pending: nothing unless an update is pending and the hardware
        confirms it; then it is retired as Plane.ProcessPending says. */
    method ProcessPending(i: nat)
      requires Valid() && i < |wins|
      modifies wins[i]
      ensures wins[i].Model() == Processed(i, old(wins[i].Model()))
    {
      var w := wins[i];
      if !w.pending {
        return;
      }
      var c := PendingIsComplete(i);
      if !c {
        return;
      }
      w.Retire();
    }

    /** vop_isr_thread: every window's pending update is processed, in order; the result is
        IRQ_HANDLED. */
    method IsrThread() returns (r: IrqReturn)
      requires Valid()
      modifies wins
      ensures r == IrqHandled
      ensures forall k :: 0 <= k < |wins| ==> wins[k].Model() == Processed(k, old(wins[k].Model()))
    {
      ghost var m, ys, es := Snapshot();
      var i := 0;
      while i < |wins|
        invariant 0 <= i <= |wins|
        invariant unchanged(this, bank)
        invariant forall k :: 0 <= k < i ==>
                    wins[k].Model() == Plane.ProcessPending(m[k], Plane.PendingIsComplete(m[k], ys[k], es[k]))
        invariant forall k :: i <= k < |wins| ==> wins[k].Model() == m[k]
      {
        label Before:
        ProcessPending(i);
        assert LiveYrgbMst(i) == ys[i] && LiveEnable(i) == es[i];
        forall k | 0 <= k < |wins| && k != i
          ensures wins[k].Model() == old@Before(wins[k].Model())
        {
          assert wins[k] != wins[i];
        }
        i := i + 1;
      }
      r := IrqHandled;
    }

    /** The abstract state of every window, with what its live registers read. */
    ghost method Snapshot() returns (m: seq<Win>, ys: seq<nat>, es: seq<nat>)
      requires Valid()
      ensures |m| == |ys| == |es| == |wins|
      ensures forall k :: 0 <= k < |wins| ==>
                m[k] == wins[k].Model() && ys[k] == LiveYrgbMst(k) && es[k] == LiveEnable(k)
    {
      m, ys, es := [], [], [];
      while |m| < |wins|
        invariant |m| <= |wins| && |ys| == |es| == |m|
        invariant forall k :: 0 <= k < |m| ==>
                    m[k] == wins[k].Model() && ys[k] == LiveYrgbMst(k) && es[k] == LiveEnable(k)
      {
        var k := |m|;
        m, ys, es := m + [wins[k].Model()], ys + [LiveYrgbMst(k)], es + [LiveEnable(k)];
      }
    }

    /** vop_initial, after the AHB reset: the shadow is read back from the hardware, the
        init table is written, every window is disabled and a cfg_done is issued; the VOP
        is left disabled. */
    method Initial()
      requires Valid()
      modifies bank.regsbak, bank.regs, bank`cfgDone, this`isEnabled
      ensures Valid() && bank.cfgDone && !isEnabled
      ensures AllInBank(bank.regsbak.Length, InitWrites(o, data))
      ensures bank.State() == ApplyAll(Bank(old(bank.active), old(bank.regs[..])), InitWrites(o, data))
      ensures old(bank.regs[..]) == old(bank.active) ==> bank.regsbak[..] == bank.regs[..]
    {
      InitInBank(o, data, bank.regsbak.Length);
      bank.CaptureShadow();
      ghost var b0 := bank.State();
      WriteTable(InitTable(o));
      assert EnablesInBank(o, data, bank.regsbak.Length);
      DisableAllWindows();
      ApplyAllAppend(b0, TableWrites(InitTable(o)), DisableAllWrites(o, data));
      bank.CfgDone();
      isEnabled := false;
      if old(bank.regs[..]) == old(bank.active) {
        ApplyAllKeepsMirror(b0, InitWrites(o, data));
      }
    }

    /** The init-table loop of vop_initial: one vop_writel per entry, in order. */
    method WriteTable(table: seq<(nat, bv32)>)
      requires bank.Valid() && AllInBank(bank.regsbak.Length, TableWrites(table))
      modifies bank.regsbak, bank.regs
      ensures bank.Valid()
      ensures bank.State() == ApplyAll(old(bank.State()), TableWrites(table))
    {
      ghost var b0 := bank.State();
      var i := 0;
      while i < |table|
        invariant i <= |table| && bank.Valid()
        invariant AllInBank(bank.regsbak.Length, TableWrites(table[..i]))
        invariant bank.State() == ApplyAll(b0, TableWrites(table[..i]))
      {
        WriteEntry(b0, table, i);
        i := i + 1;
      }
      assert table[..i] == table;
    }

    /** One step of the init-table loop: entry i written after the entries before it. */
    method WriteEntry(ghost b0: Bank, table: seq<(nat, bv32)>, i: nat)
      requires bank.Valid() && i < |table| && AllInBank(bank.regsbak.Length, TableWrites(table))
      requires WellSized(b0) && |b0.shadow| == bank.regsbak.Length
      requires AllInBank(bank.regsbak.Length, TableWrites(table[..i]))
      requires bank.State() == ApplyAll(b0, TableWrites(table[..i]))
      modifies bank.regsbak, bank.regs
      ensures bank.Valid() && AllInBank(bank.regsbak.Length, TableWrites(table[..i + 1]))
      ensures bank.State() == ApplyAll(b0, TableWrites(table[..i + 1]))
    {
      ghost var ws := TableWrites(table[..i]);
      ghost var w := Write(table[i].0, 0xFFFF_FFFF, table[i].1);
      TableWritesSnoc(table, i);
      assert WordOf(w) == WordOf(TableWrites(table)[i]);
      AllInBankAppend(bank.regsbak.Length, ws, [w]);
      bank.Writel(table[i].0, table[i].1);
      ApplyAllSnoc(b0, ws, w);
    }

    /** The window loop of vop_initial: VOP_WIN_SET(enable, 0) for each window, in order. */
    method DisableAllWindows()
      requires bank.Valid() && EnablesInBank(o, data, bank.regsbak.Length)
      modifies bank.regsbak, bank.regs
      ensures bank.Valid() && AllInBank(bank.regsbak.Length, DisableAllWrites(o, data))
      ensures bank.State() == ApplyAll(old(bank.State()), DisableAllWrites(o, data))
    {
      ghost var b0 := bank.State();
      var j := 0;
      while j < |data|
        invariant j <= |data| && bank.Valid()
        invariant AllInBank(bank.regsbak.Length, DisableAllWrites(o, data[..j]))
        invariant bank.State() == ApplyAll(b0, DisableAllWrites(o, data[..j]))
      {
        DisableWindow(b0, j);
        j := j + 1;
      }
      assert data[..j] == data;
    }

    /** One step of the window loop of vop_initial: the enable field of window j set to 0
        after those of the windows before it. */
    method DisableWindow(ghost b0: Bank, j: nat)
      requires bank.Valid() && EnablesInBank(o, data, bank.regsbak.Length) && j < |data|
      requires WellSized(b0) && |b0.shadow| == bank.regsbak.Length
      requires AllInBank(bank.regsbak.Length, DisableAllWrites(o, data[..j]))
      requires bank.State() == ApplyAll(b0, DisableAllWrites(o, data[..j]))
      modifies bank.regsbak, bank.regs
      ensures bank.Valid() && AllInBank(bank.regsbak.Length, DisableAllWrites(o, data[..j + 1]))
      ensures bank.State() == ApplyAll(b0, DisableAllWrites(o, data[..j + 1]))
    {
      var enable := WinReg(data[j].phy, o, WinField.Enable);
      ghost var ws := DisableAllWrites(o, data[..j]);
      ghost var w := RegSet(data[j].base, enable, 0);
      DisableAllWritesSnoc(o, data, j);
      AllInBankAppend(bank.regsbak.Length, ws, [w]);
      bank.SetReg(data[j].base, enable, 0);
      ApplyAllSnoc(b0, ws, w);
    }

    /** One VOP_CTRL_SET of vop_crtc_mode_set: the i-th write of `vals`, after the first i. */
    method CtrlSet(ghost vals: seq<(CtrlField, bv32)>, ghost s0: Bank, i: nat, f: CtrlField, v: bv32)
      requires bank.Valid() && i < |vals| && vals[i] == (f, v)
      requires CtrlFit(o, bank.regsbak.Length)
      requires WellSized(s0) && |s0.shadow| == bank.regsbak.Length
      requires AllInBank(|s0.shadow|, CtrlWrites(o, vals[..i]))
      requires bank.State() == ApplyAll(s0, CtrlWrites(o, vals[..i]))
      modifies bank.regsbak, bank.regs
      ensures bank.Valid() && AllInBank(|s0.shadow|, CtrlWrites(o, vals[..i + 1]))
      ensures bank.State() == ApplyAll(s0, CtrlWrites(o, vals[..i + 1]))
    {
      ghost var ws := CtrlWrites(o, vals[..i]);
      ghost var w := RegSet(0, CtrlReg(o, f), v);
      CtrlWritesSnoc(o, vals, i);
      AllInBankAppend(|s0.shadow|, ws, [w]);
      bank.SetReg(0, CtrlReg(o, f), v);
      ApplyAllSnoc(s0, ws, w);
    }

    /** The output writes of vop_crtc_mode_set: the connector's output enabled, the output
        mode and the sync polarities. */
    method WriteOutput(ghost vals: seq<(CtrlField, bv32)>, ghost s0: Bank, c: Connector,
                       outMode: bv32, pol: bv32)
      requires bank.Valid() && CtrlFit(o, bank.regsbak.Length) && 3 <= |vals|
      requires vals[0] == (ConnectorEnable(c), 1) && vals[1] == (OutMode, outMode)
      requires vals[2] == (PinPol, pol)
      requires WellSized(s0) && |s0.shadow| == bank.regsbak.Length && bank.State() == s0
      modifies bank.regsbak, bank.regs
      ensures bank.Valid() && AllInBank(|s0.shadow|, CtrlWrites(o, vals[..3]))
      ensures bank.State() == ApplyAll(s0, CtrlWrites(o, vals[..3]))
    {
      assert vals[..0] == [];
      CtrlSet(vals, s0, 0, ConnectorEnable(c), 1);
      CtrlSet(vals, s0, 1, OutMode, outMode);
      CtrlSet(vals, s0, 2, PinPol, pol);
    }

    /** The timing writes of one direction: the total and sync width, then the same active
        start/end word to the display and to the post-scaler register. */
    method WriteTiming(ghost vals: seq<(CtrlField, bv32)>, ghost s0: Bank, i: nat,
                       total: CtrlField, stEnd: CtrlField, post: CtrlField, pw: bv32, val: bv32)
      requires bank.Valid() && CtrlFit(o, bank.regsbak.Length) && i + 3 <= |vals|
      requires vals[i] == (total, pw) && vals[i + 1] == (stEnd, val) && vals[i + 2] == (post, val)
      requires WellSized(s0) && |s0.shadow| == bank.regsbak.Length
      requires AllInBank(|s0.shadow|, CtrlWrites(o, vals[..i]))
      requires bank.State() == ApplyAll(s0, CtrlWrites(o, vals[..i]))
      modifies bank.regsbak, bank.regs
      ensures bank.Valid() && AllInBank(|s0.shadow|, CtrlWrites(o, vals[..i + 3]))
      ensures bank.State() == ApplyAll(s0, CtrlWrites(o, vals[..i + 3]))
    {
      CtrlSet(vals, s0, i, total, pw);
      CtrlSet(vals, s0, i + 1, stEnd, val);
      CtrlSet(vals, s0, i + 2, post, val);
    }

    /** The register part of vop_crtc_mode_set: the primary window's pending update is
        waited for and its completion given back, then the registers are written from the
        adjusted mode.  crtc->mode, which dsp_st is later computed from, is the mode that was
        requested: the DRM core stores it before calling mode_set, and the driver never
        assigns it. */
    method ModeSet(requested: Geometry.DisplayMode, adjusted: Geometry.DisplayMode,
                   c: Connector, outMode: bv32)
      requires Valid() && |wins| > 0 && data[0].kind == Primary && wins[0].done > 0
      modifies this`mode, wins[0], bank.regsbak, bank.regs
      ensures Valid() && mode == requested
      ensures wins[0].Model() == old(wins[0].Model())
      ensures AllInBank(bank.regsbak.Length, CtrlWrites(o, ModeValues(adjusted, c, outMode)))
      ensures bank.State()
           == ApplyAll(old(bank.State()), CtrlWrites(o, ModeValues(adjusted, c, outMode)))
    {
      wins[0].WaitForCompletion();
      wins[0].Complete();
      assert CtrlFit(o, bank.regsbak.Length);
      WriteMode(adjusted, c, outMode);
      mode := requested;
    }

    /** The VOP_CTRL_SET calls of vop_crtc_mode_set: the connector's output, the output mode,
        the sync polarities and the four timing registers, each through the shadow. */
    method WriteMode(m: Geometry.DisplayMode, c: Connector, outMode: bv32)
      requires bank.Valid() && CtrlFit(o, bank.regsbak.Length)
      modifies bank.regsbak, bank.regs
      ensures bank.Valid()
      ensures AllInBank(bank.regsbak.Length, CtrlWrites(o, ModeValues(m, c, outMode)))
      ensures bank.State() == ApplyAll(old(bank.State()), CtrlWrites(o, ModeValues(m, c, outMode)))
    {
      ghost var vals := ModeValues(m, c, outMode);
      ghost var s0 := bank.State();
      ModeValuesAt(m, c, outMode);
      WriteOutput(vals, s0, c, outMode, PinPolarity(m.flags));
      var val := TimingWord(HactSt(m), HactEnd(m));
      WriteTiming(vals, s0, 3, HtotalPw, HactStEnd, HpostStEnd,
                  TimingWord(U16(m.htotal), HsyncLen(m)), val);
      val := TimingWord(VactSt(m), VactEnd(m));
      WriteTiming(vals, s0, 6, VtotalPw, VactStEnd, VpostStEnd,
                  TimingWord(U16(m.vtotal), VsyncLen(m)), val);
      assert vals[..|vals|] == vals;
    }

    /** vop_isr: INTR_CTRL0 is read, the active causes are written back to their clear bits
        when there are any, and the causes are tested in order. */
    method Isr(mask: bv32, dspHold: bv32, lineFlag: bv32, fs: bv32, clrShift: bv5,
               dmcCompleted: bool) returns (out: IsrOutcome)
      requires bank.Valid() && o.intrCtrl0 / 4 < bank.regsbak.Length
      modifies bank.regsbak, bank.regs
      ensures bank.Valid()
      ensures out == Crtc.Isr(mask, dspHold, lineFlag, fs, clrShift, old(bank.active[o.intrCtrl0 / 4]),
                              dmcCompleted)
      ensures out.clear.None? ==> bank.State() == old(bank.State())
      ensures out.clear.Some? ==>
                bank.State() == Apply(old(bank.State()), Write(o.intrCtrl0, 0xFFFF_FFFF, out.clear.value))
    {
      var reg := bank.Readl(o.intrCtrl0);
      var active := Active(reg, mask);
      if Any(active) {
        bank.Writel(o.intrCtrl0, ClearWord(clrShift, reg, active));
      } else {
        return IsrOutcome(IrqNone, None, false, false, false);
      }
      var d := TestCauses(dspHold, lineFlag, fs, active, dmcCompleted);
      out := IsrOutcome(d.ret, Some(ClearWord(clrShift, reg, active)), d.dspHoldDone, d.dmcDone,
                        d.vblank);
    }

    /** vop_enable: nothing if the VOP is already enabled; otherwise the runtime-PM
        reference, the clocks and the IOMMU are taken (on failure the model drops the
        runtime-PM reference too), and on success the hardware gets back the shadow
        configuration and leaves standby. */
    method Enable(r: Power.EnableResults)
      requires Valid() && PowerOk()
      modifies this`isEnabled, this`power, bank.regs, bank.regsbak
      ensures Valid() && PowerOk()
      ensures old(isEnabled) ==> isEnabled && power == old(power) && bank.State() == old(bank.State())
      ensures !old(isEnabled) ==> isEnabled == Power.Succeeds(r) && power == Power.Enable(old(power), r)
      ensures !old(isEnabled) && !Power.Succeeds(r) ==> bank.State() == old(bank.State())
      ensures !old(isEnabled) && Power.Succeeds(r) ==>
                bank.State() == Apply(Bank(old(bank.regsbak[..]), old(bank.regsbak[..])), StandbyWrite(o, 0))
      ensures !old(isEnabled) && Power.Succeeds(r) ==> bank.regsbak[..] == bank.regs[..]
    {
      if isEnabled {
        return;
      }
      Power.EnableEffect(power, r);
      power := Power.Enable(power, r);
      if !Power.Succeeds(r) {
        return;
      }
      bank.RestoreFromShadow();
      isEnabled := true;
      ghost var b0 := bank.State();
      bank.SetReg(0, CtrlReg(o, Standby), 0);
      ApplyAllOne(b0, StandbyWrite(o, 0));
      ApplyAllKeepsMirror(b0, [StandbyWrite(o, 0)]);
    }

    /** vop_disable: nothing if the VOP is disabled; otherwise every window's pending update
        is waited for (its completion taken and given back), the VOP is put in standby and
        the references vop_enable took are dropped. */
    method Disable()
      requires Valid() && PowerOk()
      requires isEnabled ==> forall k :: 0 <= k < |wins| ==> wins[k].done > 0
      modifies wins, this`isEnabled, this`power, bank.regs, bank.regsbak
      ensures Valid() && PowerOk() && !isEnabled
      ensures forall k :: 0 <= k < |wins| ==> wins[k].Model() == old(wins[k].Model())
      ensures !old(isEnabled) ==> power == old(power) && bank.State() == old(bank.State())
      ensures old(isEnabled) ==> Power.Powered(old(power)) && power == Power.Disable(old(power))
      ensures old(isEnabled) ==> bank.State() == Apply(old(bank.State()), StandbyWrite(o, 1))
    {
      if !isEnabled {
        return;
      }
      ghost var m, ys, es := Snapshot();
      var i := 0;
      while i < |wins|
        invariant 0 <= i <= |wins|
        invariant forall k :: 0 <= k < |wins| ==> wins[k].Model() == m[k]
        modifies wins
      {
        label Before:
        wins[i].WaitForCompletion();
        wins[i].Complete();
        forall k | 0 <= k < |wins| && k != i
          ensures wins[k].Model() == old@Before(wins[k].Model())
        {
          assert wins[k] != wins[i];
        }
        i := i + 1;
      }
      bank.SetReg(0, CtrlReg(o, Standby), 1);
      isEnabled := false;
      power := Power.Disable(power);
    }
  }
}
