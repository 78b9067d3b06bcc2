/** Scaling-factor programming of windows 0 and 1: scl_vop_cal_scale, which computes one
    16-bit scale factor, and scl_vop_cal_scl_fac, which classifies both axes of the luma and
    chroma planes, picks the line-buffer mode and writes the scaler fields through the
    register shadow.  The classification helpers, factor formulas and enum values come from
    rockchip_drm_vop.h, which is not part of this model: they are the fields of Helpers. */
module Scaling {
  import opened Regs
  import opened Wrappers
  import opened Layout
  import opened Formats

  /** enum scale_mode, as scl_get_scl_mode classifies an axis. */
  datatype ScaleMode = ScaleUp | ScaleDown | ScaleNone

  /** The vertical up-scaling filter (SCALE_UP_BIL or SCALE_UP_BIC).  scl_vop_cal_scale
      compares the 16-bit vsu_mode with SCALE_UP_BIL; the model compares the choice
      itself, which is the same when the two codes differ in their low 16 bits. */
  datatype VsuMode = UpBil | UpBic

  /** The header's helpers and constants.  Each factor function gives the helper's result
      as a register word; scl_vop_cal_scale keeps only its low 16 bits (see Trunc16). */
  datatype Helpers = Helpers(
    sclMode: (nat, nat) -> ScaleMode,           // scl_get_scl_mode(src, dst)
    lbMode: (nat, bool) -> bv32,                // scl_vop_cal_lb_mode(width, is_yuv)
    vskipLines: (nat, nat) -> int,              // scl_get_vskiplines(src, dst)
    biliDnVskip: (nat, nat, int) -> bv32,       // scl_get_bili_dn_vskip(src, dst, lines)
    ftBic: (nat, nat) -> bv32,                  // GET_SCL_FT_BIC(src, dst)
    ftBiliDn: (nat, nat) -> bv32,               // GET_SCL_FT_BILI_DN(src, dst)
    ftBiliUp: (nat, nat) -> bv32,               // GET_SCL_FT_BILI_UP(src, dst)
    fixpointShift: bv32,                        // SCL_FT_DEFAULT_FIXPOINT_SHIFT
    upCode: bv32, downCode: bv32, noneCode: bv32, // SCALE_UP, SCALE_DOWN, SCALE_NONE
    upBilCode: bv32, upBicCode: bv32,           // SCALE_UP_BIL, SCALE_UP_BIC
    downBilCode: bv32,                          // SCALE_DOWN_BIL
    lb3840x2: bv32, lb2560x4: bv32)             // LB_RGB_3840X2, LB_RGB_2560X4

  /** The register value of a scale mode, as the uint16_t the four scale-mode locals are. */
  function ModeCode(h: Helpers, m: ScaleMode): bv32 {
    Trunc16(match m
            case ScaleUp => h.upCode
            case ScaleDown => h.downCode
            case ScaleNone => h.noneCode)
  }

  /** vsu_mode is a uint16_t. */
  function VsuCode(h: Helpers, m: VsuMode): bv32 {
    Trunc16(if m == UpBil then h.upBilCode else h.upBicCode)
  }

  /** The identity factor 1 << SCL_FT_DEFAULT_FIXPOINT_SHIFT, as the uint16_t it is stored
      in: a shift of 16 or more leaves nothing. */
  function One(h: Helpers): bv32 {
    if h.fixpointShift < 16 then 1 << h.fixpointShift else 0
  }

  lemma OneBounded(h: Helpers)
    ensures One(h) < 0x1_0000
  {
  }

  /** What scl_vop_cal_scale returns, and the value it stores through vskiplines if any. */
  datatype Scaled = Scaled(factor: bv32, skip: Option<int>)

  /** The conversion to the uint16_t the factor is held in. */
  function Trunc16(x: bv32): (r: bv32)
    ensures r < 0x1_0000
  {
    x & 0xFFFF
  }

  lemma Trunc16Keeps(x: bv32)
    requires x < 0x1_0000
    ensures Trunc16(x) == x
  {
  }

  /** scl_vop_cal_scale; wantSkip says whether the caller passed a vskiplines pointer. */
  function CalScale(h: Helpers, mode: ScaleMode, src: nat, dst: nat, horizontal: bool,
                    vsu: VsuMode, wantSkip: bool): Scaled
  {
    if horizontal then
      if mode == ScaleUp then Scaled(Trunc16(h.ftBic(src, dst)), None)
      else if mode == ScaleDown then Scaled(Trunc16(h.ftBiliDn(src, dst)), None)
      else Scaled(Trunc16(One(h)), None)
    else if mode == ScaleUp then
      if vsu == UpBil then Scaled(Trunc16(h.ftBiliUp(src, dst)), None)
      else Scaled(Trunc16(h.ftBic(src, dst)), None)
    else if mode == ScaleDown then
      if wantSkip then
        var lines := h.vskipLines(src, dst);
        Scaled(Trunc16(h.biliDnVskip(src, dst, lines)), Some(lines))
      else Scaled(Trunc16(h.ftBiliDn(src, dst)), None)
    else Scaled(Trunc16(One(h)), None)
  }

  /** What scl_vop_cal_scale promises: only a vertical down-scale with a pointer stores skip
      lines, and the factor follows the mode and the filter. */
  lemma CalScaleSpec(h: Helpers, mode: ScaleMode, src: nat, dst: nat, horizontal: bool,
                     vsu: VsuMode, wantSkip: bool)
    ensures var r := CalScale(h, mode, src, dst, horizontal, vsu, wantSkip);
      // the horizontal path never stores skip lines
      && (r.skip.Some? <==> !horizontal && mode == ScaleDown && wantSkip)
      && (r.skip.Some? ==> r.skip.value == h.vskipLines(src, dst)
                           && r.factor == Trunc16(h.biliDnVskip(src, dst, r.skip.value)))
      // an axis that is not scaled gets the identity factor
      && (mode == ScaleNone ==> r.factor == One(h))
      // up-scaling is bicubic except vertically with the bilinear filter chosen
      && (mode == ScaleUp ==>
            r.factor == Trunc16(if !horizontal && vsu == UpBil then h.ftBiliUp(src, dst)
                                else h.ftBic(src, dst)))
      && (mode == ScaleDown && r.skip.None? ==> r.factor == Trunc16(h.ftBiliDn(src, dst)))
      // the factor is held in a uint16_t
      && r.factor < 0x1_0000
  {
    OneBounded(h);
    Trunc16Keeps(One(h));
  }

  /** The widest destination the scaler takes. */
  const MaxDstWidth := 3840

  /** The choices scl_vop_cal_scl_fac makes before its first write. */
  datatype Setup = Setup(yuv: bool, cbcrW: nat, cbcrH: nat,
                         yHor: ScaleMode, yVer: ScaleMode, cHor: ScaleMode, cVer: ScaleMode,
                         lb: bv32)

  /** cbcr_src_w, cbcr_src_h and lb_mode are uint16_t; the chroma modes stay SCALE_NONE
      for RGB. */
  function SetupOf(h: Helpers, fmt: bv32, hsub: nat, vsub: nat,
                   srcW: nat, srcH: nat, dstW: nat, dstH: nat): (s: Setup)
    requires hsub >= 1 && vsub >= 1
    ensures s.yuv == IsYuvSupport(fmt)
    ensures !s.yuv ==> s.cHor == ScaleNone && s.cVer == ScaleNone
    ensures s.cbcrW < 0x1_0000 && s.cbcrH < 0x1_0000 && s.lb < 0x1_0000
  {
    var yuv := IsYuvSupport(fmt);
    var cbcrW := (srcW / hsub) % 0x1_0000;
    var cbcrH := (srcH / vsub) % 0x1_0000;
    var yHor := h.sclMode(srcW, dstW);
    var yVer := h.sclMode(srcH, dstH);
    var cHor := if yuv then h.sclMode(cbcrW, dstW) else ScaleNone;
    var cVer := if yuv then h.sclMode(cbcrH, dstH) else ScaleNone;
    var lb := Trunc16(
      if yuv then h.lbMode(if cHor == ScaleDown then dstW else cbcrW, true)
      else h.lbMode(if yHor == ScaleDown then dstW else srcW, false));
    Setup(yuv, cbcrW, cbcrH, yHor, yVer, cHor, cVer, lb)
  }

  /** The widest line-buffer mode cannot scale vertically. */
  predicate RefusesVertical(h: Helpers, s: Setup) {
    s.lb == h.lb3840x2 && (s.yVer != ScaleNone || s.cVer != ScaleNone)
  }

  /** Bilinear vertical up-scaling for the two wide line-buffer modes, bicubic otherwise. */
  function VsuOf(h: Helpers, lb: bv32): VsuMode {
    if lb == h.lb3840x2 || lb == h.lb2560x4 then UpBil else UpBic
  }

  /** One VOP_SCL_SET: a scaler field and the value written to it. */
  datatype SclWrite = SclWrite(field: SclField, value: bv32)

  function Flag(b: bool): bv32 {
    if b then 1 else 0
  }

  /** The luma writes, from scale_yrgb_x to yrgb_vsu_mode, given the two scale factors and
      the skip lines the gt4/gt2 flags test. */
  function LumaWrites(h: Helpers, s: Setup, xFactor: bv32, yFactor: bv32, ySkip: int): (r: seq<SclWrite>)
    ensures |r| == 9
  {
    [SclWrite(ScaleYrgbX, xFactor),
     SclWrite(ScaleYrgbY, yFactor),
     SclWrite(VsdYrgbGt4, Flag(ySkip == 4)),
     SclWrite(VsdYrgbGt2, Flag(ySkip == 2)),
     SclWrite(YrgbHorSclMode, ModeCode(h, s.yHor)),
     SclWrite(YrgbVerSclMode, ModeCode(h, s.yVer)),
     SclWrite(YrgbHsdMode, h.downBilCode),
     SclWrite(YrgbVsdMode, h.downBilCode),
     SclWrite(YrgbVsuMode, VsuCode(h, VsuOf(h, s.lb)))]
  }

  /** The chroma writes, from scale_cbcr_x to cbcr_vsu_mode. */
  function ChromaWrites(h: Helpers, s: Setup, xFactor: bv32, yFactor: bv32, cSkip: int): (r: seq<SclWrite>)
    ensures |r| == 9
  {
    [SclWrite(ScaleCbcrX, xFactor),
     SclWrite(ScaleCbcrY, yFactor),
     SclWrite(VsdCbcrGt4, Flag(cSkip == 4)),
     SclWrite(VsdCbcrGt2, Flag(cSkip == 2)),
     SclWrite(CbcrHorSclMode, ModeCode(h, s.cHor)),
     SclWrite(CbcrVerSclMode, ModeCode(h, s.cVer)),
     SclWrite(CbcrHsdMode, h.downBilCode),
     SclWrite(CbcrVsdMode, h.downBilCode),
     SclWrite(CbcrVsuMode, VsuCode(h, VsuOf(h, s.lb)))]
  }

  /** The luma writes with the factors scl_vop_cal_scale computes for the luma plane. */
  function LumaOf(h: Helpers, s: Setup, srcW: nat, srcH: nat, dstW: nat, dstH: nat,
                  ySkip: int): seq<SclWrite> {
    LumaWrites(h, s, CalScale(h, s.yHor, srcW, dstW, true, UpBic, false).factor,
               CalScale(h, s.yVer, srcH, dstH, false, VsuOf(h, s.lb), true).factor, ySkip)
  }

  /** The chroma writes with the factors scl_vop_cal_scale computes for the chroma plane. */
  function ChromaOf(h: Helpers, s: Setup, dstW: nat, dstH: nat, cSkip: int): seq<SclWrite> {
    ChromaWrites(h, s, CalScale(h, s.cHor, s.cbcrW, dstW, true, UpBic, false).factor,
                 CalScale(h, s.cVer, s.cbcrH, dstH, false, VsuOf(h, s.lb), true).factor, cSkip)
  }

  /** The luma writes and, for YUV formats, the chroma writes. */
  function PlaneWrites(h: Helpers, s: Setup, srcW: nat, srcH: nat, dstW: nat, dstH: nat,
                       ySkip: int, cSkip: int): seq<SclWrite> {
    LumaOf(h, s, srcW, srcH, dstW, dstH, ySkip)
    + (if s.yuv then ChromaOf(h, s, dstW, dstH, cSkip) else [])
  }

  /** The writes of scl_vop_cal_scl_fac, given the skip lines the gt4/gt2 flags test. */
  function PlanWith(h: Helpers, s: Setup, srcW: nat, srcH: nat, dstW: nat, dstH: nat,
                    ySkip: int, cSkip: int): seq<SclWrite> {
    if dstW > MaxDstWidth then []
    else if RefusesVertical(h, s) then [SclWrite(LbMode, s.lb)]
    else [SclWrite(LbMode, s.lb)] + PlaneWrites(h, s, srcW, srcH, dstW, dstH, ySkip, cSkip)
  }

  /** The skip lines an axis computes: scl_get_vskiplines on a vertical down-scale. */
  function SkipOf(h: Helpers, mode: ScaleMode, src: nat, dst: nat): Option<int> {
    CalScale(h, mode, src, dst, false, UpBic, true).skip
  }

  function Or(o: Option<int>, otherwise: int): int {
    if o.Some? then o.value else otherwise
  }

  /** scl_vop_cal_scl_fac as written: the local vskiplines starts with whatever `garbage` the
      stack holds, the luma call overwrites it only on a vertical down-scale, and the chroma
      call only on a chroma vertical down-scale, so chroma otherwise tests the luma value. */
  function PlanAsWritten(h: Helpers, fmt: bv32, hsub: nat, vsub: nat,
                         srcW: nat, srcH: nat, dstW: nat, dstH: nat, garbage: int): seq<SclWrite>
    requires hsub >= 1 && vsub >= 1
  {
    var s := SetupOf(h, fmt, hsub, vsub, srcW, srcH, dstW, dstH);
    var ySkip := Or(SkipOf(h, s.yVer, srcH, dstH), garbage);
    PlanWith(h, s, srcW, srcH, dstW, dstH, ySkip, Or(SkipOf(h, s.cVer, s.cbcrH, dstH), ySkip))
  }

  /** scl_vop_cal_scl_fac as intended: an axis that does not down-scale vertically reports
      no skipped lines. */
  function Plan(h: Helpers, fmt: bv32, hsub: nat, vsub: nat,
                srcW: nat, srcH: nat, dstW: nat, dstH: nat): seq<SclWrite>
    requires hsub >= 1 && vsub >= 1
  {
    var s := SetupOf(h, fmt, hsub, vsub, srcW, srcH, dstW, dstH);
    PlanWith(h, s, srcW, srcH, dstW, dstH,
             Or(SkipOf(h, s.yVer, srcH, dstH), 0), Or(SkipOf(h, s.cVer, s.cbcrH, dstH), 0))
  }

  /** The shape of a plan: nothing for a too-wide destination, only the line-buffer mode
      when the widest mode meets vertical scaling, otherwise the line-buffer mode, nine luma
      writes and, for YUV formats only, nine chroma writes. */
  lemma PlanShape(h: Helpers, s: Setup, srcW: nat, srcH: nat, dstW: nat, dstH: nat,
                  ySkip: int, cSkip: int)
    ensures var p := PlanWith(h, s, srcW, srcH, dstW, dstH, ySkip, cSkip);
            && (dstW > MaxDstWidth ==> p == [])
            && (dstW <= MaxDstWidth && RefusesVertical(h, s) ==> p == [SclWrite(LbMode, s.lb)])
            && (dstW <= MaxDstWidth && !RefusesVertical(h, s) ==>
                  |p| == (if s.yuv then 19 else 10) && p[0] == SclWrite(LbMode, s.lb))
  {
    if dstW <= MaxDstWidth && !RefusesVertical(h, s) {
      var luma := LumaOf(h, s, srcW, srcH, dstW, dstH, ySkip);
      var chroma := if s.yuv then ChromaOf(h, s, dstW, dstH, cSkip) else [];
      assert PlanWith(h, s, srcW, srcH, dstW, dstH, ySkip, cSkip)
          == [SclWrite(LbMode, s.lb)] + luma + chroma;
    }
  }

  /** The down-scaling filter fields. */
  predicate IsDownFilter(f: SclField) {
    f == YrgbHsdMode || f == YrgbVsdMode || f == CbcrHsdMode || f == CbcrVsdMode
  }

  /** The filters a write of a plan carries: the down-scaling filters are always bilinear,
      and the vertical up-scaling filter is bilinear exactly for the two wide line-buffer
      modes. */
  predicate FiltersOk(h: Helpers, s: Setup, w: SclWrite) {
    && (IsDownFilter(w.field) ==> w.value == h.downBilCode)
    && (w.field == YrgbVsuMode || w.field == CbcrVsuMode ==>
          w.value == Trunc16(if s.lb == h.lb3840x2 || s.lb == h.lb2560x4 then h.upBilCode
                             else h.upBicCode))
  }

  /** The skip flags a write of a plan carries come from the skip lines of its plane. */
  predicate FlagsOk(ySkip: int, cSkip: int, w: SclWrite) {
    && (w.field == VsdYrgbGt4 ==> w.value == Flag(ySkip == 4))
    && (w.field == VsdYrgbGt2 ==> w.value == Flag(ySkip == 2))
    && (w.field == VsdCbcrGt4 ==> w.value == Flag(cSkip == 4))
    && (w.field == VsdCbcrGt2 ==> w.value == Flag(cSkip == 2))
  }

  predicate Carries(h: Helpers, s: Setup, ySkip: int, cSkip: int, w: SclWrite) {
    FiltersOk(h, s, w) && FlagsOk(ySkip, cSkip, w)
  }

  lemma LumaNotChroma(h: Helpers, s: Setup, xFactor: bv32, yFactor: bv32, ySkip: int, k: nat)
    requires k < 9
    ensures !IsCbcr(LumaWrites(h, s, xFactor, yFactor, ySkip)[k].field)
  {
  }

  lemma LumaFilters(h: Helpers, s: Setup, xFactor: bv32, yFactor: bv32, ySkip: int, k: nat)
    requires k < 9
    ensures FiltersOk(h, s, LumaWrites(h, s, xFactor, yFactor, ySkip)[k])
  {
  }

  lemma LumaFlags(h: Helpers, s: Setup, xFactor: bv32, yFactor: bv32, ySkip: int, cSkip: int, k: nat)
    requires k < 9
    ensures FlagsOk(ySkip, cSkip, LumaWrites(h, s, xFactor, yFactor, ySkip)[k])
  {
  }

  lemma ChromaFilters(h: Helpers, s: Setup, xFactor: bv32, yFactor: bv32, cSkip: int, k: nat)
    requires k < 9
    ensures FiltersOk(h, s, ChromaWrites(h, s, xFactor, yFactor, cSkip)[k])
  {
  }

  lemma ChromaFlags(h: Helpers, s: Setup, xFactor: bv32, yFactor: bv32, ySkip: int, cSkip: int, k: nat)
    requires k < 9
    ensures FlagsOk(ySkip, cSkip, ChromaWrites(h, s, xFactor, yFactor, cSkip)[k])
  {
  }

  /** Every write of a plan carries what Carries says, and chroma fields appear only for
      YUV formats. */
  lemma PlanFields(h: Helpers, s: Setup, srcW: nat, srcH: nat, dstW: nat, dstH: nat,
                   ySkip: int, cSkip: int, k: nat)
    requires k < |PlanWith(h, s, srcW, srcH, dstW, dstH, ySkip, cSkip)|
    ensures var w := PlanWith(h, s, srcW, srcH, dstW, dstH, ySkip, cSkip)[k];
            (IsCbcr(w.field) ==> s.yuv) && Carries(h, s, ySkip, cSkip, w)
  {
    var p := PlanWith(h, s, srcW, srcH, dstW, dstH, ySkip, cSkip);
    if dstW <= MaxDstWidth && !RefusesVertical(h, s) && k > 0 {
      var luma := LumaOf(h, s, srcW, srcH, dstW, dstH, ySkip);
      var chroma := if s.yuv then ChromaOf(h, s, dstW, dstH, cSkip) else [];
      assert p == [SclWrite(LbMode, s.lb)] + luma + chroma;
      if k <= 9 {
        assert p[k] == luma[k - 1];
        var xf := CalScale(h, s.yHor, srcW, dstW, true, UpBic, false).factor;
        var yf := CalScale(h, s.yVer, srcH, dstH, false, VsuOf(h, s.lb), true).factor;
        LumaNotChroma(h, s, xf, yf, ySkip, k - 1);
        LumaFilters(h, s, xf, yf, ySkip, k - 1);
        LumaFlags(h, s, xf, yf, ySkip, cSkip, k - 1);
      } else {
        assert p[k] == chroma[k - 10];
        var xf := CalScale(h, s.cHor, s.cbcrW, dstW, true, UpBic, false).factor;
        var yf := CalScale(h, s.cVer, s.cbcrH, dstH, false, VsuOf(h, s.lb), true).factor;
        ChromaFilters(h, s, xf, yf, cSkip, k - 10);
        ChromaFlags(h, s, xf, yf, ySkip, cSkip, k - 10);
      }
    }
  }

  /** With the skip lines of an axis that does not down-scale read as zero, a skip flag is
      set only on an axis that down-scales vertically by that many lines. */
  lemma SkipFlagsOnlyWhenDownScaling(h: Helpers, fmt: bv32, hsub: nat, vsub: nat,
                                     srcW: nat, srcH: nat, dstW: nat, dstH: nat, k: nat)
    requires hsub >= 1 && vsub >= 1
    requires k < |Plan(h, fmt, hsub, vsub, srcW, srcH, dstW, dstH)|
    ensures var w := Plan(h, fmt, hsub, vsub, srcW, srcH, dstW, dstH)[k];
            var s := SetupOf(h, fmt, hsub, vsub, srcW, srcH, dstW, dstH);
            && (w == SclWrite(VsdYrgbGt4, 1) ==> s.yVer == ScaleDown && h.vskipLines(srcH, dstH) == 4)
            && (w == SclWrite(VsdYrgbGt2, 1) ==> s.yVer == ScaleDown && h.vskipLines(srcH, dstH) == 2)
            && (w == SclWrite(VsdCbcrGt4, 1) ==> s.cVer == ScaleDown && h.vskipLines(s.cbcrH, dstH) == 4)
            && (w == SclWrite(VsdCbcrGt2, 1) ==> s.cVer == ScaleDown && h.vskipLines(s.cbcrH, dstH) == 2)
  {
    var s := SetupOf(h, fmt, hsub, vsub, srcW, srcH, dstW, dstH);
    PlanFields(h, s, srcW, srcH, dstW, dstH,
               Or(SkipOf(h, s.yVer, srcH, dstH), 0), Or(SkipOf(h, s.cVer, s.cbcrH, dstH), 0), k);
  }

  /** The skip flags of a full plan sit at fixed places: vsd_yrgb_gt4 third, vsd_cbcr_gt2
      fourteenth. */
  lemma SkipFlagPlaces(h: Helpers, s: Setup, srcW: nat, srcH: nat, dstW: nat, dstH: nat,
                       ySkip: int, cSkip: int)
    requires dstW <= MaxDstWidth && !RefusesVertical(h, s) && s.yuv
    ensures var p := PlanWith(h, s, srcW, srcH, dstW, dstH, ySkip, cSkip);
            |p| == 19 && p[3] == SclWrite(VsdYrgbGt4, Flag(ySkip == 4))
            && p[13] == SclWrite(VsdCbcrGt2, Flag(cSkip == 2))
  {
    var p := PlanWith(h, s, srcW, srcH, dstW, dstH, ySkip, cSkip);
    var luma := LumaOf(h, s, srcW, srcH, dstW, dstH, ySkip);
    var chroma := ChromaOf(h, s, dstW, dstH, cSkip);
    assert p == [SclWrite(LbMode, s.lb)] + luma + chroma;
    assert p[3] == luma[2];
    assert p[13] == chroma[3];
  }

  /** As written, an NV12 plane 1920 pixels wide and 2160 lines tall shown at 1920x1080
      down-scales its luma by two lines while its chroma (960x1080) is not scaled vertically;
      the chroma call leaves vskiplines alone, so vsd_cbcr_gt2 is set from the luma value,
      where the intended plan clears it. */
  lemma StaleSkipReachesChroma(h: Helpers, garbage: int)
    requires h.sclMode(960, 1920) == ScaleUp && Trunc16(h.lbMode(960, true)) != h.lb3840x2
    requires h.sclMode(2160, 1080) == ScaleDown && h.sclMode(1080, 1080) == ScaleNone
    requires h.vskipLines(2160, 1080) == 2
    ensures var p := PlanAsWritten(h, NV12, 2, 2, 1920, 2160, 1920, 1080, garbage);
            |p| == 19 && p[13] == SclWrite(VsdCbcrGt2, 1)
    ensures var p := Plan(h, NV12, 2, 2, 1920, 2160, 1920, 1080);
            |p| == 19 && p[13] == SclWrite(VsdCbcrGt2, 0)
  {
    var s := SetupOf(h, NV12, 2, 2, 1920, 2160, 1920, 1080);
    assert s.cbcrH == 1080 && s.cbcrW == 960;
    assert s.yuv && s.yVer == ScaleDown && s.cVer == ScaleNone && !RefusesVertical(h, s);
    assert SkipOf(h, s.yVer, 2160, 1080) == Some(2);
    assert SkipOf(h, s.cVer, 1080, 1080) == None;
    SkipFlagPlaces(h, s, 1920, 2160, 1920, 1080, 2, 2);
    SkipFlagPlaces(h, s, 1920, 2160, 1920, 1080, 2, 0);
  }

  /** As written, the same plane shown at 1920x1920 does not down-scale its luma, and
      vsd_yrgb_gt4 then tests whatever the uninitialised vskiplines holds. */
  lemma UninitialisedSkipReachesLuma(h: Helpers)
    requires h.sclMode(960, 1920) == ScaleUp && Trunc16(h.lbMode(960, true)) != h.lb3840x2
    requires h.sclMode(1920, 1920) == ScaleNone
    ensures var p := PlanAsWritten(h, NV12, 2, 2, 1920, 1920, 1920, 1920, 4);
            |p| == 19 && p[3] == SclWrite(VsdYrgbGt4, 1)
    ensures var p := Plan(h, NV12, 2, 2, 1920, 1920, 1920, 1920);
            |p| == 19 && p[3] == SclWrite(VsdYrgbGt4, 0)
  {
    var s := SetupOf(h, NV12, 2, 2, 1920, 1920, 1920, 1920);
    assert s.cbcrW == 960 && s.yuv && s.yVer == ScaleNone;
    assert SkipOf(h, s.yVer, 1920, 1920) == None;
    assert !RefusesVertical(h, s);
    var c := Or(SkipOf(h, s.cVer, s.cbcrH, 1920), 4);
    SkipFlagPlaces(h, s, 1920, 1920, 1920, 1920, 4, c);
    SkipFlagPlaces(h, s, 1920, 1920, 1920, 1920, 0, Or(SkipOf(h, s.cVer, s.cbcrH, 1920), 0));
  }

  /** The scaler words of a window lie in a bank of n words. */
  predicate SclInBank(o: Offsets, base: nat, n: nat) {
    forall f :: (base + SclReg(o, f).offset) / 4 < n
  }

  /** A plan lowered to register writes: each VOP_SCL_SET is a REG_SET of its field. */
  function LowerScl(base: nat, o: Offsets, p: seq<SclWrite>): (ws: seq<Write>)
    ensures |ws| == |p|
    ensures forall k :: 0 <= k < |p| ==> ws[k] == RegSet(base, SclReg(o, p[k].field), p[k].value)
    ensures forall n :: SclInBank(o, base, n) ==> AllInBank(n, ws)
    decreases |p|
  {
    if p == [] then []
    else
      var last := p[|p| - 1];
      LowerScl(base, o, p[..|p| - 1]) + [RegSet(base, SclReg(o, last.field), last.value)]
  }

  /** One VOP_SCL_SET: write i of the lowered plan ws, after writes 0..i have been done. */
  method SclSet(bank: RegBank, o: Offsets, base: nat, f: SclField, v: bv32,
                ghost p: seq<SclWrite>, ghost ws: seq<Write>, ghost s0: Bank, ghost i: nat)
    requires bank.Valid() && SclInBank(o, base, bank.regsbak.Length)
    requires ws == LowerScl(base, o, p) && i < |p| && p[i] == SclWrite(f, v)
    requires WellSized(s0) && |s0.shadow| == bank.regsbak.Length
    requires bank.State() == ApplyRange(s0, ws, 0, i)
    modifies bank.regsbak, bank.regs
    ensures bank.Valid()
    ensures bank.State() == ApplyRange(s0, ws, 0, i + 1)
  {
    bank.SetReg(base, SclReg(o, f), v);
  }

  /** The luma scale factors and skip-line flags of scl_vop_cal_scl_fac: writes 0 to 3 of
      the luma plan.  vskiplines reads zero unless the vertical call stores it. */
  method SetLumaFactors(bank: RegBank, o: Offsets, base: nat, h: Helpers, s: Setup,
                        srcW: nat, srcH: nat, dstW: nat, dstH: nat, vsu: VsuMode,
                        ghost luma: seq<SclWrite>, ghost ws: seq<Write>)
    requires bank.Valid()
    requires SclInBank(o, base, bank.regsbak.Length) && vsu == VsuOf(h, s.lb)
    requires luma == LumaOf(h, s, srcW, srcH, dstW, dstH, Or(SkipOf(h, s.yVer, srcH, dstH), 0))
    requires ws == LowerScl(base, o, luma)
    modifies bank.regsbak, bank.regs
    ensures bank.Valid()
    ensures bank.State() == ApplyRange(old(bank.State()), ws, 0, 4)
  {
    ghost var s0 := bank.State();
    var vskiplines := 0;
    var r := CalScale(h, s.yHor, srcW, dstW, true, UpBic, false);
    SclSet(bank, o, base, ScaleYrgbX, r.factor, luma, ws, s0, 0);
    r := CalScale(h, s.yVer, srcH, dstH, false, vsu, true);
    if r.skip.Some? {
      vskiplines := r.skip.value;
    }
    SclSet(bank, o, base, ScaleYrgbY, r.factor, luma, ws, s0, 1);
    SclSet(bank, o, base, VsdYrgbGt4, Flag(vskiplines == 4), luma, ws, s0, 2);
    SclSet(bank, o, base, VsdYrgbGt2, Flag(vskiplines == 2), luma, ws, s0, 3);
  }

  /** The luma scaling modes of scl_vop_cal_scl_fac: writes 4 to 8 of the luma plan. */
  method SetLumaModes(bank: RegBank, o: Offsets, base: nat, h: Helpers, s: Setup,
                      srcW: nat, srcH: nat, dstW: nat, dstH: nat, vsu: VsuMode,
                      ghost luma: seq<SclWrite>, ghost ws: seq<Write>, ghost s0: Bank)
    requires bank.Valid()
    requires SclInBank(o, base, bank.regsbak.Length) && vsu == VsuOf(h, s.lb)
    requires luma == LumaOf(h, s, srcW, srcH, dstW, dstH, Or(SkipOf(h, s.yVer, srcH, dstH), 0))
    requires ws == LowerScl(base, o, luma)
    requires WellSized(s0) && |s0.shadow| == bank.regsbak.Length
    requires bank.State() == ApplyRange(s0, ws, 0, 4)
    modifies bank.regsbak, bank.regs
    ensures bank.Valid()
    ensures bank.State() == ApplyRange(s0, ws, 0, 9)
  {
    SclSet(bank, o, base, YrgbHorSclMode, ModeCode(h, s.yHor), luma, ws, s0, 4);
    SclSet(bank, o, base, YrgbVerSclMode, ModeCode(h, s.yVer), luma, ws, s0, 5);
    SclSet(bank, o, base, YrgbHsdMode, h.downBilCode, luma, ws, s0, 6);
    SclSet(bank, o, base, YrgbVsdMode, h.downBilCode, luma, ws, s0, 7);
    SclSet(bank, o, base, YrgbVsuMode, VsuCode(h, vsu), luma, ws, s0, 8);
  }

  /** The luma half of scl_vop_cal_scl_fac, from scale_yrgb_x to yrgb_vsu_mode. */
  method SetLuma(bank: RegBank, o: Offsets, base: nat, h: Helpers, s: Setup,
                 srcW: nat, srcH: nat, dstW: nat, dstH: nat, vsu: VsuMode)
    requires bank.Valid()
    requires SclInBank(o, base, bank.regsbak.Length) && vsu == VsuOf(h, s.lb)
    modifies bank.regsbak, bank.regs
    ensures bank.Valid()
    ensures bank.State() == ApplyAll(old(bank.State()),
              LowerScl(base, o, LumaOf(h, s, srcW, srcH, dstW, dstH, Or(SkipOf(h, s.yVer, srcH, dstH), 0))))
  {
    ghost var s0 := bank.State();
    ghost var luma := LumaOf(h, s, srcW, srcH, dstW, dstH, Or(SkipOf(h, s.yVer, srcH, dstH), 0));
    ghost var ws := LowerScl(base, o, luma);
    SetLumaFactors(bank, o, base, h, s, srcW, srcH, dstW, dstH, vsu, luma, ws);
    SetLumaModes(bank, o, base, h, s, srcW, srcH, dstW, dstH, vsu, luma, ws, s0);
    ApplyRangeAll(s0, ws);
  }

  /** The chroma scale factors and skip-line flags: writes 0 to 3 of the chroma plan. */
  method SetChromaFactors(bank: RegBank, o: Offsets, base: nat, h: Helpers, s: Setup,
                          dstW: nat, dstH: nat, vsu: VsuMode,
                          ghost chroma: seq<SclWrite>, ghost ws: seq<Write>)
    requires bank.Valid()
    requires SclInBank(o, base, bank.regsbak.Length) && vsu == VsuOf(h, s.lb)
    requires chroma == ChromaOf(h, s, dstW, dstH, Or(SkipOf(h, s.cVer, s.cbcrH, dstH), 0))
    requires ws == LowerScl(base, o, chroma)
    modifies bank.regsbak, bank.regs
    ensures bank.Valid()
    ensures bank.State() == ApplyRange(old(bank.State()), ws, 0, 4)
  {
    ghost var s0 := bank.State();
    var vskiplines := 0;
    var r := CalScale(h, s.cHor, s.cbcrW, dstW, true, UpBic, false);
    SclSet(bank, o, base, ScaleCbcrX, r.factor, chroma, ws, s0, 0);
    r := CalScale(h, s.cVer, s.cbcrH, dstH, false, vsu, true);
    if r.skip.Some? {
      vskiplines := r.skip.value;
    }
    SclSet(bank, o, base, ScaleCbcrY, r.factor, chroma, ws, s0, 1);
    SclSet(bank, o, base, VsdCbcrGt4, Flag(vskiplines == 4), chroma, ws, s0, 2);
    SclSet(bank, o, base, VsdCbcrGt2, Flag(vskiplines == 2), chroma, ws, s0, 3);
  }

  /** The chroma scaling modes: writes 4 to 8 of the chroma plan. */
  method SetChromaModes(bank: RegBank, o: Offsets, base: nat, h: Helpers, s: Setup,
                        dstW: nat, dstH: nat, vsu: VsuMode,
                        ghost chroma: seq<SclWrite>, ghost ws: seq<Write>, ghost s0: Bank)
    requires bank.Valid()
    requires SclInBank(o, base, bank.regsbak.Length) && vsu == VsuOf(h, s.lb)
    requires chroma == ChromaOf(h, s, dstW, dstH, Or(SkipOf(h, s.cVer, s.cbcrH, dstH), 0))
    requires ws == LowerScl(base, o, chroma)
    requires WellSized(s0) && |s0.shadow| == bank.regsbak.Length
    requires bank.State() == ApplyRange(s0, ws, 0, 4)
    modifies bank.regsbak, bank.regs
    ensures bank.Valid()
    ensures bank.State() == ApplyRange(s0, ws, 0, 9)
  {
    SclSet(bank, o, base, CbcrHorSclMode, ModeCode(h, s.cHor), chroma, ws, s0, 4);
    SclSet(bank, o, base, CbcrVerSclMode, ModeCode(h, s.cVer), chroma, ws, s0, 5);
    SclSet(bank, o, base, CbcrHsdMode, h.downBilCode, chroma, ws, s0, 6);
    SclSet(bank, o, base, CbcrVsdMode, h.downBilCode, chroma, ws, s0, 7);
    SclSet(bank, o, base, CbcrVsuMode, VsuCode(h, vsu), chroma, ws, s0, 8);
  }

  /** The chroma half of scl_vop_cal_scl_fac, from scale_cbcr_x to cbcr_vsu_mode. */
  method SetChroma(bank: RegBank, o: Offsets, base: nat, h: Helpers, s: Setup,
                   dstW: nat, dstH: nat, vsu: VsuMode)
    requires bank.Valid()
    requires SclInBank(o, base, bank.regsbak.Length) && vsu == VsuOf(h, s.lb)
    modifies bank.regsbak, bank.regs
    ensures bank.Valid()
    ensures bank.State() == ApplyAll(old(bank.State()),
              LowerScl(base, o, ChromaOf(h, s, dstW, dstH, Or(SkipOf(h, s.cVer, s.cbcrH, dstH), 0))))
  {
    ghost var s0 := bank.State();
    ghost var chroma := ChromaOf(h, s, dstW, dstH, Or(SkipOf(h, s.cVer, s.cbcrH, dstH), 0));
    ghost var ws := LowerScl(base, o, chroma);
    SetChromaFactors(bank, o, base, h, s, dstW, dstH, vsu, chroma, ws);
    SetChromaModes(bank, o, base, h, s, dstW, dstH, vsu, chroma, ws, s0);
    ApplyRangeAll(s0, ws);
  }

  /** Lowering a plan distributes over concatenation. */
  lemma {:induction false} LowerSclAppend(base: nat, o: Offsets, p: seq<SclWrite>, q: seq<SclWrite>)
    ensures LowerScl(base, o, p + q) == LowerScl(base, o, p) + LowerScl(base, o, q)
    decreases |q|
  {
    if q == [] {
      assert p + q == p;
    } else {
      var last := q[|q| - 1];
      assert (p + q)[..|p + q| - 1] == p + q[..|q| - 1];
      LowerSclAppend(base, o, p, q[..|q| - 1]);
    }
  }

  /** The luma and chroma halves of scl_vop_cal_scl_fac, with the skip lines of an axis that
      does not down-scale read as zero. */
  method SetPlanes(bank: RegBank, o: Offsets, base: nat, h: Helpers, s: Setup,
                   srcW: nat, srcH: nat, dstW: nat, dstH: nat, vsu: VsuMode)
    requires bank.Valid()
    requires SclInBank(o, base, bank.regsbak.Length) && vsu == VsuOf(h, s.lb)
    modifies bank.regsbak, bank.regs
    ensures bank.Valid()
    ensures bank.State() == ApplyAll(old(bank.State()), LowerScl(base, o,
              PlaneWrites(h, s, srcW, srcH, dstW, dstH,
                          Or(SkipOf(h, s.yVer, srcH, dstH), 0), Or(SkipOf(h, s.cVer, s.cbcrH, dstH), 0))))
  {
    ghost var b0 := bank.State();
    ghost var luma := LumaOf(h, s, srcW, srcH, dstW, dstH, Or(SkipOf(h, s.yVer, srcH, dstH), 0));
    ghost var chroma :=
      if s.yuv then ChromaOf(h, s, dstW, dstH, Or(SkipOf(h, s.cVer, s.cbcrH, dstH), 0)) else [];
    SetLuma(bank, o, base, h, s, srcW, srcH, dstW, dstH, vsu);
    ghost var b1 := bank.State();
    if s.yuv {
      SetChroma(bank, o, base, h, s, dstW, dstH, vsu);
    }
    assert bank.State() == ApplyAll(b1, LowerScl(base, o, chroma));
    ApplyAllAppend(b0, LowerScl(base, o, luma), LowerScl(base, o, chroma));
    LowerSclAppend(base, o, luma, chroma);
  }

  /** scl_vop_cal_scl_fac, with vskiplines read as zero where no call stores it: the bank
      ends as the writes of Plan leave it, in that order. */
  method CalSclFac(bank: RegBank, o: Offsets, base: nat, h: Helpers, fmt: bv32,
                   hsub: nat, vsub: nat, srcW: nat, srcH: nat, dstW: nat, dstH: nat)
    requires bank.Valid() && hsub >= 1 && vsub >= 1
    requires SclInBank(o, base, bank.regsbak.Length)
    modifies bank.regsbak, bank.regs
    ensures bank.Valid()
    ensures bank.State() == ApplyAll(old(bank.State()),
                                     LowerScl(base, o, Plan(h, fmt, hsub, vsub, srcW, srcH, dstW, dstH)))
  {
    ghost var b0 := bank.State();
    if dstW > MaxDstWidth {
      PlanTooWide(h, fmt, hsub, vsub, srcW, srcH, dstW, dstH, base, o);
      assert ApplyAll(b0, []) == b0;
      return;
    }
    var s := SetupOf(h, fmt, hsub, vsub, srcW, srcH, dstW, dstH);
    bank.SetReg(base, SclReg(o, LbMode), s.lb);
    var vsu;
    if s.lb == h.lb3840x2 {
      if s.yVer != ScaleNone {
        PlanRefused(h, fmt, hsub, vsub, srcW, srcH, dstW, dstH, base, o);
        ApplyAllOne(b0, RegSet(base, SclReg(o, LbMode), s.lb));
        return;
      }
      if s.cVer != ScaleNone {
        PlanRefused(h, fmt, hsub, vsub, srcW, srcH, dstW, dstH, base, o);
        ApplyAllOne(b0, RegSet(base, SclReg(o, LbMode), s.lb));
        return;
      }
      vsu := UpBil;
    } else if s.lb == h.lb2560x4 {
      vsu := UpBil;
    } else {
      vsu := UpBic;
    }
    PlanFull(h, fmt, hsub, vsub, srcW, srcH, dstW, dstH, base, o);
    SetPlanes(bank, o, base, h, s, srcW, srcH, dstW, dstH, vsu);
    ApplyAllCons(b0, RegSet(base, SclReg(o, LbMode), s.lb), LowerScl(base, o,
      PlaneWrites(h, s, srcW, srcH, dstW, dstH,
                  Or(SkipOf(h, s.yVer, srcH, dstH), 0), Or(SkipOf(h, s.cVer, s.cbcrH, dstH), 0))));
  }

  /** A too-wide destination writes nothing. */
  lemma PlanTooWide(h: Helpers, fmt: bv32, hsub: nat, vsub: nat,
                    srcW: nat, srcH: nat, dstW: nat, dstH: nat, base: nat, o: Offsets)
    requires hsub >= 1 && vsub >= 1 && dstW > MaxDstWidth
    ensures LowerScl(base, o, Plan(h, fmt, hsub, vsub, srcW, srcH, dstW, dstH)) == []
  {
  }

  /** When the widest line-buffer mode meets vertical scaling, only the mode is written. */
  lemma PlanRefused(h: Helpers, fmt: bv32, hsub: nat, vsub: nat,
                    srcW: nat, srcH: nat, dstW: nat, dstH: nat, base: nat, o: Offsets)
    requires hsub >= 1 && vsub >= 1 && dstW <= MaxDstWidth
    requires RefusesVertical(h, SetupOf(h, fmt, hsub, vsub, srcW, srcH, dstW, dstH))
    ensures LowerScl(base, o, Plan(h, fmt, hsub, vsub, srcW, srcH, dstW, dstH))
         == [RegSet(base, SclReg(o, LbMode), SetupOf(h, fmt, hsub, vsub, srcW, srcH, dstW, dstH).lb)]
  {
  }

  /** Otherwise the line-buffer mode comes before the planes. */
  lemma PlanFull(h: Helpers, fmt: bv32, hsub: nat, vsub: nat,
                 srcW: nat, srcH: nat, dstW: nat, dstH: nat, base: nat, o: Offsets)
    requires hsub >= 1 && vsub >= 1 && dstW <= MaxDstWidth
    requires !RefusesVertical(h, SetupOf(h, fmt, hsub, vsub, srcW, srcH, dstW, dstH))
    ensures var s := SetupOf(h, fmt, hsub, vsub, srcW, srcH, dstW, dstH);
            LowerScl(base, o, Plan(h, fmt, hsub, vsub, srcW, srcH, dstW, dstH))
            == [RegSet(base, SclReg(o, LbMode), s.lb)]
               + LowerScl(base, o, PlaneWrites(h, s, srcW, srcH, dstW, dstH,
                                               Or(SkipOf(h, s.yVer, srcH, dstH), 0),
                                               Or(SkipOf(h, s.cVer, s.cbcrH, dstH), 0)))
  {
    var s := SetupOf(h, fmt, hsub, vsub, srcW, srcH, dstW, dstH);
    var planes := PlaneWrites(h, s, srcW, srcH, dstW, dstH,
                              Or(SkipOf(h, s.yVer, srcH, dstH), 0), Or(SkipOf(h, s.cVer, s.cbcrH, dstH), 0));
    LowerSclAppend(base, o, [SclWrite(LbMode, s.lb)], planes);
  }
}
