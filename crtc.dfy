/** The CRTC side of the VOP: the interrupt handler's classification of interrupt causes,
    the mode check of vop_crtc_mode_fixup and the timing words vop_crtc_mode_set and
    vop_line_flag_irq_enable program.  The u16 locals of vop_crtc_mode_set are written out as
    reductions modulo 2^16. */
module Crtc {
  import opened Wrappers
  import opened Layout
  import Geometry

  /** irqreturn_t. */
  datatype IrqReturn = IrqNone | IrqHandled | IrqWakeThread

  /** The DRM_MODE_FLAG_* bits the driver tests (include/uapi/drm/drm_mode.h). */
  const FlagNHsync: bv32 := 0x2
  const FlagNVsync: bv32 := 0x8
  const FlagInterlace: bv32 := 0x10

  /** vop_crtc_mode_fixup: a mode is refused when its horizontal or vertical total is zero
      or it is interlaced. */
  predicate ModeFixup(m: Geometry.DisplayMode) {
    !(m.htotal == 0 || m.vtotal == 0 || m.flags & FlagInterlace != 0)
  }

  /** A value stored in a u16. */
  function U16(x: int): (r: nat)
    ensures r < Geometry.Two16
  {
    x % Geometry.Two16
  }

  /** The u16 locals of vop_crtc_mode_set. */
  function HsyncLen(m: Geometry.DisplayMode): nat { U16(m.hsyncEnd - m.hsyncStart) }
  function HactSt(m: Geometry.DisplayMode): nat { U16(m.htotal - m.hsyncStart) }
  function HactEnd(m: Geometry.DisplayMode): nat { U16(HactSt(m) + U16(m.hdisplay)) }
  function VsyncLen(m: Geometry.DisplayMode): nat { U16(m.vsyncEnd - m.vsyncStart) }
  function VactSt(m: Geometry.DisplayMode): nat { U16(m.vtotal - m.vsyncStart) }
  function VactEnd(m: Geometry.DisplayMode): nat { U16(VactSt(m) + U16(m.vdisplay)) }

  /** The pin_pol value: bit 3 always, bit 0 for a positive horizontal sync, bit 1 for a
      positive vertical sync. */
  function PinPolarity(flags: bv32): bv32 {
    0x8 | (if flags & FlagNHsync != 0 then 0 else 1) | (if flags & FlagNVsync != 0 then 0 else 2)
  }

  /** pin_pol has bit 3 set, bit 0 set exactly when the horizontal sync is not negative,
      bit 1 set exactly when the vertical sync is not negative, and no other bit. */
  lemma PinPolBits(flags: bv32)
    ensures PinPolarity(flags) & 0x8 != 0
    ensures PinPolarity(flags) & 0x1 != 0 <==> flags & FlagNHsync == 0
    ensures PinPolarity(flags) & 0x2 != 0 <==> flags & FlagNVsync == 0
    ensures PinPolarity(flags) & !0xB == 0
  {
  }

  /** vop->connector_type, as far as vop_crtc_mode_set tells the kinds apart. */
  datatype Connector = Edp | HdmiA | Lvds | OtherConnector

  /** The output-enable bit vop_crtc_mode_set sets for a connector: eDP and HDMI have their
      own, LVDS and every other connector use the RGB output. */
  function ConnectorEnable(c: Connector): (f: CtrlField)
    ensures f == EdpEn <==> c == Edp
    ensures f == HdmiEn <==> c == HdmiA
    ensures f == RgbEn <==> c != Edp && c != HdmiA
  {
    match c
    case Edp => EdpEn
    case HdmiA => HdmiEn
    case _ => RgbEn
  }

  /** `(hi << 16) | lo` as the 32-bit register word. */
  function TimingWord(hi: int, lo: int): bv32 {
    Geometry.Pack(hi, lo) as bv32
  }

  /** The control-register values vop_crtc_mode_set writes, in the order it writes them. */
  function ModeValues(m: Geometry.DisplayMode, c: Connector, outMode: bv32): seq<(CtrlField, bv32)> {
    var h := TimingWord(HactSt(m), HactEnd(m));
    var v := TimingWord(VactSt(m), VactEnd(m));
    [(ConnectorEnable(c), 1), (OutMode, outMode), (PinPol, PinPolarity(m.flags)),
     (HtotalPw, TimingWord(U16(m.htotal), HsyncLen(m))),
     (HactStEnd, h), (HpostStEnd, h),
     (VtotalPw, TimingWord(U16(m.vtotal), VsyncLen(m))),
     (VactStEnd, v), (VpostStEnd, v)]
  }

  /** The nine writes of vop_crtc_mode_set, one by one. */
  lemma ModeValuesAt(m: Geometry.DisplayMode, c: Connector, outMode: bv32)
    ensures var vals := ModeValues(m, c, outMode);
            && |vals| == 9
            && vals[0] == (ConnectorEnable(c), 1) && vals[1] == (OutMode, outMode)
            && vals[2] == (PinPol, PinPolarity(m.flags))
            && vals[3] == (HtotalPw, TimingWord(U16(m.htotal), HsyncLen(m)))
            && vals[4] == (HactStEnd, TimingWord(HactSt(m), HactEnd(m)))
            && vals[5] == (HpostStEnd, TimingWord(HactSt(m), HactEnd(m)))
            && vals[6] == (VtotalPw, TimingWord(U16(m.vtotal), VsyncLen(m)))
            && vals[7] == (VactStEnd, TimingWord(VactSt(m), VactEnd(m)))
            && vals[8] == (VpostStEnd, TimingWord(VactSt(m), VactEnd(m)))
  {
  }

  /** A mode whose horizontal timing is ordered and fits in 16 bits: the active region ends
      before the sync pulse starts, and the pulse ends within the line. */
  predicate HOrdered(m: Geometry.DisplayMode) {
    0 <= m.hdisplay <= m.hsyncStart <= m.hsyncEnd <= m.htotal < Geometry.Two16
  }

  predicate VOrdered(m: Geometry.DisplayMode) {
    0 <= m.vdisplay <= m.vsyncStart <= m.vsyncEnd <= m.vtotal < Geometry.Two16
  }

  /** For an ordered mode the horizontal words read back as the line total and the sync
      width, and as the first and one-past-last active pixel counted from the sync start,
      the active region lying inside the line. */
  lemma HTimingRoundTrip(m: Geometry.DisplayMode)
    requires HOrdered(m)
    ensures HactSt(m) == m.htotal - m.hsyncStart
    ensures HactEnd(m) == HactSt(m) + m.hdisplay <= m.htotal
    ensures Geometry.Pack(U16(m.htotal), HsyncLen(m)) / Geometry.Two16 == m.htotal
    ensures Geometry.Pack(U16(m.htotal), HsyncLen(m)) % Geometry.Two16 == m.hsyncEnd - m.hsyncStart
    ensures Geometry.Pack(HactSt(m), HactEnd(m)) / Geometry.Two16 == m.htotal - m.hsyncStart
    ensures Geometry.Pack(HactSt(m), HactEnd(m)) % Geometry.Two16
         == m.htotal - m.hsyncStart + m.hdisplay
  {
    Geometry.PackFields(U16(m.htotal), HsyncLen(m));
    Geometry.PackFields(HactSt(m), HactEnd(m));
  }

  /** The vertical words likewise. */
  lemma VTimingRoundTrip(m: Geometry.DisplayMode)
    requires VOrdered(m)
    ensures VactSt(m) == m.vtotal - m.vsyncStart
    ensures VactEnd(m) == VactSt(m) + m.vdisplay <= m.vtotal
    ensures Geometry.Pack(U16(m.vtotal), VsyncLen(m)) / Geometry.Two16 == m.vtotal
    ensures Geometry.Pack(U16(m.vtotal), VsyncLen(m)) % Geometry.Two16 == m.vsyncEnd - m.vsyncStart
    ensures Geometry.Pack(VactSt(m), VactEnd(m)) / Geometry.Two16 == m.vtotal - m.vsyncStart
    ensures Geometry.Pack(VactSt(m), VactEnd(m)) % Geometry.Two16
         == m.vtotal - m.vsyncStart + m.vdisplay
  {
    Geometry.PackFields(U16(m.vtotal), VsyncLen(m));
    Geometry.PackFields(VactSt(m), VactEnd(m));
  }

  /** The dot clocks of one frame as the timing generator is programmed: the line total
      read back from the htotal_pw word times the frame total read back from vtotal_pw. */
  function FrameDots(m: Geometry.DisplayMode): int {
    (Geometry.Pack(U16(m.htotal), HsyncLen(m)) / Geometry.Two16)
    * (Geometry.Pack(U16(m.vtotal), VsyncLen(m)) / Geometry.Two16)
  }

  /** For an ordered mode, vop_crtc_mode_fixup accepts exactly the progressive modes whose
      programmed frame is not empty, so that every accepted mode scans out at least one
      dot per frame. */
  lemma ModeFixupProgramsFrame(m: Geometry.DisplayMode)
    requires HOrdered(m) && VOrdered(m)
    ensures ModeFixup(m) <==> FrameDots(m) > 0 && m.flags & FlagInterlace == 0
  {
    HTimingRoundTrip(m);
    VTimingRoundTrip(m);
    assert FrameDots(m) == m.htotal * m.vtotal;
    PositiveProduct(m.htotal, m.vtotal);
  }

  lemma PositiveProduct(a: int, b: int)
    requires a >= 0 && b >= 0
    ensures a * b > 0 <==> a != 0 && b != 0
  {
    if a != 0 && b != 0 {
      assert a * b >= b;
    }
  }

  /** The int vact_end of vop_line_flag_irq_enable. */
  function LineFlagVactEnd(m: Geometry.DisplayMode): int {
    m.vtotal - m.vsyncStart + m.vdisplay
  }

  /** The line-flag interrupt line agrees, in its low 16 bits, with the vact_end that
      vop_crtc_mode_set programs, whatever the mode: reducing each u16 step modulo 2^16
      gives the sum reduced once. */
  lemma {:induction false} LineFlagMatchesModeSet(m: Geometry.DisplayMode)
    ensures U16(LineFlagVactEnd(m)) == VactEnd(m)
  {
    var a := m.vtotal - m.vsyncStart;
    var b := m.vdisplay;
    ModSum(a, b);
  }

  /** (a mod 2^16 + b mod 2^16) mod 2^16 == (a + b) mod 2^16. */
  lemma ModSum(a: int, b: int)
    ensures (a % Geometry.Two16 + b % Geometry.Two16) % Geometry.Two16 == (a + b) % Geometry.Two16
  {
    var n := Geometry.Two16;
    var qa, ra := a / n, a % n;
    var qb, rb := b / n, b % n;
    assert a + b == (qa + qb) * n + (ra + rb);
    if ra + rb >= n {
      assert a + b == (qa + qb + 1) * n + (ra + rb - n);
    }
  }

  /** For an ordered mode, vact_end is the line number at which the active region ends,
      counted from the start of the vertical sync pulse, and lies within the frame. */
  lemma LineFlagInFrame(m: Geometry.DisplayMode)
    requires VOrdered(m)
    ensures LineFlagVactEnd(m) == VactEnd(m) <= m.vtotal
  {
    VTimingRoundTrip(m);
  }

  /** dsp_st is computed from crtc->mode, the timing from the adjusted mode mode_set
      programs.  When the two agree on the line total and the sync start, a window placed
      at x starts at the same column as the active region, shifted by x: dsp_stx is hact_st
      plus the destination column. */
  lemma DspStAgreesWithHactSt(dest: Geometry.Rect, mode: Geometry.DisplayMode,
                              adjusted: Geometry.DisplayMode)
    requires HOrdered(adjusted)
    requires mode.htotal == adjusted.htotal && mode.hsyncStart == adjusted.hsyncStart
    ensures Geometry.DspStX(dest, mode) == Geometry.U32(dest.x1 + HactSt(adjusted))
  {
    HTimingRoundTrip(adjusted);
  }

  /** The same for rows: when crtc->mode and the adjusted mode agree on the frame total and
      the vertical sync start, dsp_sty is vact_st plus the destination row. */
  lemma DspStAgreesWithVactSt(dest: Geometry.Rect, mode: Geometry.DisplayMode,
                              adjusted: Geometry.DisplayMode)
    requires VOrdered(adjusted)
    requires mode.vtotal == adjusted.vtotal && mode.vsyncStart == adjusted.vsyncStart
    ensures Geometry.DspStY(dest, mode) == Geometry.U32(dest.y1 + VactSt(adjusted))
  {
    VTimingRoundTrip(adjusted);
  }

  /** What vop_isr decides for one read of INTR_CTRL0. */
  datatype IsrOutcome = IsrOutcome(
    ret: IrqReturn,
    clear: Option<bv32>,     // the value written back to INTR_CTRL0, if any
    dspHoldDone: bool,       // dsp_hold_completion completed
    dmcDone: bool,           // dmc_completion completed (here)
    vblank: bool)            // drm_handle_vblank called

  /* The interrupt bits of INTR_CTRL0 are defined in the VOP header, which is not part of this
     model; they are parameters: the status mask `mask`, the cause bits `dspHold`,
     `lineFlag` and `fs`, and the shift `clrShift` from a status bit to its clear bit. */

  /** The word vop_isr writes back to clear the active causes. */
  function ClearWord(clrShift: bv5, reg: bv32, active: bv32): bv32 {
    reg | (active << (clrShift as bv32))
  }

  /** vop_isr on the value read from INTR_CTRL0, with dmc_completion done or not. */
  function Isr(mask: bv32, dspHold: bv32, lineFlag: bv32, fs: bv32, clrShift: bv5,
               reg: bv32, dmcCompleted: bool): IsrOutcome
  {
    var active := Active(reg, mask);
    if !Any(active) then IsrOutcome(IrqNone, None, false, false, false)
    else
      var d := Dispatch(dspHold, lineFlag, fs, active, dmcCompleted);
      IsrOutcome(d.ret, Some(ClearWord(clrShift, reg, active)), d.dspHoldDone, d.dmcDone, d.vblank)
  }

  /** `intr0_reg & INTR_MASK`. */
  function Active(reg: bv32, mask: bv32): bv32 {
    reg & mask
  }

  /** Some bit of the word is set. */
  predicate Any(x: bv32) {
    x != 0
  }

  /** The test `active_irqs & c` of one cause. */
  predicate Hit(active: bv32, c: bv32) {
    active & c != 0
  }

  /** active_irqs after the test of cause c: the cause bit cleared when it was set. */
  function Rest(active: bv32, c: bv32): bv32 {
    if Hit(active, c) then Clear(active, c) else active
  }

  /** `active_irqs &= ~c`. */
  function Clear(active: bv32, c: bv32): bv32 {
    active & !c
  }

  /** The cause tests of vop_isr, in order: dsp-hold completes dsp_hold_completion, line-flag
      completes dmc_completion unless it is done, frame-start handles the vblank and wakes
      the thread. */
  function Dispatch(dspHold: bv32, lineFlag: bv32, fs: bv32, active: bv32, dmcCompleted: bool)
    : IsrOutcome
  {
    var hold := Hit(active, dspHold);
    var a1 := Rest(active, dspHold);
    var line := Hit(a1, lineFlag);
    var a2 := Rest(a1, lineFlag);
    var frame := Hit(a2, fs);
    var ret := if frame then IrqWakeThread else if line || hold then IrqHandled else IrqNone;
    IsrOutcome(ret, None, hold, line && !dmcCompleted, frame)
  }

  /** The cause tests of vop_isr on active_irqs, each clearing its bit and setting the
      return value. */
  method TestCauses(dspHold: bv32, lineFlag: bv32, fs: bv32, active: bv32, dmcCompleted: bool)
    returns (out: IsrOutcome)
    ensures out == Dispatch(dspHold, lineFlag, fs, active, dmcCompleted)
  {
    var rest := active;
    var ret := IrqNone;
    var holdDone, dmcDone, vblank := false, false, false;
    if Hit(rest, dspHold) {
      holdDone := true;
      rest := Clear(rest, dspHold);
      ret := IrqHandled;
    }
    assert rest == Rest(active, dspHold) && holdDone == Hit(active, dspHold);
    ghost var a1 := rest;
    ghost var line := Hit(a1, lineFlag);
    if Hit(rest, lineFlag) {
      if !dmcCompleted {
        dmcDone := true;
      }
      rest := Clear(rest, lineFlag);
      ret := IrqHandled;
    }
    assert rest == Rest(a1, lineFlag) && dmcDone == (line && !dmcCompleted);
    assert ret == (if line || holdDone then IrqHandled else IrqNone);
    ghost var a2 := rest;
    if Hit(rest, fs) {
      vblank := true;
      rest := Clear(rest, fs);
      ret := IrqWakeThread;
    }
    assert vblank == Hit(a2, fs);
    out := IsrOutcome(ret, None, holdDone, dmcDone, vblank);
  }

  /** The three cause bits are distinct bits inside the status mask. */
  predicate Disjoint(mask: bv32, dspHold: bv32, lineFlag: bv32, fs: bv32) {
    && dspHold & lineFlag == 0 && dspHold & fs == 0 && lineFlag & fs == 0
    && dspHold & !mask == 0 && lineFlag & !mask == 0 && fs & !mask == 0
  }

  lemma MaskBits(reg: bv32, mask: bv32, c: bv32)
    requires c & !mask == 0
    ensures (reg & mask) & c == reg & c
  {
  }

  lemma ClearBits(x: bv32, c: bv32, d: bv32)
    requires c & d == 0
    ensures (x & !c) & d == x & d
  {
  }

  /** A cause inside the status mask is seen in the masked word as in the whole word. */
  lemma MaskKeeps(reg: bv32, mask: bv32, c: bv32)
    requires c & !mask == 0
    ensures Hit(reg & mask, c) == Hit(reg, c)
  {
    MaskBits(reg, mask, c);
  }

  /** Clearing one cause keeps a cause disjoint from it. */
  lemma RestKeeps(x: bv32, c: bv32, d: bv32)
    requires c & d == 0
    ensures Hit(Rest(x, c), d) == Hit(x, d)
  {
    if Hit(x, c) {
      ClearBits(x, c, d);
    }
  }

  /** The outcome vop_isr's tests amount to, as a reference: the thread is woken when the
      frame-start cause is set, otherwise the interrupt is handled when a dsp-hold or
      line-flag cause is set, and not handled when none is. */
  function Classify(hold: bool, line: bool, frame: bool): (r: IrqReturn)
    ensures r == IrqWakeThread <==> frame
    ensures r == IrqHandled <==> !frame && (hold || line)
    ensures r == IrqNone <==> !frame && !hold && !line
  {
    if frame then IrqWakeThread else if hold || line then IrqHandled else IrqNone
  }

  /** The frame-start test sees the frame-start cause as it is in active_irqs, though the
      two causes before it have been cleared. */
  lemma DispatchSeesFrame(dspHold: bv32, lineFlag: bv32, fs: bv32, active: bv32,
                          dmcCompleted: bool)
    requires dspHold & fs == 0 && lineFlag & fs == 0
    ensures Dispatch(dspHold, lineFlag, fs, active, dmcCompleted).vblank == Hit(active, fs)
  {
    RestKeeps(active, dspHold, fs);
    RestKeeps(Rest(active, dspHold), lineFlag, fs);
  }

  /** The line-flag test sees the line-flag cause as it is in active_irqs. */
  lemma DispatchSeesLine(dspHold: bv32, lineFlag: bv32, active: bv32)
    requires dspHold & lineFlag == 0
    ensures Hit(Rest(active, dspHold), lineFlag) == Hit(active, lineFlag)
  {
    RestKeeps(active, dspHold, lineFlag);
  }

  /** No cause is set in a zero word. */
  lemma ZeroMisses(c: bv32)
    ensures !Hit(0, c)
  {
  }

  /** dsp_hold_completion is completed exactly when the dsp-hold cause is set. */
  lemma IsrDspHold(mask: bv32, dspHold: bv32, lineFlag: bv32, fs: bv32, clrShift: bv5,
                  reg: bv32, dmcCompleted: bool)
    requires dspHold & !mask == 0
    ensures Isr(mask, dspHold, lineFlag, fs, clrShift, reg, dmcCompleted).dspHoldDone == Hit(reg, dspHold)
  {
    MaskKeeps(reg, mask, dspHold);
    ZeroMisses(dspHold);
  }

  /** dmc_completion is completed only when it was not done, and then exactly when the
      line-flag cause is set. */
  lemma IsrDmc(mask: bv32, dspHold: bv32, lineFlag: bv32, fs: bv32, clrShift: bv5,
                  reg: bv32, dmcCompleted: bool)
    requires dspHold & lineFlag == 0 && lineFlag & !mask == 0
    ensures Isr(mask, dspHold, lineFlag, fs, clrShift, reg, dmcCompleted).dmcDone == (Hit(reg, lineFlag) && !dmcCompleted)
  {
    MaskKeeps(reg, mask, lineFlag);
    DispatchSeesLine(dspHold, lineFlag, reg & mask);
    ZeroMisses(lineFlag);
  }

  /** drm_handle_vblank runs exactly when the frame-start cause is set. */
  lemma IsrVblank(mask: bv32, dspHold: bv32, lineFlag: bv32, fs: bv32, clrShift: bv5,
                  reg: bv32, dmcCompleted: bool)
    requires dspHold & fs == 0 && lineFlag & fs == 0 && fs & !mask == 0
    ensures Isr(mask, dspHold, lineFlag, fs, clrShift, reg, dmcCompleted).vblank == Hit(reg, fs)
  {
    MaskKeeps(reg, mask, fs);
    DispatchSeesFrame(dspHold, lineFlag, fs, reg & mask, dmcCompleted);
    ZeroMisses(fs);
  }

  /** For disjoint causes inside the mask, vop_isr's result is the reference classification
      of the causes set in the word read: IRQ_WAKE_THREAD exactly when the frame-start
      cause is set, IRQ_HANDLED exactly when a dsp-hold or line-flag cause but no
      frame-start cause is, and IRQ_NONE when none of the three is, even when other bits of
      the mask are set. */
  lemma IsrClassification(mask: bv32, dspHold: bv32, lineFlag: bv32, fs: bv32, clrShift: bv5,
                  reg: bv32, dmcCompleted: bool)
    requires Disjoint(mask, dspHold, lineFlag, fs)
    ensures Isr(mask, dspHold, lineFlag, fs, clrShift, reg, dmcCompleted).ret
         == Classify(Hit(reg, dspHold), Hit(reg, lineFlag), Hit(reg, fs))
  {
    var active := reg & mask;
    MaskKeeps(reg, mask, dspHold);
    MaskKeeps(reg, mask, lineFlag);
    MaskKeeps(reg, mask, fs);
    if active == 0 {
      ZeroMisses(dspHold);
      ZeroMisses(lineFlag);
      ZeroMisses(fs);
    } else {
      DispatchSeesFrame(dspHold, lineFlag, fs, active, dmcCompleted);
      DispatchSeesLine(dspHold, lineFlag, active);
    }
  }

  /** vop_isr writes INTR_CTRL0 back, to clear the causes, exactly when some bit of the mask
      is set. */
  lemma IsrClears(mask: bv32, dspHold: bv32, lineFlag: bv32, fs: bv32, clrShift: bv5,
                  reg: bv32, dmcCompleted: bool)
    ensures var o := Isr(mask, dspHold, lineFlag, fs, clrShift, reg, dmcCompleted);
            o.clear.Some? <==> reg & mask != 0
  {
  }
}
