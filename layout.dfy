/** The register tables of the VOP driver: the field descriptors of the control block
    (ctrl_data), of windows 0/1 (win01_data) and 2/3 (win23_data), of the scaler
    (win_full_scl), the initial register table and the RK3288 window list.  The byte offsets
    of the registers are defined in rockchip_drm_vop.h, which is not part of this model, so
    they are a parameter here; masks and shifts are the source's. */
module Layout {
  import opened Regs
  import opened Formats

  /** Byte offsets of the registers the tables name. */
  datatype Offsets = Offsets(
    sysCtrl: nat, dspCtrl0: nat, dspCtrl1: nat, intrCtrl0: nat,
    win0Ctrl0: nat, win0Ctrl1: nat, win0Vir: nat, win0YrgbMst: nat, win0CbrMst: nat,
    win0ActInfo: nat, win0DspInfo: nat, win0DspSt: nat,
    win0SclFactorYrgb: nat, win0SclFactorCbr: nat,
    win0SrcAlphaCtrl: nat, win0DstAlphaCtrl: nat,
    win1Ctrl0: nat,
    win2Ctrl0: nat, win2DspInfo0: nat, win2DspSt0: nat, win2Mst0: nat, win2Vir0_1: nat,
    win2SrcAlphaCtrl: nat, win2DstAlphaCtrl: nat,
    win3Ctrl0: nat,
    dspHtotalHsEnd: nat, dspHactStEnd: nat, dspVtotalVsEnd: nat, dspVactStEnd: nat,
    postDspHactInfo: nat, postDspVactInfo: nat)

  /** The fields of struct vop_ctrl. */
  datatype CtrlField =
    | Standby | DataBlank | GateEn | MmuEn | RgbEn | EdpEn | HdmiEn | MipiEn | OutMode
    | DitherDown | DitherUp | PinPol
    | HtotalPw | HactStEnd | VtotalPw | VactStEnd | HpostStEnd | VpostStEnd

  /** ctrl_data. */
  function CtrlReg(o: Offsets, f: CtrlField): (r: Reg)
    ensures r.shift < 32
  {
    match f
    case Standby => Reg(o.sysCtrl, 0x1, 22)
    case GateEn => Reg(o.sysCtrl, 0x1, 23)
    case MmuEn => Reg(o.sysCtrl, 0x1, 20)
    case RgbEn => Reg(o.sysCtrl, 0x1, 12)
    case HdmiEn => Reg(o.sysCtrl, 0x1, 13)
    case EdpEn => Reg(o.sysCtrl, 0x1, 14)
    case MipiEn => Reg(o.sysCtrl, 0x1, 15)
    case DitherDown => Reg(o.dspCtrl1, 0xf, 1)
    case DitherUp => Reg(o.dspCtrl1, 0x1, 6)
    case DataBlank => Reg(o.dspCtrl0, 0x1, 19)
    case OutMode => Reg(o.dspCtrl0, 0xf, 0)
    case PinPol => Reg(o.dspCtrl0, 0xf, 4)
    case HtotalPw => Reg(o.dspHtotalHsEnd, 0x1fff_1fff, 0)
    case HactStEnd => Reg(o.dspHactStEnd, 0x1fff_1fff, 0)
    case VtotalPw => Reg(o.dspVtotalVsEnd, 0x1fff_1fff, 0)
    case VactStEnd => Reg(o.dspVactStEnd, 0x1fff_1fff, 0)
    case HpostStEnd => Reg(o.postDspHactInfo, 0x1fff_1fff, 0)
    case VpostStEnd => Reg(o.postDspVactInfo, 0x1fff_1fff, 0)
  }

  /** The fields of struct vop_scl_regs. */
  datatype SclField =
    | CbcrVsdMode | CbcrVsuMode | CbcrHsdMode | CbcrVerSclMode | CbcrHorSclMode
    | YrgbVsdMode | YrgbVsuMode | YrgbHsdMode | YrgbVerSclMode | YrgbHorSclMode
    | LineLoadMode | CbcrAxiGatherNum | YrgbAxiGatherNum
    | VsdCbcrGt2 | VsdCbcrGt4 | VsdYrgbGt2 | VsdYrgbGt4 | BicCoeSel
    | CbcrAxiGatherEn | YrgbAxiGatherEn
    | LbMode | ScaleYrgbX | ScaleYrgbY | ScaleCbcrX | ScaleCbcrY

  /** The scaler fields that program the chroma plane. */
  predicate IsCbcr(f: SclField) {
    || f.CbcrVsdMode? || f.CbcrVsuMode? || f.CbcrHsdMode? || f.CbcrVerSclMode? || f.CbcrHorSclMode?
    || f.VsdCbcrGt2? || f.VsdCbcrGt4? || f.ScaleCbcrX? || f.ScaleCbcrY?
    || f.CbcrAxiGatherNum? || f.CbcrAxiGatherEn?
  }

  /** win_full_scl. */
  function SclReg(o: Offsets, f: SclField): (r: Reg)
    ensures r.shift < 32
  {
    match f
    case CbcrVsdMode => Reg(o.win0Ctrl1, 0x1, 31)
    case CbcrVsuMode => Reg(o.win0Ctrl1, 0x1, 30)
    case CbcrHsdMode => Reg(o.win0Ctrl1, 0x3, 28)
    case CbcrVerSclMode => Reg(o.win0Ctrl1, 0x3, 26)
    case CbcrHorSclMode => Reg(o.win0Ctrl1, 0x3, 24)
    case YrgbVsdMode => Reg(o.win0Ctrl1, 0x1, 23)
    case YrgbVsuMode => Reg(o.win0Ctrl1, 0x1, 22)
    case YrgbHsdMode => Reg(o.win0Ctrl1, 0x3, 20)
    case YrgbVerSclMode => Reg(o.win0Ctrl1, 0x3, 18)
    case YrgbHorSclMode => Reg(o.win0Ctrl1, 0x3, 16)
    case LineLoadMode => Reg(o.win0Ctrl1, 0x1, 15)
    case CbcrAxiGatherNum => Reg(o.win0Ctrl1, 0x7, 12)
    case YrgbAxiGatherNum => Reg(o.win0Ctrl1, 0xf, 8)
    case VsdCbcrGt2 => Reg(o.win0Ctrl1, 0x1, 7)
    case VsdCbcrGt4 => Reg(o.win0Ctrl1, 0x1, 6)
    case VsdYrgbGt2 => Reg(o.win0Ctrl1, 0x1, 5)
    case VsdYrgbGt4 => Reg(o.win0Ctrl1, 0x1, 4)
    case BicCoeSel => Reg(o.win0Ctrl1, 0x3, 2)
    case CbcrAxiGatherEn => Reg(o.win0Ctrl1, 0x1, 1)
    case YrgbAxiGatherEn => Reg(o.win0Ctrl1, 0x1, 0)
    case LbMode => Reg(o.win0Ctrl0, 0x7, 5)
    case ScaleYrgbX => Reg(o.win0SclFactorYrgb, 0xffff, 0)
    case ScaleYrgbY => Reg(o.win0SclFactorYrgb, 0xffff, 16)
    case ScaleCbcrX => Reg(o.win0SclFactorCbr, 0xffff, 0)
    case ScaleCbcrY => Reg(o.win0SclFactorCbr, 0xffff, 16)
  }

  /** The fields of struct vop_win_phy. */
  datatype WinField =
    | Enable | Format | RbSwap | ActInfo | DspInfo | DspSt
    | YrgbMst | UvMst | YrgbVir | UvVir | DstAlphaCtl | SrcAlphaCtl

  /** The two window register layouts. */
  datatype WinPhy = Win01 | Win23

  /** win01_data and win23_data; a field win23_data leaves out is the zeroed descriptor. */
  function WinReg(phy: WinPhy, o: Offsets, f: WinField): (r: Reg)
    ensures r.shift < 32
  {
    match phy
    case Win01 =>
      (match f
       case Enable => Reg(o.win0Ctrl0, 0x1, 0)
       case Format => Reg(o.win0Ctrl0, 0x7, 1)
       case RbSwap => Reg(o.win0Ctrl0, 0x1, 12)
       case ActInfo => Reg(o.win0ActInfo, 0x1fff_1fff, 0)
       case DspInfo => Reg(o.win0DspInfo, 0x0fff_0fff, 0)
       case DspSt => Reg(o.win0DspSt, 0x1fff_1fff, 0)
       case YrgbMst => Reg(o.win0YrgbMst, 0xffff_ffff, 0)
       case UvMst => Reg(o.win0CbrMst, 0xffff_ffff, 0)
       case YrgbVir => Reg(o.win0Vir, 0x3fff, 0)
       case UvVir => Reg(o.win0Vir, 0x3fff, 16)
       case SrcAlphaCtl => Reg(o.win0SrcAlphaCtrl, 0xff, 0)
       case DstAlphaCtl => Reg(o.win0DstAlphaCtrl, 0xff, 0))
    case Win23 =>
      (match f
       case Enable => Reg(o.win2Ctrl0, 0x1, 0)
       case Format => Reg(o.win2Ctrl0, 0x7, 1)
       case RbSwap => Reg(o.win2Ctrl0, 0x1, 12)
       case DspInfo => Reg(o.win2DspInfo0, 0x0fff_0fff, 0)
       case DspSt => Reg(o.win2DspSt0, 0x1fff_1fff, 0)
       case YrgbMst => Reg(o.win2Mst0, 0xffff_ffff, 0)
       case YrgbVir => Reg(o.win2Vir0_1, 0x1fff, 0)
       case SrcAlphaCtl => Reg(o.win2SrcAlphaCtrl, 0xff, 0)
       case DstAlphaCtl => Reg(o.win2DstAlphaCtrl, 0xff, 0)
       case _ => Absent)
  }

  /** Only windows 0 and 1 have a scaler (win01_data.scl). */
  predicate HasScl(phy: WinPhy) {
    phy == Win01
  }

  /** The formats a layout advertises (data_formats). */
  function DataFormats(phy: WinPhy): seq<bv32> {
    if phy == Win01 then Formats01 else Formats234
  }

  /** enum drm_plane_type. */
  datatype PlaneType = Primary | Overlay | Cursor

  /** struct vop_win_data: register base, layout and plane type of one window. */
  datatype WinData = WinData(base: nat, phy: WinPhy, kind: PlaneType)

  /** rk3288_vop_win_data. */
  const Rk3288Wins: seq<WinData> := [
    WinData(0x00, Win01, Primary),
    WinData(0x40, Win01, Overlay),
    WinData(0x00, Win23, Overlay),
    WinData(0x50, Win23, Cursor)
  ]

  /** vop_init_reg_table: (offset, value) pairs written at initialisation. */
  function InitTable(o: Offsets): seq<(nat, bv32)> {
    [(o.sysCtrl, 0x00c0_0000), (o.dspCtrl0, 0x0000_0000),
     (o.win0Ctrl0, 0x0000_0080), (o.win1Ctrl0, 0x0000_0080),
     (o.win2Ctrl0, 0x0000_0010), (o.win3Ctrl0, 0x0000_0010)]
  }

  /** Every window descriptor lies inside its 32-bit word. */
  lemma WinFieldsFit(o: Offsets, phy: WinPhy, f: WinField)
    ensures Fits(WinReg(phy, o, f))
  {
  }

  /** Every scaler descriptor lies inside its 32-bit word. */
  lemma SclFieldsFit(o: Offsets, f: SclField)
    ensures Fits(SclReg(o, f))
  {
  }

  /** Every control descriptor lies inside its 32-bit word. */
  lemma CtrlFieldsFit(o: Offsets, f: CtrlField)
    ensures Fits(CtrlReg(o, f))
  {
  }

  /** The register words one VOP uses all lie in a bank of the given number of words. */
  predicate InBank(o: Offsets, wins: seq<WinData>, words: nat) {
    && (forall f :: (CtrlReg(o, f).offset) / 4 < words)
    && (forall i, f :: 0 <= i < |wins| ==> (wins[i].base + WinReg(wins[i].phy, o, f).offset) / 4 < words)
    && (forall i, f :: 0 <= i < |wins| ==> (wins[i].base + SclReg(o, f).offset) / 4 < words)
    && (forall k :: 0 <= k < |InitTable(o)| ==> InitTable(o)[k].0 / 4 < words)
    && o.intrCtrl0 / 4 < words
  }
}
