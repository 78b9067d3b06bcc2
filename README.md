# Rockchip VOP plane-commit core, modelled in Dafny

This project models the core of the Rockchip VOP (video output processor) display driver,
`drivers/gpu/drm/rockchip/rockchip_drm_vop.c`. The model has six parts:

- **Register shadow layer** (`regs.dfy`, `layout.dfy`).
  - `vop_writel`, `vop_mask_write` and `vop_read_reg` run on a `RegBank` class. It holds:
    - the software shadow `regsbak`, an `array<bv32>`;
    - the written hardware registers `regs`, an `array<bv32>`;
    - the values the hardware is using, which is what `readl` returns;
    - a `cfg_done` flag.
  - Every sequence of masked writes is specified by the pure fold `Regs.ApplyAll`.
  - The register tables (`ctrl_data`, `win01_data`, `win23_data`, `win_full_scl`, `vop_init_reg_table`, `rk3288_vop_win_data`) keep the source's masks and shifts.
- **Pixel formats** (`formats.dfy`). The four format helpers and the two format lists.
- **Scaling** (`scaling.dfy`).
  - `scl_vop_cal_scale` is a function.
  - `scl_vop_cal_scl_fac` is specified as a list of scaler-field writes (a "plan"). The method `Scaling.CalSclFac` performs the writes on the bank and is proved equal to the plan.
- **Window commit state machine** (`plane.dfy`, `vop.dfy`).
  - `struct vop_win` is the class `Vop.VopWin`. Its fields:
    - `front_fb`, `pending_fb`, `pending_event`, `pending`, `pending_yrgb_mst` and `pending_uv_mst`;
    - the completion's count;
    - ghost bookkeeping of framebuffer references, vblank references and sent events.
  - `struct vop` is the class `Vop.Vop`. It owns the bank and the windows.
  - Each method is proved equal to a transition function of module `Plane`. The invariants of those functions are proved as lemmas:
    - the gate is held exactly while an update is pending;
    - each framebuffer is referenced once while in use and released when dropped.
- **Geometry** (`geometry.dfy`). The packed `act_info`, `dsp_info` and `dsp_st` words, the two-pixel alignment of YUV sources, and the luma and chroma start addresses.
- **CRTC and interrupt** (`crtc.dfy`, `power.dfy`).
  - The cause dispatch of `vop_isr`.
  - `vop_crtc_mode_fixup`.
  - The timing words of `vop_crtc_mode_set`, and their agreement with the line-flag line of `vop_line_flag_irq_enable`.
  - The reference counting of `vop_enable` and `vop_disable`.

Hardware latching is an explicit step, `Regs.RegBank.Vblank`. After a `cfg_done`, the written registers become what `readl` returns. The confirmation in `vop_win_pending_is_complete` reads these live values.

Locks, memory barriers and the threaded interrupt are flattened into sequential method calls. A `wait_for_completion` that would block is a precondition: the completion's count must be positive. The cursor plane does not wait (lines 1160-1161), so an update of window 3 has no such precondition.

Several things are not part of this model. They appear as parameters:

- **Header constants.** Register byte offsets, scaling helpers and constants, interrupt bits, and alpha-control words. They are defined in `rockchip_drm_vop.h`, which is not part of this model.
  - They become the datatypes `Layout.Offsets`, `Scaling.Helpers` and `Vop.Alpha`, and plain `bv32` parameters of `Crtc.Isr`.
  - No formula for them is invented.
- **Foreign calls.** Calls into the DRM core, the clock framework, runtime PM and the fence machinery become the status values they return (`Vop.Env`, `Power.EnableResults`).
- **DRM constants.** DRM fourcc codes and `DRM_MODE_FLAG_*` bits use their published values.

### Behaviour worth noting

- **Field reads.** Field reads do not come from the shadow: `vop_read_reg` calls `vop_readl`, which reads the hardware register (lines 400-409). `Regs.RegBank.ReadReg` reads the live value.
- **Enable failures.** A failed enable does not unwind everything: `vop_enable` keeps the runtime-PM reference on every error exit (lines 715-781); see Findings.
- **Scaler width limit.** A destination wider than 3840 does not make the commit fail. `scl_vop_cal_scl_fac` returns `void`: it writes no scaler field, and `vop_win_update_commit` goes on to program the rest of the window (lines 550-553, 961-968). `Scaling.PlanTooWide` and `Vop.Vop.WinUpdateCommit` state this.
- **Disabling a plane.** `vop_disable_plane` clears the enable bit and writes `cfg_done` even when the VOP is disabled (lines 1260-1268). `Vop.Vop.DisablePlane` does the same.
- **Unknown interrupt causes.** `vop_isr` returns `IRQ_NONE` when only causes other than dsp-hold, line-flag and frame-start are active (lines 1688, 1729-1732). `Crtc.Classify` says so.
- **The gate.** The completion is a counter (`done`), not a boolean. That is what `complete` and `wait_for_completion` maintain. The invariant `Plane.Inv` pins it to 1 while idle and 0 while an update is pending.

## Model

| member | source | states |
|---|---|---|
| Regs.SetField | drivers/gpu/drm/rockchip/rockchip_drm_vop.c:46-52 | REG_SET of a value that fits the mask leaves every bit outside mask << shift unchanged |
| Regs.ReadBack | drivers/gpu/drm/rockchip/rockchip_drm_vop.c:405-409 | vop_read_reg of a word after a REG_SET of a value that fits the field returns that value |
| Regs.ApplyEffect | drivers/gpu/drm/rockchip/rockchip_drm_vop.c:416-426 | a write with mask 0 changes nothing; otherwise shadow and hardware word offset>>2 both become (old & ~mask) \| v and no other word changes |
| Regs.ApplyAllUntouched | drivers/gpu/drm/rockchip/rockchip_drm_vop.c:416-438 | a word no non-zero-mask write touches keeps its shadow and hardware values through any sequence of writes |
| Regs.ApplyAllMirrors | drivers/gpu/drm/rockchip/rockchip_drm_vop.c:416-438 | every word a sequence of writes touched holds the same value in the shadow and in the hardware register |
| Regs.ApplyAllKeepsMirror | drivers/gpu/drm/rockchip/rockchip_drm_vop.c:394-438 | writes starting from a bank whose hardware equals its shadow keep the two equal |
| Regs.ApplyAllAppend | drivers/gpu/drm/rockchip/rockchip_drm_vop.c:416-438 | applying ws then vs is applying ws + vs, so register programs compose |
| Regs.RegBank.Writel | drivers/gpu/drm/rockchip/rockchip_drm_vop.c:394-398 | vop_writel puts v in both the hardware register and the shadow word offset>>2, a full-mask write |
| Regs.RegBank.MaskWrite | drivers/gpu/drm/rockchip/rockchip_drm_vop.c:416-438 | vop_mask_write(_relaxed) changes the bank exactly as one masked write does (no-op for mask 0) |
| Regs.RegBank.SetReg | drivers/gpu/drm/rockchip/rockchip_drm_vop.c:51-58 | REG_SET is the masked write of mask << shift and v << shift at base + offset |
| Regs.RegBank.Readl | drivers/gpu/drm/rockchip/rockchip_drm_vop.c:400-403 | vop_readl returns the value the hardware is using, not the shadow |
| Regs.RegBank.ReadReg | drivers/gpu/drm/rockchip/rockchip_drm_vop.c:405-409 | vop_read_reg returns (live word >> shift) & mask |
| Regs.RegBank.CfgDone | drivers/gpu/drm/rockchip/rockchip_drm_vop.c:411-414 | vop_cfg_done asks the hardware to take the written registers |
| Regs.RegBank.Vblank | drivers/gpu/drm/rockchip/rockchip_drm_vop.c:411-414 | at a frame start after cfg_done the written registers become what readl returns; without cfg_done nothing changes |
| Regs.RegBank.RestoreFromShadow | drivers/gpu/drm/rockchip/rockchip_drm_vop.c:751 | the memcpy in vop_enable makes every hardware register equal to its shadow word |
| Regs.RegBank.CaptureShadow | drivers/gpu/drm/rockchip/rockchip_drm_vop.c:1923 | the memcpy in vop_initial makes the shadow equal to what the hardware reads |
| Layout.WinFieldsFit | drivers/gpu/drm/rockchip/rockchip_drm_vop.c:302-332 | every win01_data and win23_data field mask, shifted, stays inside its 32-bit word |
| Layout.SclFieldsFit | drivers/gpu/drm/rockchip/rockchip_drm_vop.c:274-300 | every win_full_scl field mask, shifted, stays inside its 32-bit word |
| Layout.CtrlFieldsFit | drivers/gpu/drm/rockchip/rockchip_drm_vop.c:334-353 | every ctrl_data field mask, shifted, stays inside its 32-bit word |
| Formats.ConvertFormat | drivers/gpu/drm/rockchip/rockchip_drm_vop.c:453-477 | the signed reading the driver's `format < 0` test intends (corrected, see Findings): non-negative exactly for the 11 formats of formats_01, then one of the codes 0/1/2/4/5/6, and -EINVAL otherwise |
| Formats.ConvertFormatAsWritten | drivers/gpu/drm/rockchip/rockchip_drm_vop.c:144-150 | the value of the compiled function, whose enum has no negative enumerator and is unsigned: the hardware code for a format of formats_01, and 2^32 - 22 = 0xFFFFFFEA, a non-negative value, for any other |
| Formats.IsYuvSupport | drivers/gpu/drm/rockchip/rockchip_drm_vop.c:479-489 | true exactly when the hardware code is one of the three YUV codes; no such format is in formats_234 |
| Formats.IsAlphaSupport | drivers/gpu/drm/rockchip/rockchip_drm_vop.c:491-500 | a format with alpha has code VOP_FMT_ARGB8888 and every window accepts it |
| Formats.HasRbSwapped | drivers/gpu/drm/rockchip/rockchip_drm_vop.c:440-451 | a blue-first format is an RGB format every window accepts |
| Formats.Formats234WithinFormats01 | drivers/gpu/drm/rockchip/rockchip_drm_vop.c:263-272 | formats_234 is a subset of formats_01 with no YUV format, all convertible |
| Formats.HardwareSettingIdentifiesFormat | drivers/gpu/drm/rockchip/rockchip_drm_vop.c:929-932 | two advertised formats with the same (code, rb_swap, alpha) are the same format |
| Formats.SubsamplingMatchesCode | drivers/gpu/drm/rockchip/rockchip_drm_vop.c:540-544 | the YUV420/422/444 codes match the chroma subsampling (2x2, 2x1, 1x1) and exactly the YUV formats have a second plane |
| Scaling.CalScaleSpec | drivers/gpu/drm/rockchip/rockchip_drm_vop.c:502-531 | skip lines are stored exactly on a vertical down-scale with a pointer; no scaling gives the identity factor; up-scaling is bicubic except vertically with the bilinear filter; each factor is the helper's value cut to its low 16 bits, so it is below 2^16 |
| Scaling.SetupOf | drivers/gpu/drm/rockchip/rockchip_drm_vop.c:540-571 | the chroma sizes and lb_mode are u16, the chroma modes stay SCALE_NONE for RGB, is_yuv is is_yuv_support |
| Scaling.PlanShape | drivers/gpu/drm/rockchip/rockchip_drm_vop.c:550-603 | too wide: no write; widest line buffer with vertical scaling: only lb_mode; otherwise lb_mode first, then 9 luma writes and, for YUV only, 9 chroma writes |
| Scaling.PlanFields | drivers/gpu/drm/rockchip/rockchip_drm_vop.c:582-619 | every plan write carries the right filter (down modes bilinear, vsu bilinear for 3840x2/2560x4 else bicubic) and skip flag, and cbcr fields appear only for YUV |
| Scaling.LumaFilters | drivers/gpu/drm/rockchip/rockchip_drm_vop.c:599-603 | each luma write's filter field holds SCALE_DOWN_BIL or the chosen vsu_mode |
| Scaling.LumaFlags | drivers/gpu/drm/rockchip/rockchip_drm_vop.c:596-597 | the luma gt4/gt2 flags test the luma skip lines |
| Scaling.ChromaFilters | drivers/gpu/drm/rockchip/rockchip_drm_vop.c:614-618 | each chroma write's filter field holds SCALE_DOWN_BIL or the chosen vsu_mode |
| Scaling.ChromaFlags | drivers/gpu/drm/rockchip/rockchip_drm_vop.c:612-613 | the chroma gt4/gt2 flags test the chroma skip lines |
| Scaling.SkipFlagsOnlyWhenDownScaling | drivers/gpu/drm/rockchip/rockchip_drm_vop.c:592-613 | in the corrected plan a skip flag is set only on an axis that down-scales vertically by that many lines |
| Scaling.SkipFlagPlaces | drivers/gpu/drm/rockchip/rockchip_drm_vop.c:596-613 | in a full YUV plan vsd_yrgb_gt4 is write 3 and vsd_cbcr_gt2 write 13, testing the skip lines of their own plane |
| Scaling.StaleSkipReachesChroma | drivers/gpu/drm/rockchip/rockchip_drm_vop.c:608-613 | as written, a luma down-scale's skip lines set vsd_cbcr_gt2 for a chroma plane that is not down-scaled; the corrected plan clears it |
| Scaling.UninitialisedSkipReachesLuma | drivers/gpu/drm/rockchip/rockchip_drm_vop.c:548-597 | as written, vsd_yrgb_gt4 tests an uninitialised vskiplines when the luma does not down-scale; the corrected plan clears it |
| Scaling.LowerScl | drivers/gpu/drm/rockchip/rockchip_drm_vop.c:56-57 | each VOP_SCL_SET of a plan is the REG_SET of its scaler field at the window base, in bank when the fields are |
| Scaling.SclSet | drivers/gpu/drm/rockchip/rockchip_drm_vop.c:56-57 | one VOP_SCL_SET advances the bank by exactly the next write of the plan |
| Scaling.SetLumaFactors | drivers/gpu/drm/rockchip/rockchip_drm_vop.c:589-597 | the luma factors and skip flags leave the bank as the first 4 luma plan writes do |
| Scaling.SetLumaModes | drivers/gpu/drm/rockchip/rockchip_drm_vop.c:599-603 | the luma mode writes complete the 9 luma plan writes |
| Scaling.SetLuma | drivers/gpu/drm/rockchip/rockchip_drm_vop.c:589-603 | the luma half leaves the bank as its plan does |
| Scaling.SetChromaFactors | drivers/gpu/drm/rockchip/rockchip_drm_vop.c:605-613 | the chroma factors and skip flags leave the bank as the first 4 chroma plan writes do |
| Scaling.SetChromaModes | drivers/gpu/drm/rockchip/rockchip_drm_vop.c:614-618 | the chroma mode writes complete the 9 chroma plan writes |
| Scaling.SetChroma | drivers/gpu/drm/rockchip/rockchip_drm_vop.c:605-618 | the chroma half leaves the bank as its plan does |
| Scaling.SetPlanes | drivers/gpu/drm/rockchip/rockchip_drm_vop.c:589-619 | the luma writes, then the chroma writes for YUV, leave the bank as the plane writes of the plan do |
| Scaling.CalSclFac | drivers/gpu/drm/rockchip/rockchip_drm_vop.c:533-620 | scl_vop_cal_scl_fac leaves the bank exactly as the writes of Plan do, in order |
| Scaling.PlanTooWide | drivers/gpu/drm/rockchip/rockchip_drm_vop.c:550-553 | a destination wider than 3840 writes nothing, so the shadow is unchanged |
| Scaling.PlanRefused | drivers/gpu/drm/rockchip/rockchip_drm_vop.c:572-581 | the 3840x2 line buffer with luma or chroma vertical scaling writes only lb_mode |
| Scaling.PlanFull | drivers/gpu/drm/rockchip/rockchip_drm_vop.c:572-619 | otherwise lb_mode is written first and the plane writes follow |
| Geometry.PackRoundTrip | drivers/gpu/drm/rockchip/rockchip_drm_vop.c:943 | a packed word reads back as its two halves, each reduced to 16 bits |
| Geometry.PackFields | drivers/gpu/drm/rockchip/rockchip_drm_vop.c:943 | two halves already below 2^16 read back unchanged |
| Geometry.ActInfoRoundTrip | drivers/gpu/drm/rockchip/rockchip_drm_vop.c:941-943 | act_info reads back as height - 1 above width - 1 for sizes of 1 to 65536 pixels |
| Geometry.ActualSizeInPixels | drivers/gpu/drm/rockchip/rockchip_drm_vop.c:941-942 | actual_w and actual_h are the 16.16 source size in whole pixels |
| Geometry.DspInfoRoundTrip | drivers/gpu/drm/rockchip/rockchip_drm_vop.c:945-946 | dsp_info reads back as destination height - 1 above width - 1 |
| Geometry.DspStRoundTrip | drivers/gpu/drm/rockchip/rockchip_drm_vop.c:948-950 | dsp_st reads back as the destination position plus sync width and back porch on each axis |
| Geometry.AlignYuvEven | drivers/gpu/drm/rockchip/rockchip_drm_vop.c:1128-1137 | after alignment src.x1 >> 16 is even, x2 - x1 and the vertical range are unchanged, the start moved by at most one pixel, and aligning is idempotent |
| Geometry.YrgbOffsetLocates | drivers/gpu/drm/rockchip/rockchip_drm_vop.c:1139-1140 | the luma offset lies in line y, x * cpp bytes in |
| Geometry.UvOffsetLocates | drivers/gpu/drm/rockchip/rockchip_drm_vop.c:1154-1155 | the corrected chroma offset lies in chroma line y / vsub, x * bpp / hsub bytes in |
| Geometry.UvColumnExact | drivers/gpu/drm/rockchip/rockchip_drm_vop.c:1154 | on an even start pixel the chroma column is exactly sample x / 2 |
| Geometry.UvOffsetAsWrittenMidRow | drivers/gpu/drm/rockchip/rockchip_drm_vop.c:1155 | as written, an odd start line with vsub 2 lands half a pitch past the right chroma line |
| Geometry.UvOffsetOddLine | drivers/gpu/drm/rockchip/rockchip_drm_vop.c:1154-1155 | as written, NV12 from line 1 with pitch 1920 starts at 960; corrected it starts at 0 |
| Plane.Init | drivers/gpu/drm/rockchip/rockchip_drm_vop.c:1979-1981 | a fresh window is idle with its completion signalled once, which satisfies the invariant |
| Plane.NeedsVblankCases | drivers/gpu/drm/rockchip/rockchip_drm_vop.c:854-859 | an event always needs a vblank; without one, enabling a dark window does not and a shown window needs one exactly when its framebuffer changes |
| Plane.Complete | drivers/gpu/drm/rockchip/rockchip_drm_vop.c:973 | complete raises the completion's count by one |
| Plane.Wait | drivers/gpu/drm/rockchip/rockchip_drm_vop.c:1161 | wait_for_completion proceeds on a positive count and takes one |
| Plane.WinUpdateEffect | drivers/gpu/drm/rockchip/rockchip_drm_vop.c:874-905 | vop_win_update sends the pending event once, drops the old front reference, makes pending_fb front and clears it, and keeps the reference accounting exact |
| Plane.AcquireEffect | drivers/gpu/drm/rockchip/rockchip_drm_vop.c:1160-1161 | a plane update starts from a free gate: an idle window is waited for, and a cursor with an update still pending has that update replaced, its framebuffer and vblank reference released and its event sent |
| Plane.UpdatePlaneKeepsInv | drivers/gpu/drm/rockchip/rockchip_drm_vop.c:1160-1199 | an update from an idle window, or a cursor update from any window, keeps the invariant and withdraws no sent event |
| Plane.QueueKeepsInv | drivers/gpu/drm/rockchip/rockchip_drm_vop.c:1171-1197 | making fb pending, then committing or rolling back, keeps the invariant |
| Plane.UpdatePlaneFailure | drivers/gpu/drm/rockchip/rockchip_drm_vop.c:1162-1193 | an update fails exactly when the needed vblank_get or fence sync fails, and then keeps no framebuffer or vblank reference, leaves nothing pending and frees the gate |
| Plane.UpdatePlaneSuccess | drivers/gpu/drm/rockchip/rockchip_drm_vop.c:1162-1197 | a queued update keeps the front buffer and holds the gate with fb, event and address pending; an immediate one shows fb and frees the gate |
| Plane.DisablePlaneEffect | drivers/gpu/drm/rockchip/rockchip_drm_vop.c:1227-1258 | no CRTC: no change; it fails only when vblank_get fails on a shown window of a running VOP; a shown window of a running VOP is deferred, any other emptied at once; the invariant holds |
| Plane.ProcessPendingEffect | drivers/gpu/drm/rockchip/rockchip_drm_vop.c:1645-1670 | nothing unless pending and confirmed; then the event is sent once, the old front released once, pending_fb becomes front, the vblank reference is put and the gate freed |
| Plane.RunKeepsInv | drivers/gpu/drm/rockchip/rockchip_drm_vop.c:1160-1258 | any sequence of updates (a cursor update even while one is pending), disables and frames keeps the invariant, and sent events are never withdrawn |
| Plane.SyncFailurePutsWithoutGet | drivers/gpu/drm/rockchip/rockchip_drm_vop.c:1184-1193 | as written, a failed sync on a dark window puts a vblank reference never taken (count -1) |
| Plane.CursorFlipLeaks | drivers/gpu/drm/rockchip/rockchip_drm_vop.c:1160-1161 | as written, two cursor flips before a frame leave framebuffer 2 referenced with nothing showing it, and a vblank reference held |
| Plane.CursorMoveDriftsGate | drivers/gpu/drm/rockchip/rockchip_drm_vop.c:1160-1167 | as written, one cursor move needing no frame calls complete without having waited: the count becomes 2 and the invariant breaks |
| Plane.CursorMoveKeepsGate | drivers/gpu/drm/rockchip/rockchip_drm_vop.c:1160-1167 | corrected, the same cursor move leaves the count at 1 and the invariant holding |
| Plane.CursorSupersedes | drivers/gpu/drm/rockchip/rockchip_drm_vop.c:1160-1199 | a cursor update that finds one pending keeps the invariant, holds at most one vblank reference, sends the replaced event and no longer references the replaced framebuffer |
| Plane.CursorFlipsRelease | drivers/gpu/drm/rockchip/rockchip_drm_vop.c:1160-1199 | corrected, the two cursor flips release framebuffer 2 when 3 replaces it; after the frame only 3 is referenced and no vblank reference is held |
| Power.EnableEffect | drivers/gpu/drm/rockchip/rockchip_drm_vop.c:715-781 | with the runtime-PM put on error, a successful enable takes every reference and a failed one leaves every count as it was |
| Power.DisableUndoesEnable | drivers/gpu/drm/rockchip/rockchip_drm_vop.c:834-839 | vop_disable drops exactly what a successful vop_enable took |
| Power.EnableAsWrittenFailure | drivers/gpu/drm/rockchip/rockchip_drm_vop.c:715-781 | as written, every failing enable leaves the clocks and the IOMMU as they were but keeps one more runtime-PM reference |
| Power.HclkFailureLeaksPm | drivers/gpu/drm/rockchip/rockchip_drm_vop.c:715-725 | as written, an hclk failure leaves the usage count at 1; corrected it is 0 |
| Crtc.ModeFixupProgramsFrame | drivers/gpu/drm/rockchip/rockchip_drm_vop.c:1364-1373 | for an ordered mode, mode_fixup accepts exactly the progressive modes whose frame, as read back from the htotal_pw and vtotal_pw words mode_set writes, holds at least one dot |
| Crtc.PinPolBits | drivers/gpu/drm/rockchip/rockchip_drm_vop.c:1475-1477 | pin_pol has bit 3, bit 0 exactly for a non-negative hsync, bit 1 exactly for a non-negative vsync, and no other bit |
| Crtc.ConnectorEnable | drivers/gpu/drm/rockchip/rockchip_drm_vop.c:1461-1472 | eDP sets edp_en, HDMI-A hdmi_en, LVDS and every other connector rgb_en |
| Crtc.ModeValuesAt | drivers/gpu/drm/rockchip/rockchip_drm_vop.c:1461-1490 | the nine VOP_CTRL_SET field/value pairs of mode_set, in order |
| Crtc.HTimingRoundTrip | drivers/gpu/drm/rockchip/rockchip_drm_vop.c:1398-1402 | for an ordered mode htotal_pw reads back as htotal and sync width, hact_st_end as htotal - hsync_start and that plus hdisplay, within the line |
| Crtc.VTimingRoundTrip | drivers/gpu/drm/rockchip/rockchip_drm_vop.c:1403-1407 | likewise vtotal_pw and vact_st_end, within the frame |
| Crtc.LineFlagMatchesModeSet | drivers/gpu/drm/rockchip/rockchip_drm_vop.c:664 | the line-flag vact_end, cut to 16 bits, equals the u16 vact_end mode_set programs, for every mode |
| Crtc.LineFlagInFrame | drivers/gpu/drm/rockchip/rockchip_drm_vop.c:664 | for an ordered mode the line-flag line is vact_end and lies within vtotal |
| Crtc.DspStAgreesWithHactSt | drivers/gpu/drm/rockchip/rockchip_drm_vop.c:948 | when crtc->mode and the adjusted mode mode_set programs agree on htotal and hsync_start, dsp_stx is hact_st plus the destination column |
| Crtc.DspStAgreesWithVactSt | drivers/gpu/drm/rockchip/rockchip_drm_vop.c:949 | when they agree on vtotal and vsync_start, dsp_sty is vact_st plus the destination row |
| Crtc.TestCauses | drivers/gpu/drm/rockchip/rockchip_drm_vop.c:1707-1726 | the cause tests, each clearing its bit and setting ret, compute the reference dispatch |
| Crtc.Classify | drivers/gpu/drm/rockchip/rockchip_drm_vop.c:1688-1732 | IRQ_WAKE_THREAD exactly with frame-start, IRQ_HANDLED exactly with dsp-hold or line-flag and no frame-start, IRQ_NONE exactly with none |
| Crtc.DispatchSeesFrame | drivers/gpu/drm/rockchip/rockchip_drm_vop.c:1707-1726 | clearing the dsp-hold and line-flag bits does not hide a frame-start cause |
| Crtc.DispatchSeesLine | drivers/gpu/drm/rockchip/rockchip_drm_vop.c:1707-1720 | clearing the dsp-hold bit does not hide a line-flag cause |
| Crtc.IsrDspHold | drivers/gpu/drm/rockchip/rockchip_drm_vop.c:1707-1711 | dsp_hold_completion is completed exactly when the dsp-hold cause is set |
| Crtc.IsrDmc | drivers/gpu/drm/rockchip/rockchip_drm_vop.c:1713-1720 | dmc_completion is completed exactly when the line-flag cause is set and it is not already done |
| Crtc.IsrVblank | drivers/gpu/drm/rockchip/rockchip_drm_vop.c:1722-1726 | drm_handle_vblank runs exactly when the frame-start cause is set |
| Crtc.IsrClassification | drivers/gpu/drm/rockchip/rockchip_drm_vop.c:1683-1733 | for distinct causes inside INTR_MASK, vop_isr returns Classify of the causes set in the word read |
| Crtc.IsrClears | drivers/gpu/drm/rockchip/rockchip_drm_vop.c:1694-1705 | INTR_CTRL0 is written back exactly when some bit of INTR_MASK is active |
| Vop.LowerWin | drivers/gpu/drm/rockchip/rockchip_drm_vop.c:54-55 | each VOP_WIN_SET is the REG_SET of its window field at the window base, in bank when the fields are |
| Vop.WinSet | drivers/gpu/drm/rockchip/rockchip_drm_vop.c:54-55 | one VOP_WIN_SET advances the bank by exactly the next write of the plan |
| Vop.WriteLuma | drivers/gpu/drm/rockchip/rockchip_drm_vop.c:954-956 | format code, luma stride in words and yrgb_mst are written as LumaPlan says |
| Vop.WriteChroma | drivers/gpu/drm/rockchip/rockchip_drm_vop.c:957-960 | for YUV only, uv_vir and uv_mst are written |
| Vop.WritePlacement | drivers/gpu/drm/rockchip/rockchip_drm_vop.c:966-969 | act_info, dsp_info, dsp_st and rb_swap are written from the packed words |
| Vop.WriteBlend | drivers/gpu/drm/rockchip/rockchip_drm_vop.c:975-988 | alpha formats get per-pixel blending, others src alpha off; then the enable bit is set |
| Vop.WriteFront | drivers/gpu/drm/rockchip/rockchip_drm_vop.c:954-964 | buffer writes, then the scaler plan only for windows with a scaler |
| Vop.WriteBack | drivers/gpu/drm/rockchip/rockchip_drm_vop.c:966-988 | placement, then blending and enable |
| Vop.WriteWindow | drivers/gpu/drm/rockchip/rockchip_drm_vop.c:954-988 | every register write of vop_win_update_commit, in order |
| Vop.CommitInBank | drivers/gpu/drm/rockchip/rockchip_drm_vop.c:954-988 | every commit write lands in a bank that holds the window's registers |
| Vop.EarlyReturnCases | drivers/gpu/drm/rockchip/rockchip_drm_vop.c:1104-1151 | with the format test read as signed (corrected, see Findings): an update reaches the window exactly when the check passes, it is visible, the format is in formats_01 and the needed GEM objects exist; an invisible update returns 0, the other early failures -EINVAL |
| Vop.EarlyReturnAsWrittenCases | drivers/gpu/drm/rockchip/rockchip_drm_vop.c:1104-1151 | as compiled, an update reaches the window exactly when the check passes, it is visible and the needed GEM objects exist, whatever its format; it differs from the signed reading exactly on a format outside formats_01 that passes the other checks |
| Vop.UnsupportedFormatReachesCommit | drivers/gpu/drm/rockchip/rockchip_drm_vop.c:1116-1118 | as compiled, a format outside formats_01 that passes the other checks is committed: the first commit write puts 0xFFFFFFD4 under mask 0xE of WIN0_CTRL0, and for every prior word the result shows format code 2, rb_swap 1, the two high lb_mode bits set and every bit outside enable, format, lb_mode and rb_swap set |
| Vop.YrgbStartLocates | drivers/gpu/drm/rockchip/rockchip_drm_vop.c:1139-1141 | yrgb_mst is the DMA address plus the offset of pixel (x1, y1) plus offsets[0], modulo 2^32 |
| Vop.TableWrites | drivers/gpu/drm/rockchip/rockchip_drm_vop.c:1925-1926 | one full-mask write per init-table entry, in order |
| Vop.DisableAllWrites | drivers/gpu/drm/rockchip/rockchip_drm_vop.c:1928-1931 | one enable := 0 write per window, in order |
| Vop.CtrlWriteAt | drivers/gpu/drm/rockchip/rockchip_drm_vop.c:58-59 | the k-th control write is the REG_SET of the k-th field and value at base 0 |
| Vop.InitInBank | drivers/gpu/drm/rockchip/rockchip_drm_vop.c:1925-1931 | every vop_initial write lands in the bank |
| Vop.VopWin.constructor | drivers/gpu/drm/rockchip/rockchip_drm_vop.c:1973-1981 | vop_win_init: the window is Plane.Init |
| Vop.VopWin.NeedsVblank | drivers/gpu/drm/rockchip/rockchip_drm_vop.c:854-859 | agrees with Plane.NeedsVblank on the window's state |
| Vop.VopWin.NeedsSync | drivers/gpu/drm/rockchip/rockchip_drm_vop.c:867-872 | agrees with Plane.NeedsSync on the window's state |
| Vop.VopWin.Complete | drivers/gpu/drm/rockchip/rockchip_drm_vop.c:973 | the window becomes Plane.Complete of its old state |
| Vop.VopWin.WaitForCompletion | drivers/gpu/drm/rockchip/rockchip_drm_vop.c:1161 | the window becomes Plane.Wait of its old state |
| Vop.VopWin.Supersede | drivers/gpu/drm/rockchip/rockchip_drm_vop.c:1160-1161 | the window becomes Plane.Superseded of its old state: the pending update is dropped with its references and its event sent |
| Vop.VopWin.Update | drivers/gpu/drm/rockchip/rockchip_drm_vop.c:874-905 | the window becomes Plane.WinUpdate of its old state |
| Vop.VopWin.MarkPending | drivers/gpu/drm/rockchip/rockchip_drm_vop.c:935-937 | only pending becomes true |
| Vop.VopWin.Prepare | drivers/gpu/drm/rockchip/rockchip_drm_vop.c:1171-1182 | the window becomes Plane.Prepared, keeping the framebuffer and rectangles for the commit |
| Vop.VopWin.Reference | drivers/gpu/drm/rockchip/rockchip_drm_vop.c:1171-1173 | a framebuffer reference (and the vblank reference when needed) is counted, fb and event become pending |
| Vop.VopWin.Record | drivers/gpu/drm/rockchip/rockchip_drm_vop.c:1179-1182 | the start addresses and rectangles are recorded |
| Vop.VopWin.Rollback | drivers/gpu/drm/rockchip/rockchip_drm_vop.c:1187-1192 | the window becomes Plane.RolledBack: nothing pending, references dropped, gate freed |
| Vop.VopWin.ClearYrgbMst | drivers/gpu/drm/rockchip/rockchip_drm_vop.c:1242 | only pending_yrgb_mst becomes 0 |
| Vop.VopWin.DeferDisable | drivers/gpu/drm/rockchip/rockchip_drm_vop.c:1247-1254 | a vblank reference is counted and the window becomes pending |
| Vop.VopWin.Retire | drivers/gpu/drm/rockchip/rockchip_drm_vop.c:1664-1669 | the window becomes Plane.ProcessPending of its old state with the update confirmed |
| Vop.Vop.constructor | drivers/gpu/drm/rockchip/rockchip_drm_vop.c:1968-1987 | one fresh window per descriptor, each Plane.Init; the shadow zeroed; the VOP disabled |
| Vop.Vop.WinUpdateCommit | drivers/gpu/drm/rockchip/rockchip_drm_vop.c:907-992 | the window becomes Plane.Commit of its old state, the bank ends as the commit writes of the pending buffer leave it, and cfg_done is set |
| Vop.Vop.ProgramWindow | drivers/gpu/drm/rockchip/rockchip_drm_vop.c:952-991 | the register half of the commit, followed by cfg_done |
| Vop.Vop.QueueUpdate | drivers/gpu/drm/rockchip/rockchip_drm_vop.c:1160-1199 | the window and return value are Plane.UpdatePlane's, the cursor never waiting; on success the bank holds the commit writes, on failure it is unchanged |
| Vop.Vop.PrepareAndCommit | drivers/gpu/drm/rockchip/rockchip_drm_vop.c:1171-1197 | the window and return value are Plane.Queue's; the bank as for QueueUpdate |
| Vop.Vop.UpdatePlaneEvent | drivers/gpu/drm/rockchip/rockchip_drm_vop.c:1057-1200 | an early return of the signed format test (`Vop.EarlyReturn`) changes nothing and returns its code; otherwise the window follows Plane.UpdatePlane (the cursor never waiting) with the aligned source and computed start addresses, and a success programs the commit writes |
| Vop.Vop.DisablePlane | drivers/gpu/drm/rockchip/rockchip_drm_vop.c:1227-1271 | the window follows Plane.DisablePlane; with a CRTC and success the enable bit is cleared and cfg_done set, otherwise the bank is unchanged |
| Vop.Vop.ClearEnable | drivers/gpu/drm/rockchip/rockchip_drm_vop.c:1265-1268 | the enable field is written 0, then cfg_done |
| Vop.Vop.PendingIsComplete | drivers/gpu/drm/rockchip/rockchip_drm_vop.c:1637-1643 | agrees with Plane.PendingIsComplete on the live yrgb_mst word and enable field |
| Vop.Vop.ReadYrgbMst | drivers/gpu/drm/rockchip/rockchip_drm_vop.c:64-65 | reads the window's live yrgb_mst word |
| Vop.Vop.ReadEnable | drivers/gpu/drm/rockchip/rockchip_drm_vop.c:61-62 | reads the window's live enable field |
| Vop.Vop.ProcessPending | drivers/gpu/drm/rockchip/rockchip_drm_vop.c:1645-1670 | the window becomes Plane.ProcessPending of its old state, confirmed by what the live registers read |
| Vop.Vop.IsrThread | drivers/gpu/drm/rockchip/rockchip_drm_vop.c:1672-1681 | every window is processed as ProcessPending says, and the result is IRQ_HANDLED |
| Vop.Vop.Initial | drivers/gpu/drm/rockchip/rockchip_drm_vop.c:1923-1950 | the shadow is captured from the hardware, then the init table and the window disables are written in order, cfg_done is set and the VOP is left disabled; shadow and hardware agree afterwards when the hardware registers read as they were written |
| Vop.Vop.WriteTable | drivers/gpu/drm/rockchip/rockchip_drm_vop.c:1925-1926 | the loop leaves the bank as the init-table writes do |
| Vop.Vop.WriteEntry | drivers/gpu/drm/rockchip/rockchip_drm_vop.c:1926 | one loop step adds exactly entry i's write |
| Vop.Vop.DisableAllWindows | drivers/gpu/drm/rockchip/rockchip_drm_vop.c:1928-1931 | the loop leaves the bank as the window disables do |
| Vop.Vop.DisableWindow | drivers/gpu/drm/rockchip/rockchip_drm_vop.c:1930 | one loop step adds exactly window j's enable write |
| Vop.Vop.CtrlSet | drivers/gpu/drm/rockchip/rockchip_drm_vop.c:58-59 | one VOP_CTRL_SET adds exactly the next control write |
| Vop.Vop.WriteOutput | drivers/gpu/drm/rockchip/rockchip_drm_vop.c:1461-1478 | the connector enable, out_mode and pin_pol writes |
| Vop.Vop.WriteTiming | drivers/gpu/drm/rockchip/rockchip_drm_vop.c:1480-1490 | total/sync width, then the same active word to st_end and post_st_end |
| Vop.Vop.WriteMode | drivers/gpu/drm/rockchip/rockchip_drm_vop.c:1461-1490 | the bank ends as the nine control writes of ModeValues leave it |
| Vop.Vop.ModeSet | drivers/gpu/drm/rockchip/rockchip_drm_vop.c:1392-1490 | the primary window is waited for and released unchanged, then the mode registers are written from the adjusted mode as ModeValues says; crtc->mode, from which later plane updates place windows, is the requested mode |
| Vop.Vop.Isr | drivers/gpu/drm/rockchip/rockchip_drm_vop.c:1694-1733 | the outcome is Crtc.Isr of the live INTR_CTRL0; the bank is unchanged when no cause is active and gets the one clearing write otherwise |
| Vop.Vop.Enable | drivers/gpu/drm/rockchip/rockchip_drm_vop.c:707-782 | enabled: no change; otherwise the power references follow Power.Enable, and on success the hardware is restored from the shadow and standby is cleared |
| Vop.Vop.Disable | drivers/gpu/drm/rockchip/rockchip_drm_vop.c:784-840 | disabled: no change; otherwise every window is waited for and released unchanged, standby is set, and the references vop_enable took are dropped |

## Left out

- Clock, reset, runtime-PM and IOMMU calls are foreign. Each is represented by the status it returns (`Power.EnableResults`). `vop_initial`'s clock lookups, prepares, AHB and dclk resets and their unwind are not modelled; `Vop.Vop.Initial` starts after the AHB reset.
- `dmc_notify`, the `vblank_time` computation and the DMC enable/disable bookkeeping. They depend on time and on an external clock rate.
- The `CONFIG_DRM_DMA_SYNC` fence path. Fences, the ww_mutex and the reservation callback are foreign.
  - `vop_win_update_sync` is represented by its return value.
  - When it succeeds, the model commits at once. It does not model the commit being deferred to the fence callback.
- Spinlocks, `smp_wmb`/`smp_rmb`, the blocking of `wait_for_completion` (a precondition here) and the concurrency of the threaded interrupt.
- DRM core helpers: `drm_plane_helper_check_update`, `rockchip_fb_get_gem_obj`, `drm_send_vblank_event`, `drm_vblank_get/put`, `drm_framebuffer_(un)reference`.
  - Their results are parameters (`Vop.Env`).
  - Their effects are ghost counts and a log of sent events.
- `DRM_ERROR`/`dev_err` logging, including the report of unknown interrupt causes.
- Probe, bind, unbind, CRTC creation and destruction, vblank enable/disable entry points, dpms, page flip and `vop_update_primary_plane`. These are outside this core.
- `vop_dsp_hold_valid_irq_enable/disable` and `vop_line_flag_irq_enable/disable`. Only the `vact_end` formula is modelled (`Crtc.LineFlagVactEnd`), because the interrupt bit constants are in the header that is not part of this model.
- Vop.Vop.Disable: does not model the two `INTR_CTRL0` masked writes around the standby write, for the same reason. Nor does it model the wait on `dsp_hold_completion`, `disable_irq` or `drm_vblank_off`.
- Vop.Vop.Enable: does not model `enable_irq`, `drm_vblank_on` or the DMC calls after the standby write. It follows the corrected `Power.Enable`, which drops the runtime-PM reference on every error exit; the code as written keeps it (see Findings).
- Vop.Vop.UpdatePlaneEvent: refuses a format outside formats_01 with -EINVAL, as the signed reading of `format < 0` intends; the compiled code never takes that exit and commits the format word 0xFFFFFFEA (see Findings, `Vop.UnsupportedFormatReachesCommit`). It computes the chroma start with the corrected `Geometry.UvOffset`, `(y / vsub) * pitch`, where the code as written computes `y * pitch / vsub` (see Findings). A cursor update that finds one pending follows the corrected `Plane.UpdatePlane`, not the code as written, and an idle cursor takes the completion before giving it back, where the code as written gives it back without taking it.
- Vop.EarlyReturnCases: states the signed format test, which the compiled code never takes because `enum vop_data_format` is unsigned; the compiled early returns are `Vop.EarlyReturnAsWritten` (see Findings).
- Formats.ConvertFormat: returns -EINVAL as a negative int for an unsupported format; the compiled function returns the unsigned 0xFFFFFFEA, which is `Formats.ConvertFormatAsWritten` (see Findings).
- Vop.Vop.QueueUpdate: follows the corrected `Plane.UpdatePlane`: a failed fence sync puts the vblank reference only when one was taken, a cursor update replacing a pending one releases it, and an idle cursor takes the completion before giving it back; the code as written does none of these (see Findings).
- Vop.Vop.PrepareAndCommit: follows the corrected `Plane.Queue`, which puts the vblank reference on a failed fence sync only when one was taken; the code as written puts it in every case (see Findings).
- Vop.Vop.ModeSet: models only the completion handshake and the register arithmetic. It does not model the dclk disable, reset and re-enable, the rate setting, `vop_crtc_mode_set_base` (a plane update of the primary window, modelled by `Vop.Vop.UpdatePlaneEvent`) or the DMC bookkeeping.
- Vop.Vop.Isr: the `vop_isr_ktime` timestamp is not modelled. The completions are reported as booleans in the outcome rather than kept as counters.
- Scaling.CalSclFac: reads `vskiplines` as 0 where no call stores it, which is the corrected behaviour (see Findings). The as-written value is `Scaling.PlanAsWritten`.
- Scaling helpers and constants of `rockchip_drm_vop.h` (`scl_get_scl_mode`, `scl_vop_cal_lb_mode`, `scl_get_vskiplines`, `scl_get_bili_dn_vskip`, `GET_SCL_FT_*`, `LB_*`, `SCALE_*`): they are the fields of `Scaling.Helpers` and no property of their values is assumed.
- Register byte offsets and the alpha macros of `rockchip_drm_vop.h` are parameters (`Layout.Offsets`, `Vop.Alpha`).
- The `pending_fence`/`fence` fields of `vop_win_update` belong to the fence path above.

## Findings

| source | as written | input that shows it | evidently intended | confidence | as-written member | corrected member |
|---|---|---|---|---|---|---|
| drivers/gpu/drm/rockchip/rockchip_drm_vop.c:608-613 | the chroma `scl_vop_cal_scale` call stores `vskiplines` only on a chroma vertical down-scale, so `vsd_cbcr_gt4/gt2` test the luma's value | NV12, source 1920x2160 shown at 1920x1080 with two skipped luma lines: chroma 960x1080 is not scaled vertically, yet `vsd_cbcr_gt2` is written 1 | a plane that does not down-scale vertically gets both skip flags 0 | medium, not executed | Scaling.StaleSkipReachesChroma | Scaling.SkipFlagsOnlyWhenDownScaling |
| drivers/gpu/drm/rockchip/rockchip_drm_vop.c:548-597 | `vskiplines` is uninitialised when the luma does not down-scale vertically, and `vsd_yrgb_gt4/gt2` test it | NV12 1920x1920 shown at 1920x1920 with 4 left on the stack: `vsd_yrgb_gt4` is written 1 | skip flags 0 without a vertical down-scale | medium, not executed | Scaling.UninitialisedSkipReachesLuma | Scaling.SkipFlagsOnlyWhenDownScaling |
| drivers/gpu/drm/rockchip/rockchip_drm_vop.c:1184-1193 | a failed fence sync calls `drm_vblank_put` even when `drm_vblank_get` was not called | an update of a window showing nothing, with no event, whose buffer has a reservation and whose sync fails: the window's vblank count goes to -1 | put back the vblank reference only when one was taken | high, not executed | Plane.SyncFailurePutsWithoutGet | Plane.UpdatePlaneFailure |
| drivers/gpu/drm/rockchip/rockchip_drm_vop.c:1160-1161 | the cursor plane skips `wait_for_completion` but still calls `complete`, and a second update overwrites a pending one | cursor showing fb 1, flipped to fb 2 and then to fb 3 before a frame: after the frame, fb 2 is still referenced, nothing shows it, and a vblank reference is still held; one cursor move already raises the count to 2 (Plane.CursorMoveDriftsGate) | the cursor never blocks, but an update that replaces a pending one releases its framebuffer and vblank reference and sends its event, and the gate stays a single token | medium, not executed | Plane.CursorFlipLeaks | Plane.CursorFlipsRelease |
| drivers/gpu/drm/rockchip/rockchip_drm_vop.c:1155 | the chroma line offset is `y * pitch / vsub`, multiplying before dividing | NV12 source clipped to start on luma line 1, chroma pitch 1920: the chroma start is 960 bytes into chroma line 0 instead of at its start | `(y / vsub) * pitch`, the start of chroma line y / vsub | medium, not executed | Geometry.UvOffsetAsWrittenMidRow | Geometry.UvOffsetLocates |
| drivers/gpu/drm/rockchip/rockchip_drm_vop.c:715-725 | `pm_runtime_get_sync` raises the usage count even when it fails, and no error exit of `vop_enable` calls `pm_runtime_put` | hclk fails to enable: the VOP stays disabled with a runtime-PM usage count of 1 that no `vop_disable` will drop | every error exit drops the runtime-PM reference | high, not executed | Power.HclkFailureLeaksPm | Power.EnableEffect |
| drivers/gpu/drm/rockchip/rockchip_drm_vop.c:1116-1118 | `enum vop_data_format` has no negative enumerator, so it is unsigned, `format < 0` never holds, and the -EINVAL of `vop_convert_format` reaches the commit as 0xFFFFFFEA | a primary-plane update through `vop_crtc_mode_set_base` with a DRM_FORMAT_YUYV framebuffer: the commit writes 0xFFFFFFD4 under mask 0xE of WIN0_CTRL0, setting rb_swap, lb_mode bits and every bit of the word outside its four fields | an unsupported format is refused with -EINVAL before the window is touched | high, not executed | Vop.UnsupportedFormatReachesCommit | Vop.EarlyReturnCases |

The corrected definitions are the ones the rest of the model uses:

- `Scaling.Plan` (vskiplines 0 where no call stores it).
- `Plane.UpdatePlane` (the cursor replaces a pending update instead of waiting; the vblank reference is put only when one was taken), used by `Vop.Vop.QueueUpdate`, `Vop.Vop.PrepareAndCommit` and `Vop.Vop.UpdatePlaneEvent`.
- `Geometry.UvOffset`, used by `Vop.UvStart`.
- `Vop.EarlyReturn` (the signed format test), used by `Vop.Vop.UpdatePlaneEvent`.
- `Power.Enable`, used by `Vop.Vop.Enable`.
