/** The pixel-format helpers of the VOP driver: which DRM formats each window accepts and how
    a DRM fourcc maps to the hardware's format code, red/blue swap and per-pixel alpha. */
module Formats {

  // DRM fourcc codes as drm_fourcc.h defines them:
  // fourcc_code(a, b, c, d) == a | b << 8 | c << 16 | d << 24.
  const XRGB8888: bv32 := 0x3432_5258  // 'X' 'R' '2' '4'
  const ARGB8888: bv32 := 0x3432_5241  // 'A' 'R' '2' '4'
  const XBGR8888: bv32 := 0x3432_4258  // 'X' 'B' '2' '4'
  const ABGR8888: bv32 := 0x3432_4241  // 'A' 'B' '2' '4'
  const RGB888: bv32 := 0x3432_4752    // 'R' 'G' '2' '4'
  const BGR888: bv32 := 0x3432_4742    // 'B' 'G' '2' '4'
  const RGB565: bv32 := 0x3631_4752    // 'R' 'G' '1' '6'
  const BGR565: bv32 := 0x3631_4742    // 'B' 'G' '1' '6'
  const NV12: bv32 := 0x3231_564e      // 'N' 'V' '1' '2'
  const NV16: bv32 := 0x3631_564e      // 'N' 'V' '1' '6'
  const NV24: bv32 := 0x3432_564e      // 'N' 'V' '2' '4'

  /** formats_01: the formats windows 0 and 1 advertise. */
  const Formats01: seq<bv32> :=
    [XRGB8888, ARGB8888, XBGR8888, ABGR8888, RGB888, BGR888, RGB565, BGR565, NV12, NV16, NV24]

  /** formats_234: the formats windows 2 and 3 advertise. */
  const Formats234: seq<bv32> :=
    [XRGB8888, ARGB8888, XBGR8888, ABGR8888, RGB888, BGR888, RGB565, BGR565]

  // enum vop_data_format: the hardware's format codes.
  const FmtArgb8888: int := 0
  const FmtRgb888: int := 1
  const FmtRgb565: int := 2
  const FmtYuv420sp: int := 4
  const FmtYuv422sp: int := 5
  const FmtYuv444sp: int := 6

  /** The Linux error number EINVAL. */
  const EINVAL: int := 22

  /** vop_convert_format read as a signed int, as its callers' `format < 0` tests intend:
      the hardware code of a format, or -EINVAL for one the VOP lacks.  Exactly the formats
      windows 0 and 1 advertise are accepted. */
  function ConvertFormat(f: bv32): (code: int)
    ensures code >= 0 <==> f in Formats01
    ensures code < 0 ==> code == -EINVAL
    ensures code >= 0 ==> code in {FmtArgb8888, FmtRgb888, FmtRgb565, FmtYuv420sp, FmtYuv422sp, FmtYuv444sp}
  {
    if f == XRGB8888 || f == ARGB8888 || f == XBGR8888 || f == ABGR8888 then FmtArgb8888
    else if f == RGB888 || f == BGR888 then FmtRgb888
    else if f == RGB565 || f == BGR565 then FmtRgb565
    else if f == NV12 then FmtYuv420sp
    else if f == NV16 then FmtYuv422sp
    else if f == NV24 then FmtYuv444sp
    else -EINVAL
  }

  /** What the compiled vop_convert_format returns.  enum vop_data_format has no negative
      enumerator, so the compiler gives it an unsigned 32-bit type, and the -EINVAL of an
      unsupported format becomes 2^32 - 22: a large non-negative code.  ConvertFormat is the
      signed reading the driver's `format < 0` test intends. */
  function ConvertFormatAsWritten(f: bv32): (e: bv32)
    ensures f in Formats01 ==> e as int == ConvertFormat(f)
    ensures f !in Formats01 ==> e == 0xFFFF_FFEA && e as int == 0x1_0000_0000 - EINVAL
  {
    if f == XRGB8888 || f == ARGB8888 || f == XBGR8888 || f == ABGR8888 then 0
    else if f == RGB888 || f == BGR888 then 1
    else if f == RGB565 || f == BGR565 then 2
    else if f == NV12 then 4
    else if f == NV16 then 5
    else if f == NV24 then 6
    else 0xFFFF_FFEA
  }

  /** is_yuv_support: the semi-planar YUV formats, which are exactly those the hardware
      codes as YUV. */
  function IsYuvSupport(f: bv32): (r: bool)
    ensures r <==> ConvertFormat(f) in {FmtYuv420sp, FmtYuv422sp, FmtYuv444sp}
    ensures r ==> f !in Formats234
  {
    f == NV12 || f == NV16 || f == NV24
  }

  /** is_alpha_support: formats with per-pixel alpha; all are 32-bit ARGB for the hardware and
      every window accepts them. */
  function IsAlphaSupport(f: bv32): (r: bool)
    ensures r ==> ConvertFormat(f) == FmtArgb8888
    ensures r ==> f in Formats234
  {
    f == ARGB8888 || f == ABGR8888
  }

  /** has_rb_swapped: formats stored blue-first, which the hardware reads with red and blue
      exchanged; all are RGB formats every window accepts. */
  function HasRbSwapped(f: bv32): (r: bool)
    ensures r ==> f in Formats234
    ensures r ==> ConvertFormat(f) in {FmtArgb8888, FmtRgb888, FmtRgb565}
  {
    f == XBGR8888 || f == ABGR8888 || f == BGR888 || f == BGR565
  }

  /** Windows 2 and 3 advertise a subset of what windows 0 and 1 do, and no YUV format, so
      they never need chroma registers. */
  lemma Formats234WithinFormats01(f: bv32)
    requires f in Formats234
    ensures f in Formats01 && !IsYuvSupport(f) && ConvertFormat(f) >= 0
  {
  }

  /** The hardware setting a commit programs for a format: code, red/blue swap, alpha. */
  function HardwareSetting(f: bv32): (int, bool, bool) {
    (ConvertFormat(f), HasRbSwapped(f), IsAlphaSupport(f))
  }

  /** Distinct advertised formats get distinct hardware settings: the format code, the
      red/blue swap bit and the alpha enable together identify the DRM format. */
  lemma HardwareSettingIdentifiesFormat(f: bv32, g: bv32)
    requires f in Formats01 && g in Formats01
    requires HardwareSetting(f) == HardwareSetting(g)
    ensures f == g
  {
  }

  // The DRM core's per-format geometry (drm_format_plane_cpp and the chroma subsampling
  // helpers), with the values drm_fourcc.c gives the formats above.

  /** drm_format_plane_cpp(f, 0): bytes per pixel of the first (RGB or luma) plane. */
  function Cpp0(f: bv32): nat {
    if f == XRGB8888 || f == ARGB8888 || f == XBGR8888 || f == ABGR8888 then 4
    else if f == RGB888 || f == BGR888 then 3
    else if f == RGB565 || f == BGR565 then 2
    else if f == NV12 || f == NV16 || f == NV24 then 1
    else 0
  }

  /** drm_format_plane_cpp(f, 1): bytes per sample pair of the interleaved CbCr plane. */
  function Cpp1(f: bv32): nat {
    if IsYuvSupport(f) then 2 else 0
  }

  /** drm_format_horz_chroma_subsampling. */
  function HSub(f: bv32): (r: nat)
    ensures r >= 1
  {
    if f == NV12 || f == NV16 then 2 else 1
  }

  /** drm_format_vert_chroma_subsampling. */
  function VSub(f: bv32): (r: nat)
    ensures r >= 1
  {
    if f == NV12 then 2 else 1
  }

  /** The hardware's YUV codes agree with the DRM core's subsampling: 4:2:0 halves both
      axes, 4:2:2 only the horizontal one, 4:4:4 neither; every accepted format has a
      non-empty first plane and exactly the YUV ones a second. */
  lemma SubsamplingMatchesCode(f: bv32)
    requires f in Formats01
    ensures ConvertFormat(f) == FmtYuv420sp <==> IsYuvSupport(f) && HSub(f) == 2 && VSub(f) == 2
    ensures ConvertFormat(f) == FmtYuv422sp <==> IsYuvSupport(f) && HSub(f) == 2 && VSub(f) == 1
    ensures ConvertFormat(f) == FmtYuv444sp <==> IsYuvSupport(f) && HSub(f) == 1 && VSub(f) == 1
    ensures Cpp0(f) > 0 && (Cpp1(f) > 0 <==> IsYuvSupport(f))
    ensures !IsYuvSupport(f) ==> HSub(f) == 1 && VSub(f) == 1
  {
  }
}
