/** Window geometry of vop_update_plane_event and vop_win_update_commit: the 16.16 fixed-point
    source rectangle, the packed act_info, dsp_info and dsp_st words, the two-pixel
    alignment of YUV sources and the start addresses of the luma and chroma planes.  C's
    unsigned 32-bit arithmetic is written out as a reduction modulo 2^32. */
module Geometry {

  const Two16: int := 0x1_0000
  const Two32: int := 0x1_0000_0000

  /** struct drm_rect; the source rectangle holds 16.16 fixed-point coordinates. */
  datatype Rect = Rect(x1: int, y1: int, x2: int, y2: int)

  /** A value converted to a 32-bit unsigned integer (two's complement wrap-around). */
  function U32(x: int): (r: nat)
    ensures r < Two32
  {
    x % Two32
  }

  /** x >> 16 on a signed int: an arithmetic shift, which rounds toward minus infinity. */
  function Shr16(x: int): int {
    x / Two16
  }

  /** C's % on int, which truncates toward zero. */
  function CRem(a: int, b: int): int
    requires b > 0
  {
    if a >= 0 then a % b else -((-a) % b)
  }

  /** (hi << 16) | (lo & 0xffff) kept as a 32-bit word. */
  function Pack(hi: int, lo: int): (r: nat)
    ensures r < Two32
  {
    U32(hi * Two16 + lo % Two16)
  }

  /** C's / on int, which truncates toward zero. */
  function CDiv(a: int, b: int): int
    requires b > 0
  {
    if a >= 0 then a / b else -((-a) / b)
  }

  /** struct drm_display_mode, the fields the window and timing registers use. */
  datatype DisplayMode = DisplayMode(
    hdisplay: int, hsyncStart: int, hsyncEnd: int, htotal: int,
    vdisplay: int, vsyncStart: int, vsyncEnd: int, vtotal: int,
    flags: bv32)

  /** The high and low halves of a packed word read back as the two values, each reduced to
      16 bits. */
  lemma PackRoundTrip(hi: int, lo: int)
    ensures Pack(hi, lo) / Two16 == hi % Two16
    ensures Pack(hi, lo) % Two16 == lo % Two16
  {
    var l := lo % Two16;
    var q := hi / Two16;
    var hr := hi % Two16;
    assert hi == q * Two16 + hr;
    assert hi * Two16 + l == q * Two32 + (hr * Two16 + l) by {
      assert hi * Two16 == (q * Two16 + hr) * Two16;
    }
    ModAddMultiple(hr * Two16 + l, q);
    DivModSplit(hr, l);
  }

  /** Two values that already fit in 16 bits read back unchanged. */
  lemma PackFields(hi: int, lo: int)
    requires 0 <= hi < Two16 && 0 <= lo < Two16
    ensures Pack(hi, lo) / Two16 == hi && Pack(hi, lo) % Two16 == lo
  {
    PackRoundTrip(hi, lo);
  }

  /** actual_w and actual_h: the source size in whole pixels, as unsigned ints. */
  function ActualW(src: Rect): nat {
    U32(Shr16(src.x2 - src.x1))
  }

  function ActualH(src: Rect): nat {
    U32(Shr16(src.y2 - src.y1))
  }

  /** The act_info word: height - 1 above width - 1. */
  function ActInfo(src: Rect): nat {
    Pack(ActualH(src) - 1, ActualW(src) - 1)
  }

  /** The dsp_info word: destination height - 1 above destination width - 1. */
  function DspInfo(dest: Rect): nat {
    Pack(dest.y2 - dest.y1 - 1, dest.x2 - dest.x1 - 1)
  }

  /** dsp_stx and dsp_sty: the destination position counted from the start of the sync
      pulse, that is shifted by the sync width and the back porch. */
  function DspStX(dest: Rect, m: DisplayMode): nat {
    U32(dest.x1 + m.htotal - m.hsyncStart)
  }

  function DspStY(dest: Rect, m: DisplayMode): nat {
    U32(dest.y1 + m.vtotal - m.vsyncStart)
  }

  /** The dsp_st word. */
  function DspSt(dest: Rect, m: DisplayMode): nat {
    Pack(DspStY(dest, m), DspStX(dest, m))
  }

  /** For a source of 1 to 65536 whole pixels on each axis, act_info reads back as the size
      minus one on each axis. */
  lemma ActInfoRoundTrip(src: Rect)
    requires 1 <= ActualW(src) <= Two16 && 1 <= ActualH(src) <= Two16
    ensures ActInfo(src) / Two16 == ActualH(src) - 1
    ensures ActInfo(src) % Two16 == ActualW(src) - 1
  {
    PackFields(ActualH(src) - 1, ActualW(src) - 1);
  }

  /** A source rectangle of a non-negative width and height below 2^31 has that size in whole
      pixels. */
  lemma ActualSizeInPixels(src: Rect)
    requires 0 <= src.x2 - src.x1 < Two32 / 2 && 0 <= src.y2 - src.y1 < Two32 / 2
    ensures ActualW(src) == (src.x2 - src.x1) / Two16
    ensures ActualH(src) == (src.y2 - src.y1) / Two16
  {
  }

  /** Likewise dsp_info for a destination of 1 to 65536 pixels on each axis. */
  lemma DspInfoRoundTrip(dest: Rect)
    requires 1 <= dest.x2 - dest.x1 <= Two16 && 1 <= dest.y2 - dest.y1 <= Two16
    ensures DspInfo(dest) / Two16 == dest.y2 - dest.y1 - 1
    ensures DspInfo(dest) % Two16 == dest.x2 - dest.x1 - 1
  {
    PackFields(dest.y2 - dest.y1 - 1, dest.x2 - dest.x1 - 1);
  }

  /** dsp_st reads back as the destination position plus the sync width and back porch, while
      those fit in 16 bits. */
  lemma DspStRoundTrip(dest: Rect, m: DisplayMode)
    requires 0 <= dest.x1 + m.htotal - m.hsyncStart < Two16
    requires 0 <= dest.y1 + m.vtotal - m.vsyncStart < Two16
    ensures DspSt(dest, m) / Two16 == dest.y1 + m.vtotal - m.vsyncStart
    ensures DspSt(dest, m) % Two16 == dest.x1 + m.htotal - m.hsyncStart
  {
    PackFields(DspStY(dest, m), DspStX(dest, m));
  }

  /** The source rectangle of a YUV framebuffer moved so that it starts on an even pixel:
      an odd start moves one pixel right (one pixel left when negative, as C's % truncates). */
  function AlignYuv(src: Rect): Rect {
    var val := CRem(Shr16(src.x1), 2);
    src.(x1 := src.x1 + val * Two16, x2 := src.x2 + val * Two16)
  }

  /** After alignment the start pixel is even, the width is unchanged, the vertical range is
      untouched and the start moved by at most one pixel; a non-negative start is rounded up
      to the next even pixel, and aligning twice changes nothing more. */
  lemma AlignYuvEven(src: Rect)
    ensures Shr16(AlignYuv(src).x1) % 2 == 0
    ensures AlignYuv(src).x2 - AlignYuv(src).x1 == src.x2 - src.x1
    ensures AlignYuv(src).y1 == src.y1 && AlignYuv(src).y2 == src.y2
    ensures -1 <= Shr16(AlignYuv(src).x1) - Shr16(src.x1) <= 1
    ensures src.x1 >= 0 ==> Shr16(AlignYuv(src).x1) == Shr16(src.x1) + Shr16(src.x1) % 2
    ensures AlignYuv(AlignYuv(src)) == AlignYuv(src)
  {
    var px := Shr16(src.x1);
    var val := CRem(px, 2);
    ShiftByPixels(src.x1, val);
    assert Shr16(AlignYuv(src).x1) == px + val;
    ShiftByPixels(AlignYuv(src).x1, 0);
  }

  /** Adding k whole pixels to a 16.16 coordinate adds k to its pixel part. */
  lemma ShiftByPixels(x: int, k: int)
    ensures Shr16(x + k * Two16) == Shr16(x) + k
  {
    DivModSplit(Shr16(x) + k, x % Two16);
    assert x + k * Two16 == (Shr16(x) + k) * Two16 + x % Two16;
  }

  /** Byte offset of pixel (x, y) of the first plane, cpp bytes per pixel and pitch bytes per
      line. */
  function YrgbOffset(x: int, y: int, cpp: nat, pitch: nat): int {
    x * cpp + y * pitch
  }

  /** A start address as the 32-bit register holds it: buffer base plus offset plus the
      framebuffer's own plane offset. */
  function PlaneStart(dmaAddr: nat, offset: int, fbOffset: nat): (r: nat)
    ensures r < Two32
  {
    U32(dmaAddr + offset + fbOffset)
  }

  /** The luma offset names pixel (x, y): it lies in line y, x * cpp bytes into the line. */
  lemma YrgbOffsetLocates(x: nat, y: nat, cpp: nat, pitch: nat)
    requires x * cpp < pitch
    ensures YrgbOffset(x, y, cpp, pitch) / pitch == y
    ensures YrgbOffset(x, y, cpp, pitch) % pitch == x * cpp
  {
    DivModUnique(y, x * cpp, pitch);
  }

  /** The chroma offset as the driver computes it: the line term multiplies before dividing
      by the vertical subsampling, in unsigned 32-bit arithmetic. */
  function UvOffsetAsWritten(x: int, y: int, bpp: nat, hsub: nat, vsub: nat, pitch: nat): int
    requires hsub >= 1 && vsub >= 1
  {
    CDiv(x * bpp, hsub) + U32(y * pitch) / vsub
  }

  /** The chroma offset of luma pixel (x, y): chroma line y / vsub. */
  function UvOffset(x: int, y: int, bpp: nat, hsub: nat, vsub: nat, pitch: nat): int
    requires hsub >= 1 && vsub >= 1
  {
    CDiv(x * bpp, hsub) + CDiv(y, vsub) * pitch
  }

  /** The corrected chroma offset lies in chroma line y / vsub, x * bpp / hsub bytes in. */
  lemma UvOffsetLocates(x: nat, y: nat, bpp: nat, hsub: nat, vsub: nat, pitch: nat)
    requires hsub >= 1 && vsub >= 1 && (x * bpp) / hsub < pitch
    ensures UvOffset(x, y, bpp, hsub, vsub, pitch) / pitch == y / vsub
    ensures UvOffset(x, y, bpp, hsub, vsub, pitch) % pitch == (x * bpp) / hsub
  {
    DivModUnique(y / vsub, (x * bpp) / hsub, pitch);
  }

  /** On an even start pixel with 2:1 horizontal subsampling, the column part names chroma
      sample x / 2 exactly. */
  lemma UvColumnExact(x: nat, bpp: nat)
    requires x % 2 == 0
    ensures CDiv(x * bpp, 2) == (x / 2) * bpp
  {
    assert x * bpp == 2 * ((x / 2) * bpp);
  }

  /** As written, an odd start line with 2:1 vertical subsampling and an even pitch lands half
      a line past the start of the right chroma line. */
  lemma UvOffsetAsWrittenMidRow(x: nat, y: nat, bpp: nat, hsub: nat, pitch: nat)
    requires hsub >= 1 && y % 2 == 1 && pitch % 2 == 0 && y * pitch < Two32
    ensures UvOffsetAsWritten(x, y, bpp, hsub, 2, pitch)
         == UvOffset(x, y, bpp, hsub, 2, pitch) + pitch / 2
  {
    var k := y / 2;
    assert y * pitch == 2 * (k * pitch) + 2 * (pitch / 2) by {
      assert y == 2 * k + 1;
      assert y * pitch == (2 * k + 1) * pitch;
    }
  }

  /** An NV12 source clipped to start on line 1 of a 1920-byte-pitch chroma plane: the
      driver's chroma start is 960 bytes into chroma line 0, where line 0 itself begins at 0. */
  lemma UvOffsetOddLine()
    ensures UvOffsetAsWritten(0, 1, 2, 2, 2, 1920) == 960
    ensures UvOffset(0, 1, 2, 2, 2, 1920) == 0
  {
  }

  /** Adding a multiple of 2^32 does not change a value already reduced modulo 2^32. */
  lemma ModAddMultiple(r: int, q: int)
    requires 0 <= r < Two32
    ensures (q * Two32 + r) % Two32 == r
  {
  }

  /** a * 2^16 + b with 0 <= b < 2^16 divides back into a and b. */
  lemma DivModSplit(a: int, b: int)
    requires 0 <= b < Two16
    ensures (a * Two16 + b) / Two16 == a && (a * Two16 + b) % Two16 == b
  {
  }

  lemma MulAtLeast(d: int, p: int)
    requires d >= 1 && p > 0
    ensures d * p >= p
  {
  }

  lemma MulAtMost(d: int, p: int)
    requires d <= -1 && p > 0
    ensures d * p <= -p
  {
  }

  /** r * p + c with 0 <= c < p divides back into r and c. */
  lemma DivModUnique(r: int, c: int, p: int)
    requires p > 0 && 0 <= c < p
    ensures (r * p + c) / p == r && (r * p + c) % p == c
  {
    var x := r * p + c;
    var q := x / p;
    assert x == q * p + x % p;
    assert (q - r) * p == c - x % p by {
      assert (q - r) * p == q * p - r * p;
    }
    if q - r >= 1 {
      MulAtLeast(q - r, p);
    } else if q - r <= -1 {
      MulAtMost(q - r, p);
    }
  }
}
