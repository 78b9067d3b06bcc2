/** Register shadow layer of the VOP driver: the struct vop_reg field descriptors, the
    masked read-modify-write of vop_mask_write, the REG_SET macro, and a register bank with
    a software shadow (regsbak), the written hardware registers (regs) and the values the
    hardware is currently using, which is what readl returns. */
module Regs {

  /** One register field (struct vop_reg): byte offset of its 32-bit word, mask and shift. */
  datatype Reg = Reg(offset: nat, mask: bv32, shift: bv32)

  /** The descriptor of a field a window does not have: the zero-initialised struct vop_reg. */
  const Absent := Reg(0, 0, 0)

  /** The field lies inside its word: the shift is below 32 and no mask bit is shifted out. */
  predicate Fits(r: Reg) {
    r.shift < 32 && (r.mask << r.shift) >> r.shift == r.mask
  }

  /** A value fits a field when it has no bit outside the field's mask. */
  predicate ValueFits(r: Reg, v: bv32) {
    v & r.mask == v
  }

  /** The word vop_mask_write computes from the cached word: mask bits cleared, v or-ed in. */
  function MaskedWord(cached: bv32, mask: bv32, v: bv32): bv32 {
    (cached & !mask) | v
  }

  /** vop_read_reg on a word: shift the field down and mask it. */
  function FieldOf(word: bv32, r: Reg): bv32
    requires r.shift < 32
  {
    (word >> r.shift) & r.mask
  }

  /** REG_SET on a single word: the masked write with mask and value shifted to the field. */
  function SetField(word: bv32, r: Reg, v: bv32): (w: bv32)
    requires r.shift < 32
    ensures ValueFits(r, v) ==> w & !(r.mask << r.shift) == word & !(r.mask << r.shift)
  {
    MaskedWord(word, r.mask << r.shift, v << r.shift)
  }

  /** A field written with a value that fits reads back as that value. */
  lemma ReadBack(word: bv32, r: Reg, v: bv32)
    requires Fits(r) && ValueFits(r, v)
    ensures FieldOf(SetField(word, r, v), r) == v
  {
    ShiftedReadBack(word, r.mask, r.shift, v);
  }

  lemma ShiftedReadBack(word: bv32, mask: bv32, shift: bv32, v: bv32)
    requires shift < 32 && (mask << shift) >> shift == mask && v & mask == v
    ensures (MaskedWord(word, mask << shift, v << shift) >> shift) & mask == v
  {
    // The solver decides each constant shift quickly and a symbolic one slowly.
    if shift == 0 {}
    else if shift == 1 {}
    else if shift == 2 {}
    else if shift == 3 {}
    else if shift == 4 {}
    else if shift == 5 {}
    else if shift == 6 {}
    else if shift == 7 {}
    else if shift == 8 {}
    else if shift == 9 {}
    else if shift == 10 {}
    else if shift == 11 {}
    else if shift == 12 {}
    else if shift == 13 {}
    else if shift == 14 {}
    else if shift == 15 {}
    else if shift == 16 {}
    else if shift == 17 {}
    else if shift == 18 {}
    else if shift == 19 {}
    else if shift == 20 {}
    else if shift == 21 {}
    else if shift == 22 {}
    else if shift == 23 {}
    else if shift == 24 {}
    else if shift == 25 {}
    else if shift == 26 {}
    else if shift == 27 {}
    else if shift == 28 {}
    else if shift == 29 {}
    else if shift == 30 {}
    else {}
  }

  /** The register state the driver writes: the shadow array and the hardware registers. */
  datatype Bank = Bank(shadow: seq<bv32>, live: seq<bv32>)

  /** One call of vop_mask_write (or vop_writel, with every mask bit set). */
  datatype Write = Write(offset: nat, mask: bv32, value: bv32)

  /** The word a write goes to: regsbak[offset >> 2]. */
  function WordOf(w: Write): nat {
    w.offset / 4
  }

  predicate WellSized(b: Bank) {
    |b.shadow| == |b.live|
  }

  predicate AllInBank(n: nat, ws: seq<Write>) {
    forall k :: 0 <= k < |ws| ==> WordOf(ws[k]) < n
  }

  /** vop_mask_write on the bank: nothing when the mask is zero, otherwise the masked word
      goes to both the shadow and the hardware register and no other word changes. */
  function Apply(b: Bank, w: Write): (r: Bank)
    requires WellSized(b) && WordOf(w) < |b.shadow|
    ensures WellSized(r) && |r.shadow| == |b.shadow|
  {
    if w.mask == 0 then b
    else
      var i := WordOf(w);
      var nv := MaskedWord(b.shadow[i], w.mask, w.value);
      Bank(b.shadow[i := nv], b.live[i := nv])
  }

  /** What one write does: nothing when the mask is zero, otherwise the masked word goes to
      both the shadow and the hardware register, and no other word changes. */
  lemma ApplyEffect(b: Bank, w: Write)
    requires WellSized(b) && WordOf(w) < |b.shadow|
    ensures w.mask == 0 ==> Apply(b, w) == b
    ensures w.mask != 0 ==> Apply(b, w).shadow[WordOf(w)] == Apply(b, w).live[WordOf(w)]
                             == MaskedWord(b.shadow[WordOf(w)], w.mask, w.value)
    ensures forall j :: 0 <= j < |b.shadow| && j != WordOf(w) ==>
              Apply(b, w).shadow[j] == b.shadow[j] && Apply(b, w).live[j] == b.live[j]
  {
  }

  /** A sequence of writes, in order. */
  function ApplyAll(b: Bank, ws: seq<Write>): (r: Bank)
    requires WellSized(b) && AllInBank(|b.shadow|, ws)
    ensures WellSized(r) && |r.shadow| == |b.shadow|
    decreases |ws|
  {
    if ws == [] then b
    else Apply(ApplyAll(b, ws[..|ws| - 1]), ws[|ws| - 1])
  }

  /** A write with mask m and value v lowered from a field write (REG_SET). */
  function RegSet(base: nat, r: Reg, v: bv32): (w: Write)
    requires r.shift < 32
    ensures WordOf(w) == (base + r.offset) / 4
  {
    Write(base + r.offset, r.mask << r.shift, v << r.shift)
  }

  /** Writing one more: the last write goes last. */
  lemma ApplyAllSnoc(b: Bank, ws: seq<Write>, w: Write)
    requires WellSized(b) && AllInBank(|b.shadow|, ws + [w])
    ensures AllInBank(|b.shadow|, ws)
    ensures ApplyAll(b, ws + [w]) == Apply(ApplyAll(b, ws), w)
  {
    assert (ws + [w])[..|ws|] == ws;
  }

  /** Writes compose: applying ws then vs is applying ws + vs. */
  lemma {:induction false} ApplyAllAppend(b: Bank, ws: seq<Write>, vs: seq<Write>)
    requires WellSized(b) && AllInBank(|b.shadow|, ws) && AllInBank(|b.shadow|, vs)
    ensures AllInBank(|b.shadow|, ws + vs)
    ensures ApplyAll(b, ws + vs) == ApplyAll(ApplyAll(b, ws), vs)
    decreases |vs|
  {
    if vs == [] {
      assert ws + vs == ws;
    } else {
      var last := vs[|vs| - 1];
      var init := vs[..|vs| - 1];
      assert AllInBank(|b.shadow|, init);
      ApplyAllAppend(b, ws, init);
      assert ws + vs == (ws + init) + [last];
      ApplyAllSnoc(b, ws + init, last);
    }
  }

  /** Does some write with a non-zero mask go to word k? */
  predicate Touches(ws: seq<Write>, k: nat) {
    exists j :: 0 <= j < |ws| && WordOf(ws[j]) == k && ws[j].mask != 0
  }

  /** A word no write touches keeps its shadow and its hardware value. */
  lemma {:induction false} ApplyAllUntouched(b: Bank, ws: seq<Write>, k: nat)
    requires WellSized(b) && AllInBank(|b.shadow|, ws) && k < |b.shadow|
    requires !Touches(ws, k)
    ensures ApplyAll(b, ws).shadow[k] == b.shadow[k]
    ensures ApplyAll(b, ws).live[k] == b.live[k]
    decreases |ws|
  {
    if ws != [] {
      var init := ws[..|ws| - 1];
      forall j | 0 <= j < |init|
        ensures !(WordOf(init[j]) == k && init[j].mask != 0)
      {
        assert init[j] == ws[j];
      }
      ApplyAllUntouched(b, init, k);
      assert ws[|ws| - 1] == ws[|ws| - 1];
    }
  }

  /** Every word a write touched holds the same value in the shadow and the hardware. */
  lemma {:induction false} ApplyAllMirrors(b: Bank, ws: seq<Write>, k: nat)
    requires WellSized(b) && AllInBank(|b.shadow|, ws) && k < |b.shadow|
    requires Touches(ws, k)
    ensures ApplyAll(b, ws).shadow[k] == ApplyAll(b, ws).live[k]
    decreases |ws|
  {
    var init := ws[..|ws| - 1];
    var last := ws[|ws| - 1];
    if !(WordOf(last) == k && last.mask != 0) {
      var j :| 0 <= j < |ws| && WordOf(ws[j]) == k && ws[j].mask != 0;
      assert j < |ws| - 1;
      assert init[j] == ws[j];
      ApplyAllMirrors(b, init, k);
    }
  }

  /** Writes from a bank whose hardware registers equal its shadow keep the two equal, as
      every write goes to both. */
  lemma {:induction false} ApplyAllKeepsMirror(b: Bank, ws: seq<Write>)
    requires WellSized(b) && AllInBank(|b.shadow|, ws) && b.shadow == b.live
    ensures ApplyAll(b, ws).shadow == ApplyAll(b, ws).live
    decreases |ws|
  {
    if ws != [] {
      assert AllInBank(|b.shadow|, ws[..|ws| - 1]);
      ApplyAllKeepsMirror(b, ws[..|ws| - 1]);
    }
  }

  /** The bank b after the writes ws[lo..hi], in order. */
  ghost function ApplyRange(b: Bank, ws: seq<Write>, lo: nat, hi: nat): (r: Bank)
    requires WellSized(b) && AllInBank(|b.shadow|, ws) && lo <= hi <= |ws|
    ensures WellSized(r) && |r.shadow| == |b.shadow|
    decreases hi - lo
  {
    if hi == lo then b else Apply(ApplyRange(b, ws, lo, hi - 1), ws[hi - 1])
  }

  /** Applying ws[i..j] and then ws[j..k] is applying ws[i..k]. */
  lemma {:induction false} ApplyRangeCompose(b: Bank, ws: seq<Write>, i: nat, j: nat, k: nat)
    requires WellSized(b) && AllInBank(|b.shadow|, ws) && i <= j <= k <= |ws|
    ensures ApplyRange(ApplyRange(b, ws, i, j), ws, j, k) == ApplyRange(b, ws, i, k)
    decreases k - j
  {
    if k > j {
      ApplyRangeCompose(b, ws, i, j, k - 1);
    }
  }

  /** Applying the first k writes one position at a time is applying the prefix. */
  lemma {:induction false} ApplyRangePrefix(b: Bank, ws: seq<Write>, k: nat)
    requires WellSized(b) && AllInBank(|b.shadow|, ws) && k <= |ws|
    ensures AllInBank(|b.shadow|, ws[..k])
    ensures ApplyRange(b, ws, 0, k) == ApplyAll(b, ws[..k])
    decreases k
  {
    if k > 0 {
      ApplyRangePrefix(b, ws, k - 1);
      assert ws[..k][..k - 1] == ws[..k - 1];
    }
  }

  /** Applying one write. */
  lemma ApplyAllOne(b: Bank, w: Write)
    requires WellSized(b) && WordOf(w) < |b.shadow|
    ensures AllInBank(|b.shadow|, [w]) && ApplyAll(b, [w]) == Apply(b, w)
  {
    assert [w][..0] == [];
  }

  /** Applying w and then ws is applying [w] + ws. */
  lemma ApplyAllCons(b: Bank, w: Write, ws: seq<Write>)
    requires WellSized(b) && AllInBank(|b.shadow|, [w] + ws)
    ensures WordOf(w) < |b.shadow| && AllInBank(|b.shadow|, ws)
    ensures ApplyAll(b, [w] + ws) == ApplyAll(Apply(b, w), ws)
  {
    assert ([w] + ws)[0] == w;
    assert forall k :: 0 <= k < |ws| ==> ws[k] == ([w] + ws)[k + 1];
    ApplyAllAppend(b, [w], ws);
    assert ApplyAll(b, [w]) == Apply(ApplyAll(b, []), w);
  }

  /** Applying a whole sequence by ranges is applying it in order. */
  lemma ApplyRangeAll(b: Bank, ws: seq<Write>)
    requires WellSized(b) && AllInBank(|b.shadow|, ws)
    ensures ApplyRange(b, ws, 0, |ws|) == ApplyAll(b, ws)
  {
    ApplyRangePrefix(b, ws, |ws|);
    assert ws[..|ws|] == ws;
  }

  /** The register bank of one VOP. */
  class RegBank {
    /** The software copy of every register (vop->regsbak), one entry per 32-bit word. */
    var regsbak: array<bv32>
    /** The hardware registers as written (vop->regs); they take effect at a frame start. */
    var regs: array<bv32>
    /** The register values the hardware is using; what readl returns. */
    var active: seq<bv32>
    /** A cfg_done has been written and not yet consumed by a frame start. */
    var cfgDone: bool

    ghost predicate Valid()
      reads this
    {
      regsbak != regs && regsbak.Length == regs.Length == |active|
    }

    /** The written state: shadow and hardware registers. */
    ghost function State(): (b: Bank)
      reads this, regsbak, regs
      ensures WellSized(b) || regsbak.Length != regs.Length
    {
      Bank(regsbak[..], regs[..])
    }

    /** vop_bind: the shadow is allocated zeroed, the hardware holds what it holds. */
    constructor (hw: seq<bv32>)
      ensures Valid() && fresh(regsbak) && fresh(regs)
      ensures regsbak[..] == seq(|hw|, _ => 0) && regs[..] == hw && active == hw && !cfgDone
    {
      regsbak := new bv32[|hw|](_ => 0);
      regs := new bv32[|hw|](i requires 0 <= i < |hw| => hw[i]);
      active := hw;
      cfgDone := false;
    }

    /** vop_writel: the value goes to the hardware register and to the shadow. */
    method Writel(offset: nat, v: bv32)
      requires Valid() && offset / 4 < regsbak.Length
      modifies regsbak, regs
      ensures Valid()
      ensures State() == Apply(old(State()), Write(offset, 0xFFFF_FFFF, v))
      ensures regsbak[offset / 4] == v && regs[offset / 4] == v
    {
      regs[offset / 4] := v;
      regsbak[offset / 4] := v;
    }

    /** vop_mask_write and vop_mask_write_relaxed (they differ only in the I/O barrier). */
    method MaskWrite(offset: nat, mask: bv32, v: bv32)
      requires Valid() && offset / 4 < regsbak.Length
      modifies regsbak, regs
      ensures Valid()
      ensures State() == Apply(old(State()), Write(offset, mask, v))
    {
      if mask != 0 {
        var cached := regsbak[offset / 4];
        cached := (cached & !mask) | v;
        regs[offset / 4] := cached;
        regsbak[offset / 4] := cached;
        assert regsbak[..] == old(regsbak[..])[offset / 4 := cached];
        assert regs[..] == old(regs[..])[offset / 4 := cached];
      }
    }

    /** The REG_SET macro: a masked write with mask and value shifted to the field. */
    method SetReg(base: nat, r: Reg, v: bv32)
      requires Valid() && r.shift < 32 && (base + r.offset) / 4 < regsbak.Length
      modifies regsbak, regs
      ensures Valid()
      ensures State() == Apply(old(State()), RegSet(base, r, v))
    {
      var w := RegSet(base, r, v);
      MaskWrite(w.offset, w.mask, w.value);
    }

    /** vop_readl: what the hardware is using. */
    method Readl(offset: nat) returns (x: bv32)
      requires Valid() && offset / 4 < regsbak.Length
      ensures x == active[offset / 4]
    {
      x := active[offset / 4];
    }

    /** vop_read_reg: one field of a live register. */
    method ReadReg(base: nat, r: Reg) returns (x: bv32)
      requires Valid() && r.shift < 32 && (base + r.offset) / 4 < regsbak.Length
      ensures x == FieldOf(active[(base + r.offset) / 4], r)
    {
      var word := Readl(base + r.offset);
      x := FieldOf(word, r);
    }

    /** vop_cfg_done: ask the hardware to take the written registers at the next frame. */
    method CfgDone()
      modifies this`cfgDone
      ensures cfgDone
    {
      cfgDone := true;
    }

    /** The hardware frame start: after a cfg_done, the written registers take effect. */
    method Vblank()
      requires Valid()
      modifies this`active, this`cfgDone
      ensures Valid() && !cfgDone
      ensures active == if old(cfgDone) then regs[..] else old(active)
    {
      if cfgDone {
        active := regs[..];
        cfgDone := false;
      }
    }

    /** memcpy(vop->regs, vop->regsbak, vop->len) in vop_enable: the hardware gets back the
        configuration the shadow holds. */
    method RestoreFromShadow()
      requires Valid()
      modifies regs
      ensures regs[..] == regsbak[..]
    {
      var i := 0;
      while i < regs.Length
        invariant 0 <= i <= regs.Length
        invariant regs[..i] == regsbak[..i]
      {
        regs[i] := regsbak[i];
        assert regs[..i + 1] == regs[..i] + [regs[i]];
        assert regsbak[..i + 1] == regsbak[..i] + [regsbak[i]];
        i := i + 1;
      }
      assert regs[..] == regs[..regs.Length];
      assert regsbak[..] == regsbak[..regsbak.Length];
    }

    /** memcpy(vop->regsbak, vop->regs, vop->len) in vop_initial: the shadow is read back
        from the hardware. */
    method CaptureShadow()
      requires Valid()
      modifies regsbak
      ensures regsbak[..] == active
    {
      var i := 0;
      while i < regsbak.Length
        invariant 0 <= i <= regsbak.Length
        invariant regsbak[..i] == active[..i]
      {
        regsbak[i] := active[i];
        assert regsbak[..i + 1] == regsbak[..i] + [regsbak[i]];
        assert active[..i + 1] == active[..i] + [active[i]];
        i := i + 1;
      }
      assert regsbak[..] == regsbak[..regsbak.Length];
    }
  }
}
