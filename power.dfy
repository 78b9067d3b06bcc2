/** The power-up and power-down bookkeeping of vop_enable and vop_disable: the runtime-PM
    usage count, the enable counts of the three clocks and the IOMMU attachment.  The clock,
    runtime-PM and IOMMU calls are foreign; each is represented by the status it returns. */
module Power {

  /** The references vop_enable takes and vop_disable drops. */
  datatype Power = Power(pm: nat, hclk: nat, dclk: nat, aclk: nat, attached: bool)

  /** What pm_runtime_get_sync, clk_enable(hclk), clk_enable(dclk), clk_enable(aclk) and
      rockchip_drm_dma_attach_device return, in the order vop_enable calls them. */
  datatype EnableResults = EnableResults(pmRet: int, hclkRet: int, dclkRet: int, aclkRet: int,
                                         attachRet: int)

  /** Every step of vop_enable succeeds: the negative-status checks of the first four
      calls and the non-zero check of the attachment all pass. */
  predicate Succeeds(r: EnableResults) {
    r.pmRet >= 0 && r.hclkRet >= 0 && r.dclkRet >= 0 && r.aclkRet >= 0 && r.attachRet == 0
  }

  /** The VOP holds every reference an enabled VOP holds. */
  predicate Powered(p: Power) {
    p.pm > 0 && p.hclk > 0 && p.dclk > 0 && p.aclk > 0 && p.attached
  }

  /** The references taken by a successful vop_enable. */
  function Acquired(p: Power): Power {
    Power(p.pm + 1, p.hclk + 1, p.dclk + 1, p.aclk + 1, true)
  }

  /** vop_enable as written.  pm_runtime_get_sync raises the usage count whatever it
      returns, and no error exit calls pm_runtime_put; the unwind labels disable, in
      reverse order, the clocks enabled so far. */
  function EnableAsWritten(p: Power, r: EnableResults): Power {
    var p1 := p.(pm := p.pm + 1);
    if r.pmRet < 0 || r.hclkRet < 0 then p1
    else
      var p2 := p1.(hclk := p1.hclk + 1);
      if r.dclkRet < 0 then p2.(hclk := p2.hclk - 1)
      else
        var p3 := p2.(dclk := p2.dclk + 1);
        if r.aclkRet < 0 then p3.(dclk := p3.dclk - 1).(hclk := p3.hclk - 1)
        else
          var p4 := p3.(aclk := p3.aclk + 1);
          if r.attachRet != 0 then p4.(aclk := p4.aclk - 1).(dclk := p4.dclk - 1).(hclk := p4.hclk - 1)
          else p4.(attached := true)
  }

  /** vop_enable with every error exit also dropping the runtime-PM reference
      (pm_runtime_put after the clock unwind). */
  function Enable(p: Power, r: EnableResults): Power {
    var q := EnableAsWritten(p, r);
    if Succeeds(r) then q else q.(pm := q.pm - 1)
  }

  /** vop_disable: the IOMMU is detached, dclk, aclk and hclk are disabled and the
      runtime-PM reference is put. */
  function Disable(p: Power): (q: Power)
    requires Powered(p)
  {
    Power(p.pm - 1, p.hclk - 1, p.dclk - 1, p.aclk - 1, false)
  }

  /** A successful enable leaves the VOP powered, and a failed one leaves every count as
      it was. */
  lemma EnableEffect(p: Power, r: EnableResults)
    ensures Succeeds(r) ==> Enable(p, r) == Acquired(p) && Powered(Enable(p, r))
    ensures !Succeeds(r) ==> Enable(p, r) == p
  {
  }

  /** vop_disable drops exactly what a successful vop_enable took, when nothing was
      attached before. */
  lemma DisableUndoesEnable(p: Power, r: EnableResults)
    requires Succeeds(r) && !p.attached
    ensures Powered(Enable(p, r)) && Disable(Enable(p, r)) == p
  {
  }

  /** Wherever vop_enable fails, the clock unwind restores every clock count and nothing is
      left attached, but the runtime-PM usage count stays one higher. */
  lemma EnableAsWrittenFailure(p: Power, r: EnableResults)
    requires !Succeeds(r)
    ensures EnableAsWritten(p, r) == p.(pm := p.pm + 1)
  {
  }

  /** hclk failing to enable: the VOP stays disabled, so no vop_disable will put the
      runtime-PM reference that the failed vop_enable kept. */
  lemma HclkFailureLeaksPm()
    ensures var p := Power(0, 0, 0, 0, false);
            var r := EnableResults(0, -5, 0, 0, 0);
            EnableAsWritten(p, r).pm == 1 && Enable(p, r).pm == 0
  {
  }
}
