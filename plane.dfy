/** The commit state machine of one VOP window (struct vop_win): the framebuffer on screen,
    the one waiting for the hardware, the vblank event to send, and the completion that lets
    one update at a time through.  Next to the driver's own fields each state carries the DRM
    core's bookkeeping for this window: the framebuffer references it holds, its share of the
    pipe's vblank reference count and the events it has sent.

    Every operation here is a function of the state and of what its environment answers
    (a drm_vblank_get result, a fence-sync result, what the hardware reads back).  The class
    in module Vop runs the same steps in place and is proved equal to these functions. */
module Plane {
  import opened Wrappers
  import Formats

  /** A framebuffer, by identity. */
  type Fb = nat

  /** A pending vblank event, by identity. */
  type Event = nat

  datatype Win = Win(
    front: Option<Fb>,           // front_fb: what the hardware scans out
    pendingFb: Option<Fb>,       // pending_fb: what it will scan out once confirmed
    pendingEvent: Option<Event>, // pending_event: sent when pending_fb becomes front
    pending: bool,               // an update waits for hardware confirmation
    pendingYrgbMst: nat,         // the luma start address that confirms it
    pendingUvMst: nat,           // the chroma start address
    done: nat,                   // the completion's count; the gate is free while positive
    refs: multiset<Fb>,          // framebuffer references this window holds
    vblankRefs: int,             // drm_vblank_get calls not yet matched by drm_vblank_put
    sent: seq<Event>)            // events sent, in order

  /** vop_win_init: nothing on screen, nothing pending, the completion signalled once. */
  function Init(): (w: Win)
    ensures Inv(w)
  {
    Win(None, None, None, false, 0, 0, 1, multiset{}, 0, [])
  }

  /** The framebuffers a window state refers to. */
  function Held(w: Win): multiset<Fb> {
    (if w.front.Some? then multiset{w.front.value} else multiset{})
    + (if w.pendingFb.Some? then multiset{w.pendingFb.value} else multiset{})
  }

  /** What holds between operations: the gate is taken exactly while an update is pending,
      each framebuffer the window refers to is referenced once and nothing else is, a
      pending update holds one vblank reference, and an idle window has nothing queued. */
  ghost predicate Inv(w: Win) {
    && w.done == (if w.pending then 0 else 1)
    && w.refs == Held(w)
    && w.vblankRefs == (if w.pending then 1 else 0)
    && (!w.pending ==> w.pendingFb.None? && w.pendingEvent.None?)
  }

  /** vop_win_update_needs_vblank: an update is queued for the next frame when an event is
      to be sent or an enabled window changes (or loses) its framebuffer. */
  predicate NeedsVblank(w: Win, fb: Option<Fb>, event: Option<Event>) {
    event.Some? || (w.front.Some? && w.front != fb)
  }

  /** Without an event, keeping the same framebuffer (a cursor move) and enabling a disabled
      window are applied at once; replacing or removing a shown framebuffer is queued. */
  lemma NeedsVblankCases(w: Win, fb: Option<Fb>, event: Option<Event>)
    ensures event.Some? ==> NeedsVblank(w, fb, event)
    ensures event.None? && w.front.None? ==> !NeedsVblank(w, fb, event)
    ensures event.None? && w.front.Some? ==> (NeedsVblank(w, fb, event) <==> w.front != fb)
  {
  }

  /** vop_win_update_needs_sync: a new framebuffer whose buffer carries a reservation object
      must first wait for the buffer's other users. */
  predicate NeedsSync(w: Win, fb: Option<Fb>, hasResv: bool) {
    fb.Some? && fb != w.front && hasResv
  }

  /** complete(): the completion's count goes up by one. */
  function Complete(w: Win): (r: Win)
    ensures r.done == w.done + 1
  {
    w.(done := w.done + 1)
  }

  /** wait_for_completion(): proceeds once the count is positive, and takes one. */
  function Wait(w: Win): (r: Win)
    requires w.done > 0
    ensures r.done == w.done - 1
  {
    w.(done := w.done - 1)
  }

  /** vop_win_update: send the pending event, drop the reference to the old front buffer and
      make the pending framebuffer the front one. */
  function WinUpdate(w: Win): Win {
    w.(sent := if w.pendingEvent.Some? then w.sent + [w.pendingEvent.value] else w.sent,
       pendingEvent := None,
       refs := if w.front.Some? then w.refs - multiset{w.front.value} else w.refs,
       front := w.pendingFb,
       pendingFb := None)
  }

  /** The window after vop_win_update: the pending framebuffer is on screen, nothing is
      queued, the pending event (if any) is the last one sent, the old front buffer's
      reference is gone, and the rest is untouched. */
  lemma WinUpdateEffect(w: Win)
    requires w.refs == Held(w)
    ensures WinUpdate(w).front == w.pendingFb && WinUpdate(w).pendingFb.None?
    ensures WinUpdate(w).pendingEvent.None?
    ensures WinUpdate(w).sent == w.sent + (if w.pendingEvent.Some? then [w.pendingEvent.value] else [])
    ensures WinUpdate(w).refs == Held(WinUpdate(w))
    ensures w.front.Some? ==> w.front.value in w.refs
    ensures WinUpdate(w).pending == w.pending && WinUpdate(w).done == w.done
    ensures WinUpdate(w).vblankRefs == w.vblankRefs
  {
  }

  /** The bookkeeping of vop_win_update_commit: a queued update marks the window pending and
      keeps the gate; an immediate one becomes front at once and frees the gate. */
  function Commit(w: Win, needsVblank: bool): Win {
    if needsVblank then w.(pending := true) else Complete(WinUpdate(w))
  }

  /** The window once an update has taken its references and recorded what it waits for:
      a vblank reference when it must wait for a frame, a reference to fb, and fb, the event
      and the start addresses as pending. */
  function Prepared(w: Win, fb: Fb, event: Option<Event>, yrgbMst: nat, uvMst: nat,
                    nv: bool): Win {
    w.(vblankRefs := if nv then w.vblankRefs + 1 else w.vblankRefs,
       refs := w.refs + multiset{fb},
       pendingFb := Some(fb), pendingEvent := event,
       pendingYrgbMst := yrgbMst, pendingUvMst := uvMst)
  }

  /** The gate is taken for an update.  Every plane but the cursor waits for it.  The cursor
      never blocks: a free gate it takes like the others, a held one it takes over from the
      update still waiting for its frame (see Superseded). */
  function Acquire(w: Win, cursor: bool): Win
    requires cursor || w.done > 0
  {
    if w.done > 0 then Wait(w) else Superseded(w)
  }

  /** The update a cursor update replaces before its frame came will never be shown: its
      framebuffer reference is dropped, its vblank reference put back and its event sent,
      and the gate stays taken, now by the new update. */
  function Superseded(w: Win): Win {
    w.(pending := false, pendingFb := None, pendingEvent := None,
       refs := w.refs - (if w.pendingFb.Some? then multiset{w.pendingFb.value} else multiset{}),
       vblankRefs := if w.pending then w.vblankRefs - 1 else w.vblankRefs,
       sent := w.sent + (if w.pendingEvent.Some? then [w.pendingEvent.value] else []))
  }

  /** Whichever way the gate is taken, from a state that keeps the invariant, the window is
      left with the gate taken, nothing pending, no vblank reference, the same front buffer
      and only the front buffer referenced; no sent event is withdrawn. */
  lemma AcquireEffect(w: Win, cursor: bool)
    requires Inv(w) && (cursor || !w.pending)
    ensures var w1 := Acquire(w, cursor);
      && w1.done == 0 && !w1.pending && w1.refs == Held(w1) && w1.vblankRefs == 0
      && w1.pendingFb.None? && w1.pendingEvent.None? && w1.front == w.front
      && w.sent <= w1.sent
  {
    if w.pending {
      assert Held(w) - (if w.pendingFb.Some? then multiset{w.pendingFb.value} else multiset{})
          == Held(Acquire(w, cursor));
    }
  }

  /** The bookkeeping of vop_update_plane_event from the wait on: take the gate, take a vblank
      reference when the update must be queued, take a reference to the framebuffer and make
      it pending, then commit, or roll back if the fence sync fails.  vblankGet is what
      drm_vblank_get returns and syncRet what vop_win_update_sync returns (under
      CONFIG_DRM_DMA_SYNC its callback runs the commit once the fence signals; without it the
      commit runs at once and 0 is returned).  The cursor does not block (see Acquire), and
      the rollback gives back the vblank reference only when one was taken. */
  function UpdatePlane(w: Win, cursor: bool, fb: Fb, event: Option<Event>, yrgbMst: nat,
                       uvMst: nat, vblankGet: int, hasResv: bool, syncRet: int): (r: (Win, int))
    requires cursor || w.done > 0
  {
    var w1 := Acquire(w, cursor);
    var nv := NeedsVblank(w1, Some(fb), event);
    if nv && vblankGet != 0 then (Complete(w1), vblankGet)
    else Queue(w1, fb, event, yrgbMst, uvMst, nv, hasResv, syncRet)
  }

  /** The rest of UpdatePlane once the gate is taken and any vblank reference it needs is
      held: fb becomes pending, then is committed, or rolled back when the fence sync
      fails. */
  function Queue(w1: Win, fb: Fb, event: Option<Event>, yrgbMst: nat, uvMst: nat, nv: bool,
                 hasResv: bool, syncRet: int): (Win, int)
  {
    var w2 := Prepared(w1, fb, event, yrgbMst, uvMst, nv);
    if NeedsSync(w2, Some(fb), hasResv) && syncRet != 0 then (RolledBack(w2, fb, nv), syncRet)
    else (Commit(w2, nv), 0)
  }

  /** The rollback after a failed fence sync: nothing pending, the framebuffer reference
      dropped, the vblank reference put back when putVblank, the gate freed. */
  function RolledBack(w2: Win, fb: Fb, putVblank: bool): Win {
    Complete(w2.(pendingFb := None, pendingEvent := None,
                 refs := w2.refs - multiset{fb},
                 vblankRefs := if putVblank then w2.vblankRefs - 1 else w2.vblankRefs))
  }

  /** vop_update_plane_event's bookkeeping as the driver writes it: the cursor plane does not
      wait for the completion, and a failed fence sync calls drm_vblank_put whether or not
      drm_vblank_get was called. */
  function UpdatePlaneAsWritten(w: Win, cursor: bool, fb: Fb, event: Option<Event>,
                                yrgbMst: nat, uvMst: nat, vblankGet: int, hasResv: bool,
                                syncRet: int): (r: (Win, int))
    requires cursor || w.done > 0
  {
    var w1 := if cursor then w else Wait(w);
    var nv := NeedsVblank(w1, Some(fb), event);
    if nv && vblankGet != 0 then (Complete(w1), vblankGet)
    else
      var w2 := Prepared(w1, fb, event, yrgbMst, uvMst, nv);
      if NeedsSync(w2, Some(fb), hasResv) && syncRet != 0 then (RolledBack(w2, fb, true), syncRet)
      else (Commit(w2, nv), 0)
  }

  /** An update keeps the invariant and withdraws no sent event, from an idle window, and
      for the cursor also from one whose gate is held. */
  lemma UpdatePlaneKeepsInv(w: Win, cursor: bool, fb: Fb, event: Option<Event>, yrgbMst: nat,
                            uvMst: nat, vblankGet: int, hasResv: bool, syncRet: int)
    requires Inv(w) && (cursor || !w.pending)
    ensures var r := UpdatePlane(w, cursor, fb, event, yrgbMst, uvMst, vblankGet, hasResv, syncRet);
      Inv(r.0) && w.sent <= r.0.sent
  {
    var w1 := Acquire(w, cursor);
    AcquireEffect(w, cursor);
    var nv := NeedsVblank(w1, Some(fb), event);
    if !(nv && vblankGet != 0) {
      QueueKeepsInv(w1, fb, event, yrgbMst, uvMst, nv, hasResv, syncRet);
    }
  }

  /** Queue, from an idle window whose gate has just been taken, ends in a state that keeps
      the invariant. */
  lemma QueueKeepsInv(w1: Win, fb: Fb, event: Option<Event>, yrgbMst: nat, uvMst: nat,
                      nv: bool, hasResv: bool, syncRet: int)
    requires w1.done == 0 && !w1.pending && w1.refs == Held(w1) && w1.vblankRefs == 0
    requires w1.pendingFb.None? && w1.pendingEvent.None?
    requires nv == NeedsVblank(w1, Some(fb), event)
    ensures var r := Queue(w1, fb, event, yrgbMst, uvMst, nv, hasResv, syncRet);
      Inv(r.0) && w1.sent <= r.0.sent
  {
    var r := Queue(w1, fb, event, yrgbMst, uvMst, nv, hasResv, syncRet);
    var w2 := Prepared(w1, fb, event, yrgbMst, uvMst, nv);
    assert w2.refs == Held(w2);
    if NeedsSync(w2, Some(fb), hasResv) && syncRet != 0 {
      assert (w2.refs - multiset{fb}) == w1.refs;
    } else if nv {
      assert r.0 == w2.(pending := true);
    } else {
      assert r.0 == Complete(WinUpdate(w2));
      WinUpdateEffect(w2);
    }
  }

  /** An update fails exactly when the vblank reference it needs cannot be taken or the fence
      sync it needs fails, and then leaves the window as it was but for the recorded start
      addresses: no framebuffer or vblank reference kept, nothing pending, the gate free. */
  lemma UpdatePlaneFailure(w: Win, cursor: bool, fb: Fb, event: Option<Event>, yrgbMst: nat,
                           uvMst: nat, vblankGet: int, hasResv: bool, syncRet: int)
    requires Inv(w) && !w.pending
    ensures var r := UpdatePlane(w, cursor, fb, event, yrgbMst, uvMst, vblankGet, hasResv, syncRet);
      && (r.1 != 0 <==> (NeedsVblank(w, Some(fb), event) && vblankGet != 0)
                        || (NeedsSync(w, Some(fb), hasResv) && syncRet != 0))
      && (r.1 != 0 ==> r.0 == w.(pendingYrgbMst := r.0.pendingYrgbMst, pendingUvMst := r.0.pendingUvMst))
  {
    var w1 := Wait(w);
    var nv := NeedsVblank(w1, Some(fb), event);
    if !(nv && vblankGet != 0) {
      var w2 := Prepared(w1, fb, event, yrgbMst, uvMst, nv);
      if NeedsSync(w2, Some(fb), hasResv) && syncRet != 0 {
        assert (w2.refs - multiset{fb}) == w.refs;
      }
    }
  }

  /** A successful update either queues fb for the next frame, keeping the front buffer and
      the gate, or, when no frame is needed, shows fb at once. */
  lemma UpdatePlaneSuccess(w: Win, cursor: bool, fb: Fb, event: Option<Event>, yrgbMst: nat,
                           uvMst: nat, vblankGet: int, hasResv: bool, syncRet: int)
    requires Inv(w) && !w.pending
    ensures var r := UpdatePlane(w, cursor, fb, event, yrgbMst, uvMst, vblankGet, hasResv, syncRet);
      && (r.1 == 0 && NeedsVblank(w, Some(fb), event) ==>
            && r.0.pending && r.0.done == 0 && r.0.front == w.front && r.0.pendingFb == Some(fb)
            && r.0.pendingEvent == event && r.0.pendingYrgbMst == yrgbMst && r.0.sent == w.sent)
      && (r.1 == 0 && !NeedsVblank(w, Some(fb), event) ==>
            && !r.0.pending && r.0.done == 1 && r.0.front == Some(fb) && r.0.sent == w.sent)
  {
  }

  /** vop_disable_plane's bookkeeping.  Without a CRTC nothing happens.  Otherwise, after the
      wait, a window the running VOP still shows is queued to go dark at the next frame (a
      vblank reference taken, the gate kept); any other is emptied at once.  The register
      writes that follow are those of module Vop. */
  function DisablePlane(w: Win, hasCrtc: bool, isEnabled: bool, vblankGet: int): (r: (Win, int))
    requires hasCrtc ==> w.done > 0
  {
    if !hasCrtc then (w, 0)
    else
      var w1 := Wait(w).(pendingYrgbMst := 0);
      if isEnabled && NeedsVblank(w1, None, None) then
        if vblankGet != 0 then (Complete(w1), vblankGet)
        else (w1.(vblankRefs := w1.vblankRefs + 1, pending := true), 0)
      else (Complete(WinUpdate(w1)), 0)
  }

  /** A disable keeps the invariant; it fails only when the vblank reference cannot be taken,
      and then only the confirming address has changed; a deferred disable keeps the front
      buffer until the frame confirms it, an immediate one releases it. */
  lemma DisablePlaneEffect(w: Win, hasCrtc: bool, isEnabled: bool, vblankGet: int)
    requires Inv(w) && (hasCrtc ==> !w.pending)
    ensures var (r, ret) := DisablePlane(w, hasCrtc, isEnabled, vblankGet);
      && Inv(r) && w.sent <= r.sent
      && (!hasCrtc ==> r == w && ret == 0)
      && (ret != 0 <==> hasCrtc && isEnabled && w.front.Some? && vblankGet != 0)
      && (ret != 0 ==> r == w.(pendingYrgbMst := 0))
      && (hasCrtc && ret == 0 && isEnabled && w.front.Some? ==>
            r.pending && r.front == w.front && r.pendingFb.None? && r.pendingYrgbMst == 0)
      && (hasCrtc && !(isEnabled && w.front.Some?) ==>
            !r.pending && r.front.None? && r.refs == multiset{})
  {
    if hasCrtc {
      var w1 := Wait(w).(pendingYrgbMst := 0);
      if !(isEnabled && NeedsVblank(w1, None, None)) {
        WinUpdateEffect(w1);
      }
    }
  }

  /** vop_win_pending_is_complete: the hardware has taken a pending framebuffer once its luma
      start address reads back, and a pending disable once the enable bit reads 0. */
  predicate PendingIsComplete(w: Win, liveYrgbMst: nat, liveEnable: nat) {
    if w.pendingFb.Some? then liveYrgbMst == w.pendingYrgbMst else liveEnable == 0
  }

  /** vop_win_process_pending, given whether the hardware has confirmed: nothing happens
      unless an update is pending and confirmed; then the vblank reference is dropped, the
      pending framebuffer becomes front and the gate is freed. */
  function ProcessPending(w: Win, confirmed: bool): Win {
    if !w.pending || !confirmed then w
    else Complete(WinUpdate(w).(vblankRefs := w.vblankRefs - 1, pending := false))
  }

  /** Processing keeps the invariant; a confirmed pending update sends its event once, puts
      the pending framebuffer on screen, releases the old front buffer and frees the gate. */
  lemma ProcessPendingEffect(w: Win, confirmed: bool)
    requires Inv(w)
    ensures Inv(ProcessPending(w, confirmed)) && w.sent <= ProcessPending(w, confirmed).sent
    ensures !w.pending || !confirmed ==> ProcessPending(w, confirmed) == w
    ensures w.pending && confirmed ==>
      var r := ProcessPending(w, confirmed);
      && !r.pending && r.done == 1 && r.vblankRefs == 0
      && r.front == w.pendingFb && r.pendingFb.None? && r.pendingEvent.None?
      && r.sent == w.sent + (if w.pendingEvent.Some? then [w.pendingEvent.value] else [])
      && r.refs == w.refs - (if w.front.Some? then multiset{w.front.value} else multiset{})
  {
    if w.pending && confirmed {
      WinUpdateEffect(w);
    }
  }

  /** One step of a window's life as the rest of the system drives it. */
  datatype Step =
    | Update(cursor: bool, fb: Fb, event: Option<Event>, yrgbMst: nat, uvMst: nat,
             vblankGet: int, hasResv: bool, syncRet: int)
    | Disable(hasCrtc: bool, isEnabled: bool, vblankGet: int)
    | Frame(liveYrgbMst: nat, liveEnable: nat)

  /** A step that waits on the completion can only start while the gate is free; a cursor
      update never waits. */
  predicate Ready(w: Win, s: Step) {
    match s
    case Update(cursor, _, _, _, _, _, _, _) => cursor || w.done > 0
    case Disable(hasCrtc, _, _) => hasCrtc ==> w.done > 0
    case Frame(_, _) => true
  }

  function Next(w: Win, s: Step): Win
    requires Ready(w, s)
  {
    match s
    case Update(c, fb, event, y, uv, vg, resv, sr) => UpdatePlane(w, c, fb, event, y, uv, vg, resv, sr).0
    case Disable(hasCrtc, isEnabled, vg) => DisablePlane(w, hasCrtc, isEnabled, vg).0
    case Frame(live, en) => ProcessPending(w, PendingIsComplete(w, live, en))
  }

  /** Runs the steps in order, stopping at a step that would block. */
  function Run(w: Win, steps: seq<Step>): Win
    decreases |steps|
  {
    if steps == [] || !Ready(w, steps[0]) then w
    else Run(Next(w, steps[0]), steps[1..])
  }

  /** Any sequence of updates, disables and frames keeps the invariant, so every framebuffer
      the window stops using has been released exactly once and none it still uses has; and
      sent events are never withdrawn or reordered. */
  lemma {:induction false} RunKeepsInv(w: Win, steps: seq<Step>)
    requires Inv(w)
    ensures Inv(Run(w, steps))
    ensures w.sent <= Run(w, steps).sent
    decreases |steps|
  {
    if steps != [] && Ready(w, steps[0]) {
      var s := steps[0];
      assert Run(w, steps) == Run(Next(w, s), steps[1..]);
      match s {
        case Update(c, fb, event, y, uv, vg, resv, sr) =>
          UpdatePlaneKeepsInv(w, c, fb, event, y, uv, vg, resv, sr);
        case Disable(hasCrtc, isEnabled, vg) =>
          DisablePlaneEffect(w, hasCrtc, isEnabled, vg);
        case Frame(live, en) =>
          ProcessPendingEffect(w, PendingIsComplete(w, live, en));
      }
      assert Inv(Next(w, s)) && w.sent <= Next(w, s).sent;
      RunKeepsInv(Next(w, s), steps[1..]);
    }
  }

  /** As written, a failed fence sync on a window that shows nothing calls drm_vblank_put
      although drm_vblank_get was not called: the window's share of the vblank count drops to
      -1. */
  lemma SyncFailurePutsWithoutGet()
    ensures var (r, ret) := UpdatePlaneAsWritten(Init(), false, 7, None, 0, 0, 0, true, -Formats.EINVAL);
      Inv(Init()) && ret == -Formats.EINVAL && r.vblankRefs == -1 && !Inv(r)
  {
  }

  /** As written, two cursor flips before a frame (the cursor does not wait) take two vblank
      references and two framebuffer references; the frame that confirms the second releases
      only one of each: framebuffer 2 stays referenced although nothing shows it. */
  lemma CursorFlipLeaks()
    ensures
      var w := Win(Some(1), None, None, false, 0, 0, 1, multiset{1}, 0, []);
      var r1 := UpdatePlaneAsWritten(w, true, 2, None, 0x100, 0, 0, false, 0).0;
      var r2 := UpdatePlaneAsWritten(r1, true, 3, None, 0x200, 0, 0, false, 0).0;
      var r3 := ProcessPending(r2, PendingIsComplete(r2, 0x200, 1));
      && Inv(w) && r1.pending && r1.done == 1
      && r3.front == Some(3) && !r3.pending
      && r3.refs == multiset{2, 3} && Held(r3) == multiset{3} && r3.vblankRefs == 1
  {
  }

  /** A cursor update that finds an update still waiting for its frame replaces it: the
      replaced framebuffer (unless it is fb again, or the one on screen) is no longer
      referenced, at most the new update's vblank reference is held, the replaced event is
      sent, and the invariant holds. */
  lemma CursorSupersedes(w: Win, fb: Fb, event: Option<Event>, yrgbMst: nat, uvMst: nat,
                         vblankGet: int, hasResv: bool, syncRet: int)
    requires Inv(w) && w.pending
    ensures var r := UpdatePlane(w, true, fb, event, yrgbMst, uvMst, vblankGet, hasResv, syncRet);
      && Inv(r.0) && 0 <= r.0.vblankRefs <= 1
      && w.sent + (if w.pendingEvent.Some? then [w.pendingEvent.value] else []) <= r.0.sent
      && (w.pendingFb.Some? && Some(w.pendingFb.value) != w.front && w.pendingFb.value != fb
          ==> w.pendingFb.value !in r.0.refs)
  {
    var r := UpdatePlane(w, true, fb, event, yrgbMst, uvMst, vblankGet, hasResv, syncRet);
    var w1 := Acquire(w, true);
    AcquireEffect(w, true);
    UpdatePlaneKeepsInv(w, true, fb, event, yrgbMst, uvMst, vblankGet, hasResv, syncRet);
    var nv := NeedsVblank(w1, Some(fb), event);
    if !(nv && vblankGet != 0) {
      QueueKeepsInv(w1, fb, event, yrgbMst, uvMst, nv, hasResv, syncRet);
      QueueHolds(w1, fb, event, yrgbMst, uvMst, nv, hasResv, syncRet);
    }
  }

  /** After Queue the window shows the buffer it showed or fb, and has nothing or fb
      pending. */
  lemma QueueHolds(w1: Win, fb: Fb, event: Option<Event>, yrgbMst: nat, uvMst: nat,
                   nv: bool, hasResv: bool, syncRet: int)
    requires w1.pendingFb.None?
    ensures var r := Queue(w1, fb, event, yrgbMst, uvMst, nv, hasResv, syncRet);
      && (r.0.front == w1.front || r.0.front == Some(fb))
      && (r.0.pendingFb.None? || r.0.pendingFb == Some(fb))
  {
  }

  /** As written, one cursor move that needs no frame (same framebuffer, no event) calls
      complete without having waited: the completion's count reaches 2 and the gate no
      longer stands for one update in flight. */
  lemma CursorMoveDriftsGate()
    ensures
      var w := Win(Some(1), None, None, false, 0, 0, 1, multiset{1}, 0, []);
      var r := UpdatePlaneAsWritten(w, true, 1, None, 0x100, 0, 0, false, 0).0;
      Inv(w) && r.done == 2 && !Inv(r)
  {
  }

  /** Corrected, the same cursor move takes the gate and gives it back: the count stays 1. */
  lemma CursorMoveKeepsGate()
    ensures
      var w := Win(Some(1), None, None, false, 0, 0, 1, multiset{1}, 0, []);
      var r := UpdatePlane(w, true, 1, None, 0x100, 0, 0, false, 0).0;
      r.done == 1 && Inv(r)
  {
  }

  /** Corrected, the two cursor flips of CursorFlipLeaks release framebuffer 2 when
      framebuffer 3 replaces it, and the frame leaves only framebuffer 3 referenced and no
      vblank reference held. */
  lemma CursorFlipsRelease()
    ensures
      var w := Win(Some(1), None, None, false, 0, 0, 1, multiset{1}, 0, []);
      var r1 := UpdatePlane(w, true, 2, None, 0x100, 0, 0, false, 0).0;
      var r2 := UpdatePlane(r1, true, 3, None, 0x200, 0, 0, false, 0).0;
      var r3 := ProcessPending(r2, PendingIsComplete(r2, 0x200, 1));
      && r1.pending && r1.done == 0 && r2.refs == multiset{1, 3}
      && r3.front == Some(3) && !r3.pending && r3.done == 1
      && r3.refs == multiset{3} && r3.vblankRefs == 0 && Inv(r3)
  {
  }
}
