/**
  The frame ring of VulkanRenderer::Draw as a sequential state machine. Each of the
  MAX_FRAME_DRAWS slots owns a draw fence and two semaphores (image available, render
  finished); their states are abstract tokens. Work the GPU has been given is assumed to
  complete, so waiting on a fence with a pending signal returns, while waiting on an
  unsignaled fence with nothing pending never returns.
 */
module FrameSync {
  import opened Utilities

  /** Unsignaled: nothing will signal it; Pending: submitted work will signal it; Signaled. */
  datatype SyncState = Unsignaled | Pending | Signaled

  datatype FrameRing = FrameRing(
    currentFrame: nat,
    drawFences: seq<SyncState>,
    imageAvailable: seq<SyncState>,
    renderFinished: seq<SyncState>)
  {
    /** One fence and two semaphores per slot, and the index names a slot. */
    predicate WellFormed() {
      && |drawFences| == MAX_FRAME_DRAWS
      && |imageAvailable| == MAX_FRAME_DRAWS
      && |renderFinished| == MAX_FRAME_DRAWS
      && currentFrame < MAX_FRAME_DRAWS
    }

    /** Between frames: no fence is stuck unsignaled and no semaphore has a signal outstanding. */
    predicate Ready() {
      && WellFormed()
      && (forall i :: 0 <= i < MAX_FRAME_DRAWS ==> drawFences[i] != Unsignaled)
      && (forall i :: 0 <= i < MAX_FRAME_DRAWS ==> imageAvailable[i] == Unsignaled)
      && (forall i :: 0 <= i < MAX_FRAME_DRAWS ==> renderFinished[i] == Unsignaled)
    }
  }

  /** The ring CreateSynchronization builds: fences created signaled, semaphores unsignaled. */
  function InitialRing(): FrameRing {
    FrameRing(0, seq(MAX_FRAME_DRAWS, _ => Signaled), seq(MAX_FRAME_DRAWS, _ => Unsignaled),
              seq(MAX_FRAME_DRAWS, _ => Unsignaled))
  }

  /** The calls Draw issues. Sync objects are named by their frame slot; the command buffer
      and the presented image by the acquired image index. */
  datatype DrawCall =
    | WaitForFence(fenceSlot: nat)
    | ResetFence(fenceSlot: nat)
    | AcquireNextImage(signalSlot: nat)
    | QueueSubmit(commandBuffer: nat, waitSlot: nat, signalSlot: nat, fenceSlot: nat)
    | QueuePresent(imageIndex: nat, waitSlot: nat)

  /** Blocked: the fence wait never returns; the failures are the two thrown errors. */
  datatype DrawOutcome = Presented | Blocked | SubmitFailed | PresentFailed

  datatype DrawStep = DrawStep(ring: FrameRing, outcome: DrawOutcome, calls: seq<DrawCall>)

  /**
    One Draw: wait for and reset the slot's fence, acquire image imageIndex signalling the
    slot's image-available semaphore, submit command buffer imageIndex (waiting on that
    semaphore, signalling render-finished and the fence), present waiting on render-finished,
    then move to the next slot. submitOk and presentOk are the results of vkQueueSubmit and
    vkQueuePresentKHR; the results of the wait, the reset and the acquire are not checked.
   */
  function DrawFrame(ring: FrameRing, imageIndex: nat, submitOk: bool, presentOk: bool): (r: DrawStep)
    requires ring.WellFormed()
    ensures r.ring.WellFormed()
    ensures 1 <= |r.calls| && r.calls[0] == WaitForFence(ring.currentFrame)
  {
    var f := ring.currentFrame;
    if ring.drawFences[f] == Unsignaled then
      DrawStep(ring, Blocked, [WaitForFence(f)])
    else
      var acquired := ring.(drawFences := ring.drawFences[f := Unsignaled],
                            imageAvailable := ring.imageAvailable[f := Pending]);
      var issued := [WaitForFence(f), ResetFence(f), AcquireNextImage(f), QueueSubmit(imageIndex, f, f, f)];
      if !submitOk then
        DrawStep(acquired, SubmitFailed, issued)
      else
        var submitted := acquired.(drawFences := acquired.drawFences[f := Pending],
                                   imageAvailable := acquired.imageAvailable[f := Unsignaled],
                                   renderFinished := acquired.renderFinished[f := Pending]);
        var presenting := issued + [QueuePresent(imageIndex, f)];
        if !presentOk then
          DrawStep(submitted, PresentFailed, presenting)
        else
          var presented := submitted.(renderFinished := submitted.renderFinished[f := Unsignaled],
                                      currentFrame := (f + 1) % MAX_FRAME_DRAWS);
          DrawStep(presented, Presented, presenting)
  }

  // ----- Properties -----

  lemma InitialRingReady()
    ensures InitialRing().Ready()
    ensures forall i :: 0 <= i < MAX_FRAME_DRAWS ==> InitialRing().drawFences[i] == Signaled
  {
  }

  /**
    Whenever the fence wait returns, Draw waits on and resets the slot's fence before it
    submits; it submits the command buffer of the acquired image with the slot's semaphores
    and fence, and presents that image only once the submit succeeded.
   */
  lemma DrawCallOrder(ring: FrameRing, imageIndex: nat, submitOk: bool, presentOk: bool)
    requires ring.WellFormed()
    ensures var step := DrawFrame(ring, imageIndex, submitOk, presentOk);
      var f := ring.currentFrame;
      && (step.outcome == Blocked <==> ring.drawFences[f] == Unsignaled)
      && (step.outcome != Blocked ==>
            step.calls[..4] == [WaitForFence(f), ResetFence(f), AcquireNextImage(f), QueueSubmit(imageIndex, f, f, f)])
      && (QueuePresent(imageIndex, f) in step.calls <==> step.outcome in {Presented, PresentFailed})
      && |step.calls| <= 5
  {
    var step := DrawFrame(ring, imageIndex, submitOk, presentOk);
    if step.outcome != Blocked {
      assert step.calls[3] == QueueSubmit(imageIndex, ring.currentFrame, ring.currentFrame, ring.currentFrame);
    }
  }

  /** A Draw touches only the current slot's fence and semaphores, and a blocked Draw
      changes nothing. */
  lemma DrawTouchesOnlyCurrentSlot(ring: FrameRing, imageIndex: nat, submitOk: bool, presentOk: bool)
    requires ring.WellFormed()
    ensures var step := DrawFrame(ring, imageIndex, submitOk, presentOk);
      var f := ring.currentFrame;
      && (step.outcome == Blocked ==> step.ring == ring)
      && step.ring.drawFences == ring.drawFences[f := step.ring.drawFences[f]]
      && step.ring.imageAvailable == ring.imageAvailable[f := step.ring.imageAvailable[f]]
      && step.ring.renderFinished == ring.renderFinished[f := step.ring.renderFinished[f]]
      && (step.outcome != Blocked ==> step.ring.drawFences[f] != Signaled)
  {
  }

  /** The frame index moves, to the next slot, exactly when the image was presented. */
  lemma DrawAdvancesOnlyOnPresent(ring: FrameRing, imageIndex: nat, submitOk: bool, presentOk: bool)
    requires ring.WellFormed()
    ensures var step := DrawFrame(ring, imageIndex, submitOk, presentOk);
      && step.ring.WellFormed()
      && (step.outcome == Presented ==> step.ring.currentFrame == (ring.currentFrame + 1) % MAX_FRAME_DRAWS)
      && (step.outcome != Presented ==> step.ring.currentFrame == ring.currentFrame)
      && (step.outcome == Presented <==> ring.drawFences[ring.currentFrame] != Unsignaled && submitOk && presentOk)
  {
  }

  /** From a ready ring the fence wait always returns, and a fully successful frame leaves the
      ring ready again with only the slot's fence changed (now pending). */
  lemma DrawKeepsReady(ring: FrameRing, imageIndex: nat, submitOk: bool, presentOk: bool)
    requires ring.Ready()
    ensures DrawFrame(ring, imageIndex, submitOk, presentOk).outcome != Blocked
    ensures submitOk && presentOk ==>
      var next := DrawFrame(ring, imageIndex, submitOk, presentOk).ring;
      && next.Ready()
      && next.drawFences == ring.drawFences[ring.currentFrame := Pending]
      && next.imageAvailable == ring.imageAvailable
      && next.renderFinished == ring.renderFinished
  {
    if submitOk && presentOk {
      var f := ring.currentFrame;
      var next := DrawFrame(ring, imageIndex, submitOk, presentOk).ring;
      assert next.imageAvailable == ring.imageAvailable[f := Pending][f := Unsignaled];
      assert ring.imageAvailable[f] == Unsignaled;
      assert next.renderFinished == ring.renderFinished[f := Pending][f := Unsignaled];
      assert ring.renderFinished[f] == Unsignaled;
    }
  }

  /** After a failed submit the slot's fence is reset with nothing pending: a further Draw
      on that slot would wait forever. In main.cpp:41-45 nothing catches the submit's
      exception, so the program ends there; the stranded fence matters only to a caller
      that catches the error and draws again. */
  lemma FailedSubmitStrandsFence(ring: FrameRing, imageIndex: nat, presentOk: bool,
                                 nextImage: nat, nextSubmitOk: bool, nextPresentOk: bool)
    requires ring.WellFormed()
    requires DrawFrame(ring, imageIndex, false, presentOk).outcome == SubmitFailed
    ensures var failed := DrawFrame(ring, imageIndex, false, presentOk).ring;
      && !failed.Ready()
      && DrawFrame(failed, nextImage, nextSubmitOk, nextPresentOk).outcome == Blocked
  {
    var failed := DrawFrame(ring, imageIndex, false, presentOk).ring;
    assert failed.drawFences[failed.currentFrame] == Unsignaled;
  }

  /** The ring after a run of frames that all succeed, presenting the given images: it stays
      ready, its semaphores end as they began, and every slot drawn is left with its fence
      pending on the frame submitted in it. */
  function DrawFrames(ring: FrameRing, imageIndices: seq<nat>): (r: FrameRing)
    requires ring.Ready()
    ensures r.Ready()
    ensures r.imageAvailable == ring.imageAvailable && r.renderFinished == ring.renderFinished
    decreases |imageIndices|
  {
    if |imageIndices| == 0 then ring
    else
      DrawKeepsReady(ring, imageIndices[0], true, true);
      DrawFrames(DrawFrame(ring, imageIndices[0], true, true).ring, imageIndices[1..])
  }

  /** One frame from slot c, then `rest` more, lands where rest + 1 frames from c do. */
  lemma SlotAfterOneMore(c: nat, rest: nat, total: nat, nextSlot: nat, lastSlot: nat)
    requires total == rest + 1
    requires nextSlot == (c + 1) % MAX_FRAME_DRAWS
    requires lastSlot == (nextSlot + rest) % MAX_FRAME_DRAWS
    ensures lastSlot == (c + total) % MAX_FRAME_DRAWS
  {
  }

  /** No frame leaves the ring at its slot. */
  lemma SlotAfterNone(c: nat, total: nat)
    requires c < MAX_FRAME_DRAWS && total == 0
    ensures c == (c + total) % MAX_FRAME_DRAWS
  {
  }

  /** A run of successful frames is its first frame, which leaves the ring ready at the next
      slot, followed by the rest. */
  lemma DrawFramesFirst(ring: FrameRing, imageIndices: seq<nat>) returns (next: FrameRing)
    requires ring.Ready() && |imageIndices| > 0
    ensures next.Ready()
    ensures next.currentFrame == (ring.currentFrame + 1) % MAX_FRAME_DRAWS
    ensures DrawFrames(ring, imageIndices) == DrawFrames(next, imageIndices[1..])
  {
    DrawKeepsReady(ring, imageIndices[0], true, true);
    DrawAdvancesOnlyOnPresent(ring, imageIndices[0], true, true);
    next := DrawFrame(ring, imageIndices[0], true, true).ring;
  }

  /** After k successful frames from a ready ring at slot c the ring is ready at slot (c + k) mod 2. */
  lemma {:induction false} DrawFramesCountModulo(ring: FrameRing, imageIndices: seq<nat>)
    requires ring.Ready()
    ensures DrawFrames(ring, imageIndices).Ready()
    ensures DrawFrames(ring, imageIndices).currentFrame == (ring.currentFrame + |imageIndices|) % MAX_FRAME_DRAWS
    decreases |imageIndices|
  {
    if |imageIndices| > 0 {
      var next := DrawFramesFirst(ring, imageIndices);
      var rest := imageIndices[1..];
      DrawFramesCountModulo(next, rest);
      SlotAfterOneMore(ring.currentFrame, |rest|, |imageIndices|, next.currentFrame, DrawFrames(next, rest).currentFrame);
    } else {
      SlotAfterNone(ring.currentFrame, |imageIndices|);
    }
  }

  /** From the ring CreateSynchronization builds, frame k runs in slot k mod 2. */
  lemma FrameSlotIsFrameCountModulo(ring: FrameRing, imageIndices: seq<nat>)
    requires ring == InitialRing()
    ensures ring.Ready()
    ensures DrawFrames(ring, imageIndices).currentFrame == |imageIndices| % MAX_FRAME_DRAWS
  {
    InitialRingReady();
    FromFirstSlot(ring, imageIndices);
  }

  lemma FromFirstSlot(ring: FrameRing, imageIndices: seq<nat>)
    requires ring.Ready() && ring.currentFrame == 0
    ensures DrawFrames(ring, imageIndices).currentFrame == |imageIndices| % MAX_FRAME_DRAWS
  {
    DrawFramesCountModulo(ring, imageIndices);
    assert ring.currentFrame + |imageIndices| == |imageIndices|;
  }
}
