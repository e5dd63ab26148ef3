/** The synchronisation protocol of drawFrame (main.cpp), stated over the
    sequence of driver calls it makes. */
module FrameProtocol {
  import opened Vk

  /** A driver call of the frame loop. A submission also names the
      swapchain image whose command buffer it carries. */
  datatype Event =
    | WaitForFence(fence: Handle)
    | AcquireNextImage(semaphore: Handle, image: nat)
    | ClaimImage(image: nat, fence: Handle)
    | ResetFence(fence: Handle)
    | QueueSubmit(image: nat, commandBuffer: Handle, waitSemaphore: Handle, signalSemaphore: Handle, fence: Handle)
    | QueuePresent(image: nat, waitSemaphore: Handle)

  /** The calls of one drawFrame, in order: throttle on the slot fence,
      acquire, wait on the image's previous fence when there is one, claim
      the image for the slot fence, reset that fence, submit the image's
      command buffer waiting on and signalling the slot's image-available
      semaphore, and, if the submit succeeded, present waiting on that same
      semaphore. */
  function FrameEvents(fence: Handle, semaphore: Handle, image: nat, previous: Handle,
                       commandBuffer: Handle, submitted: bool): seq<Event>
  {
    [WaitForFence(fence), AcquireNextImage(semaphore, image)]
    + (if previous != NULL_HANDLE then [WaitForFence(previous)] else [])
    + [ClaimImage(image, fence), ResetFence(fence), QueueSubmit(image, commandBuffer, semaphore, semaphore, fence)]
    + (if submitted then [QueuePresent(image, semaphore)] else [])
  }

  predicate SubmitsImage(e: Event, image: nat) {
    e.QueueSubmit? && e.image == image
  }

  /** Position p holds the last submission of `image` in t. */
  ghost predicate LastSubmitAt(t: seq<Event>, image: nat, p: int) {
    && 0 <= p < |t| && SubmitsImage(t[p], image)
    && forall k :: p < k < |t| ==> !SubmitsImage(t[k], image)
  }

  /** The image-fence table agrees with the trace: an entry is null exactly
      when its image was never submitted, and otherwise holds the fence of
      the image's last submission. */
  ghost predicate Owned(t: seq<Event>, table: seq<Handle>) {
    forall i :: 0 <= i < |table| ==>
      if table[i] == NULL_HANDLE then forall k :: 0 <= k < |t| ==> !SubmitsImage(t[k], i)
      else exists p :: LastSubmitAt(t, i, p) && t[p].fence == table[i]
  }

  /** Between two consecutive submissions of the same image, the fence of the
      earlier one has been waited on. */
  ghost predicate HazardFree(t: seq<Event>) {
    forall p, q ::
      (&& 0 <= p < q < |t| && t[q].QueueSubmit? && SubmitsImage(t[p], t[q].image)
       && forall k :: p < k < q ==> !SubmitsImage(t[k], t[q].image))
      ==> exists k :: p < k < q && t[k] == WaitForFence(t[p].fence)
  }

  lemma FrameEventsShape(fence: Handle, semaphore: Handle, image: nat, previous: Handle,
                         commandBuffer: Handle, submitted: bool)
    ensures var e := FrameEvents(fence, semaphore, image, previous, commandBuffer, submitted);
            var s := if previous != NULL_HANDLE then 5 else 4;
            && |e| == s + (if submitted then 2 else 1)
            // the throttle on the slot fence comes first, then the acquire
            && e[0] == WaitForFence(fence) && e[1] == AcquireNextImage(semaphore, image)
            // the claim, then the reset right before the submit fenced by the same fence
            && e[s - 2] == ClaimImage(image, fence) && e[s - 1] == ResetFence(fence)
            && e[s] == QueueSubmit(image, commandBuffer, semaphore, semaphore, fence)
            && (forall k :: 0 <= k < |e| && k != s ==> !e[k].QueueSubmit?)
            // the previous owner is waited on exactly when there is one, and nothing else is waited on
            && (previous != NULL_HANDLE ==> e[2] == WaitForFence(previous))
            && (forall k :: 0 < k < |e| && e[k].WaitForFence? ==> previous != NULL_HANDLE && k == 2)
            && (submitted ==> e[s + 1] == QueuePresent(image, semaphore))
  {
  }

  /** After one drawFrame the one submission it adds is the last of its image. */
  lemma FrameSubmitsOnce(t: seq<Event>, fence: Handle, semaphore: Handle, image: nat, previous: Handle,
                         commandBuffer: Handle, submitted: bool)
    ensures var t' := t + FrameEvents(fence, semaphore, image, previous, commandBuffer, submitted);
            var q := |t| + (if previous != NULL_HANDLE then 5 else 4);
            && q < |t'| && t'[q] == QueueSubmit(image, commandBuffer, semaphore, semaphore, fence)
            && (forall k :: |t| <= k < |t'| && k != q ==> !t'[k].QueueSubmit?)
            && (previous != NULL_HANDLE ==> t'[|t| + 2] == WaitForFence(previous))
  {
    var e := FrameEvents(fence, semaphore, image, previous, commandBuffer, submitted);
    FrameEventsShape(fence, semaphore, image, previous, commandBuffer, submitted);
    var t' := t + e;
    forall k | |t| <= k < |t'| ensures t'[k] == e[k - |t|] {
    }
  }

  /** One drawFrame keeps the table in agreement with the trace: the claimed
      entry becomes the fence of the new submission, the others keep theirs. */
  lemma FrameKeepsOwned(t: seq<Event>, table: seq<Handle>, image: nat, fence: Handle,
                        semaphore: Handle, commandBuffer: Handle, submitted: bool)
    requires image < |table| && fence != NULL_HANDLE
    requires Owned(t, table)
    ensures Owned(t + FrameEvents(fence, semaphore, image, table[image], commandBuffer, submitted),
                  table[image := fence])
  {
    var previous := table[image];
    var t' := t + FrameEvents(fence, semaphore, image, previous, commandBuffer, submitted);
    var q := |t| + (if previous != NULL_HANDLE then 5 else 4);
    FrameSubmitsOnce(t, fence, semaphore, image, previous, commandBuffer, submitted);
    var table' := table[image := fence];
    forall i | 0 <= i < |table'|
      ensures if table'[i] == NULL_HANDLE then forall k :: 0 <= k < |t'| ==> !SubmitsImage(t'[k], i)
              else exists p :: LastSubmitAt(t', i, p) && t'[p].fence == table'[i]
    {
      if i == image {
        assert LastSubmitAt(t', i, q);
      } else if table[i] == NULL_HANDLE {
        forall k | 0 <= k < |t'| ensures !SubmitsImage(t'[k], i) {
          if k < |t| { assert t'[k] == t[k] && !SubmitsImage(t[k], i); }
        }
      } else {
        var p :| LastSubmitAt(t, i, p) && t[p].fence == table[i];
        assert t'[p] == t[p];
        assert LastSubmitAt(t', i, p);
      }
    }
  }

  /** One drawFrame adds no hazard: when the image it submits was submitted
      before, the fence of that earlier submission is the `previous` fence
      the frame waits on before its own submission. */
  lemma FrameKeepsHazardFree(t: seq<Event>, table: seq<Handle>, image: nat, fence: Handle,
                             semaphore: Handle, commandBuffer: Handle, submitted: bool)
    requires image < |table|
    requires Owned(t, table) && HazardFree(t)
    ensures HazardFree(t + FrameEvents(fence, semaphore, image, table[image], commandBuffer, submitted))
  {
    var previous := table[image];
    var t' := t + FrameEvents(fence, semaphore, image, previous, commandBuffer, submitted);
    var q := |t| + (if previous != NULL_HANDLE then 5 else 4);
    FrameSubmitsOnce(t, fence, semaphore, image, previous, commandBuffer, submitted);
    forall p, q2 | && 0 <= p < q2 < |t'| && t'[q2].QueueSubmit? && SubmitsImage(t'[p], t'[q2].image)
                   && (forall k :: p < k < q2 ==> !SubmitsImage(t'[k], t'[q2].image))
      ensures exists k :: p < k < q2 && t'[k] == WaitForFence(t'[p].fence)
    {
      if q2 < |t| {
        assert t'[q2] == t[q2] && t'[p] == t[p];
        assert forall k :: p < k < q2 ==> t'[k] == t[k];
        var k :| p < k < q2 && t[k] == WaitForFence(t[p].fence);
        assert t'[k] == WaitForFence(t'[p].fence);
      } else {
        assert q2 == q;
        if p >= |t| {
          assert false;
        }
        assert t'[p] == t[p];
        assert forall k :: p < k < |t| ==> t'[k] == t[k];
        assert LastSubmitAt(t, image, p);
        assert previous != NULL_HANDLE;
        var p0 :| LastSubmitAt(t, image, p0) && t[p0].fence == previous;
        assert p0 == p;
      }
    }
  }

  /** One drawFrame keeps the table and the trace in agreement and adds no
      hazard, given that the table entry it consults is the one the trace
      determines. */
  lemma FrameKeepsProtocol(t: seq<Event>, table: seq<Handle>, image: nat, fence: Handle,
                           semaphore: Handle, commandBuffer: Handle, submitted: bool)
    requires image < |table| && fence != NULL_HANDLE
    requires Owned(t, table) && HazardFree(t)
    ensures var t' := t + FrameEvents(fence, semaphore, image, table[image], commandBuffer, submitted);
            Owned(t', table[image := fence]) && HazardFree(t')
  {
    FrameKeepsOwned(t, table, image, fence, semaphore, commandBuffer, submitted);
    FrameKeepsHazardFree(t, table, image, fence, semaphore, commandBuffer, submitted);
  }

  /** The frame-loop state the trace, the image-fence table, the slot fences
      and the ghost fence sets must keep together: slot fences are non-null,
      each table entry is null or a slot fence and agrees with the trace, the
      trace has no hazard, and only slot fences are pending, none of them
      also signaled. */
  ghost predicate Consistent(t: seq<Event>, table: seq<Handle>, fences: seq<Handle>,
                             signaled: set<Handle>, pending: set<Handle>)
  {
    && (forall j :: 0 <= j < |fences| ==> fences[j] != NULL_HANDLE)
    && (forall i :: 0 <= i < |table| ==> table[i] == NULL_HANDLE || table[i] in fences)
    && Owned(t, table) && HazardFree(t)
    && signaled !! pending && pending <= Elements(fences)
  }

  /** Every slot fence is signaled or pending, so waiting on it returns. */
  ghost predicate AllLive(fences: seq<Handle>, signaled: set<Handle>, pending: set<Handle>) {
    forall j :: 0 <= j < |fences| ==> fences[j] in signaled + pending
  }

  /** The fences a frame waits on: the slot fence, and the image's previous
      fence when there is one. */
  function Waited(fence: Handle, previous: Handle): set<Handle> {
    if previous != NULL_HANDLE then {fence, previous} else {fence}
  }

  /** One drawFrame from slot `slot` on image `image`, once every fence it
      waits on is signaled: the slot fence is reset and, when the submit
      succeeds, pending again. The state stays consistent, and stays live
      when the submit succeeds. */
  lemma FrameStep(t: seq<Event>, table: seq<Handle>, fences: seq<Handle>,
                  signaled: set<Handle>, pending: set<Handle>, slot: nat, image: nat,
                  semaphore: Handle, commandBuffer: Handle, submitted: bool)
    requires slot < |fences| && image < |table|
    requires Consistent(t, table, fences, signaled, pending) && AllLive(fences, signaled, pending)
    requires Waited(fences[slot], table[image]) <= signaled
    ensures var fence, previous := fences[slot], table[image];
            var signaled', pending' := signaled - {fence}, pending + (if submitted then {fence} else {});
            && Consistent(t + FrameEvents(fence, semaphore, image, previous, commandBuffer, submitted),
                          table[image := fence], fences, signaled', pending')
            && (submitted ==> AllLive(fences, signaled', pending'))
  {
    var fence := fences[slot];
    FrameKeepsProtocol(t, table, image, fence, semaphore, commandBuffer, submitted);
    var table' := table[image := fence];
    forall i | 0 <= i < |table'| ensures table'[i] == NULL_HANDLE || table'[i] in fences {
      if i != image { assert table'[i] == table[i]; }
    }
  }

  /** The state createSyncObjects leaves: a table of null entries, no call
      made yet, every slot fence signaled and none pending. */
  lemma InitialConsistent(n: nat, fences: seq<Handle>)
    requires forall j :: 0 <= j < |fences| ==> fences[j] != NULL_HANDLE
    ensures Consistent([], seq(n, _ => NULL_HANDLE), fences, Elements(fences), {})
    ensures AllLive(fences, Elements(fences), {})
  {
  }

  /** The handles held by a vector. */
  ghost function Elements(s: seq<Handle>): set<Handle> {
    set x | x in s
  }

  /** A vector of n handles holds at most n distinct ones. */
  lemma {:induction false} ElementsAtMost(s: seq<Handle>)
    ensures |Elements(s)| <= |s|
  {
    if s != [] {
      var init := s[..|s| - 1];
      ElementsAtMost(init);
      assert s == init + [s[|s| - 1]];
      assert Elements(s) == Elements(init) + {s[|s| - 1]};
    }
  }
}
