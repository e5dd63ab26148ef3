/** The queue-family scan of main.cpp (findQueueFamiliesInner). */
module QueueFamilies {
  import opened Vk
  import opened EngineTypes

  /** Some family among the first k + 1 has the graphics flag and some
      (possibly other) family among them can present. */
  ghost predicate BothSeenBy(families: seq<QueueFamily>, k: nat)
    requires k < |families|
  {
    && (exists j :: 0 <= j <= k && HasGraphics(families[j]))
    && (exists j :: 0 <= j <= k && families[j].presentSupport)
  }

  ghost predicate SomeGraphics(families: seq<QueueFamily>) {
    exists j :: 0 <= j < |families| && HasGraphics(families[j])
  }

  ghost predicate SomePresent(families: seq<QueueFamily>) {
    exists j :: 0 <= j < |families| && families[j].presentSupport
  }

  /** How many families the scan looked at before returning `indices`. */
  function Examined(indices: QueueFamilyIndices, count: nat): nat {
    if indices.IsComplete() then Max(indices.graphicsFamily.value, indices.presentFamily.value) + 1
    else count
  }

  function Max(a: nat, b: nat): nat {
    if a < b then b else a
  }

  /** One step of the scan: family i is recorded as the graphics family when
      it has the graphics flag and as the present family when it can present. */
  function Record(family: QueueFamily, i: nat, acc: QueueFamilyIndices): QueueFamilyIndices {
    var withGraphics := if HasGraphics(family) then acc.(graphicsFamily := Some(i)) else acc;
    if family.presentSupport then withGraphics.(presentFamily := Some(i)) else withGraphics
  }

  /** The scan from index i on, with `acc` recorded so far; it ends right
      after the first index at which both families are recorded. */
  function ScanFrom(families: seq<QueueFamily>, i: nat, acc: QueueFamilyIndices): QueueFamilyIndices
    requires i <= |families|
    decreases |families| - i
  {
    if i == |families| then acc
    else
      var next := Record(families[i], i, acc);
      if next.IsComplete() then next else ScanFrom(families, i + 1, next)
  }

  /** What findQueueFamiliesInner returns for `families`. */
  function FoundFamilies(families: seq<QueueFamily>): QueueFamilyIndices {
    ScanFrom(families, 0, QueueFamilyIndices(None, None))
  }

  /** The indices a scan has recorded before index i: each names a family
      with its capability, is the last such index, and the scan did not stop
      before i. */
  ghost predicate ScannedUpTo(families: seq<QueueFamily>, i: nat, acc: QueueFamilyIndices)
    requires i <= |families|
  {
    && !acc.IsComplete()
    && (acc.graphicsFamily.Some? ==>
          acc.graphicsFamily.value < i && HasGraphics(families[acc.graphicsFamily.value]))
    && (acc.presentFamily.Some? ==>
          acc.presentFamily.value < i && families[acc.presentFamily.value].presentSupport)
    && (forall j :: 0 <= j < i && HasGraphics(families[j]) ==>
          acc.graphicsFamily.Some? && j <= acc.graphicsFamily.value)
    && (forall j :: 0 <= j < i && families[j].presentSupport ==>
          acc.presentFamily.Some? && j <= acc.presentFamily.value)
    && (forall k :: 0 <= k < i ==> !BothSeenBy(families, k))
  }

  /** What the scan promises about its result: every returned index names a
      family with the wanted capability and is the last such index among
      those examined; the result is complete exactly when both capabilities
      exist; the scan stops at the first index by which both have been seen. */
  ghost predicate Characterizes(families: seq<QueueFamily>, indices: QueueFamilyIndices) {
    && Examined(indices, |families|) <= |families|
    && (indices.graphicsFamily.Some? ==>
          indices.graphicsFamily.value < Examined(indices, |families|) &&
          HasGraphics(families[indices.graphicsFamily.value]))
    && (indices.presentFamily.Some? ==>
          indices.presentFamily.value < Examined(indices, |families|) &&
          families[indices.presentFamily.value].presentSupport)
    && (indices.IsComplete() <==> SomeGraphics(families) && SomePresent(families))
    && (forall k :: 0 <= k < Examined(indices, |families|) - 1 ==> !BothSeenBy(families, k))
    && (forall j :: 0 <= j < Examined(indices, |families|) && HasGraphics(families[j]) ==>
          indices.graphicsFamily.Some? && j <= indices.graphicsFamily.value)
    && (forall j :: 0 <= j < Examined(indices, |families|) && families[j].presentSupport ==>
          indices.presentFamily.Some? && j <= indices.presentFamily.value)
  }

  /** A step that leaves the indices incomplete keeps what has been scanned. */
  lemma ScanStepKeeps(families: seq<QueueFamily>, i: nat, acc: QueueFamilyIndices)
    requires i < |families| && ScannedUpTo(families, i, acc)
    requires !Record(families[i], i, acc).IsComplete()
    ensures ScannedUpTo(families, i + 1, Record(families[i], i, acc))
  {
    assert !BothSeenBy(families, i);
  }

  /** The step that completes the indices gives the scan's result. */
  lemma ScanStopCharacterized(families: seq<QueueFamily>, i: nat, acc: QueueFamilyIndices)
    requires i < |families| && ScannedUpTo(families, i, acc)
    requires Record(families[i], i, acc).IsComplete()
    ensures Characterizes(families, Record(families[i], i, acc))
  {
    var next := Record(families[i], i, acc);
    assert Max(next.graphicsFamily.value, next.presentFamily.value) == i;
  }

  /** A scan resumed at i from what the first i families left keeps the
      promise, by induction on the families still to see. */
  lemma {:induction false} ScanFromCharacterized(families: seq<QueueFamily>, i: nat, acc: QueueFamilyIndices)
    requires i <= |families| && ScannedUpTo(families, i, acc)
    ensures Characterizes(families, ScanFrom(families, i, acc))
    decreases |families| - i
  {
    if i == |families| {
      // the end of the families: nothing is complete and nothing more to see
    } else if Record(families[i], i, acc).IsComplete() {
      ScanStopCharacterized(families, i, acc);
    } else {
      ScanStepKeeps(families, i, acc);
      ScanFromCharacterized(families, i + 1, Record(families[i], i, acc));
    }
  }

  /** The scan from the start, with nothing recorded, keeps that promise. */
  lemma FoundFamiliesCharacterized(families: seq<QueueFamily>)
    ensures Characterizes(families, FoundFamilies(families))
  {
    ScanFromCharacterized(families, 0, QueueFamilyIndices(None, None));
  }

  /** findQueueFamiliesInner: walks the families in order, recording the
      current index as the graphics family whenever it has the graphics flag
      and as the present family whenever it can present, and stops right
      after the first index at which both have been recorded. */
  method FindQueueFamilies(families: seq<QueueFamily>) returns (indices: QueueFamilyIndices)
    ensures indices == FoundFamilies(families)
    ensures Examined(indices, |families|) <= |families|
    // every returned index names a family with the wanted capability
    ensures indices.graphicsFamily.Some? ==>
              indices.graphicsFamily.value < Examined(indices, |families|) &&
              HasGraphics(families[indices.graphicsFamily.value])
    ensures indices.presentFamily.Some? ==>
              indices.presentFamily.value < Examined(indices, |families|) &&
              families[indices.presentFamily.value].presentSupport
    // the result is complete exactly when both capabilities exist somewhere
    ensures indices.IsComplete() <==> SomeGraphics(families) && SomePresent(families)
    // the scan stops at the first index by which both have been seen
    ensures forall k :: 0 <= k < Examined(indices, |families|) - 1 ==> !BothSeenBy(families, k)
    // each recorded index is the last one with that capability among those examined
    ensures forall j :: 0 <= j < Examined(indices, |families|) && HasGraphics(families[j]) ==>
              indices.graphicsFamily.Some? && j <= indices.graphicsFamily.value
    ensures forall j :: 0 <= j < Examined(indices, |families|) && families[j].presentSupport ==>
              indices.presentFamily.Some? && j <= indices.presentFamily.value
  {
    indices := QueueFamilyIndices(None, None);
    var i := 0;
    while i < |families|
      invariant 0 <= i <= |families|
      invariant !indices.IsComplete()
      invariant ScanFrom(families, i, indices) == FoundFamilies(families)
    {
      if HasGraphics(families[i]) {
        indices := indices.(graphicsFamily := Some(i));
      }
      if families[i].presentSupport {
        indices := indices.(presentFamily := Some(i));
      }
      if indices.IsComplete() {
        break;
      }
      i := i + 1;
    }
    FoundFamiliesCharacterized(families);
  }
}
