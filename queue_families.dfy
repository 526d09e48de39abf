/** Queue-family selection (findQueueFamilies), the distinct-family queue
    requests of createLogicalDevice and the image sharing mode of
    createSwapChain. */
module QueueFamilies {
  import opened VkTypes

  /** Two optional family indices; complete once both are known. The two may
      name the same family. */
  datatype QueueFamilyIndices = QueueFamilyIndices(graphicsFamily: Option<nat>, presentFamily: Option<nat>)
  {
    predicate IsComplete() { graphicsFamily.Some? && presentFamily.Some? }
  }

  datatype Capability = Graphics | Present

  /** A family qualifies for a capability when it has at least one queue and
      the graphics bit, respectively the surface-support answer. */
  predicate Supports(f: QueueFamily, c: Capability)
  {
    f.queueCount > 0 &&
    match c
    case Graphics => f.queueFlags & QueueGraphicsBit != 0
    case Present => f.presentSupport
  }

  predicate HasFamilyFor(fs: seq<QueueFamily>, c: Capability)
  {
    exists i :: 0 <= i < |fs| && Supports(fs[i], c)
  }

  /** The greatest index below n whose family qualifies for c, if any. */
  function LastSupporting(fs: seq<QueueFamily>, n: nat, c: Capability): (r: Option<nat>)
    requires n <= |fs|
    ensures r.Some? ==> r.value < n && Supports(fs[r.value], c)
    ensures r.Some? ==> forall i :: r.value < i < n ==> !Supports(fs[i], c)
    ensures r.None? ==> forall i :: 0 <= i < n ==> !Supports(fs[i], c)
  {
    if n == 0 then None
    else if Supports(fs[n - 1], c) then Some(n - 1)
    else LastSupporting(fs, n - 1, c)
  }

  /** The indices held by the scan after it has examined families 0 .. n-1
      without stopping: each is the last qualifying family seen so far. */
  function IndicesAfter(fs: seq<QueueFamily>, n: nat): QueueFamilyIndices
    requires n <= |fs|
  {
    QueueFamilyIndices(LastSupporting(fs, n, Graphics), LastSupporting(fs, n, Present))
  }

  /** How many families the scan examines when it has already examined
      `from` of them: it stops right after the first family at which the
      indices become complete, or at the end of the list. */
  function ScanLength(fs: seq<QueueFamily>, from: nat): (n: nat)
    requires from <= |fs|
    ensures from <= n <= |fs|
    ensures n == |fs| || (from < n && IndicesAfter(fs, n).IsComplete())
    ensures forall k :: from < k < n ==> !IndicesAfter(fs, k).IsComplete()
    decreases |fs| - from
  {
    if from == |fs| then |fs|
    else if IndicesAfter(fs, from + 1).IsComplete() then from + 1
    else ScanLength(fs, from + 1)
  }

  /** Reference definition of what findQueueFamilies returns. */
  function ScannedFamilies(fs: seq<QueueFamily>): QueueFamilyIndices
  {
    IndicesAfter(fs, ScanLength(fs, 0))
  }

  /** findQueueFamilies: a counted loop that overwrites each index with every
      later qualifying family and breaks as soon as both are set. */
  method FindQueueFamilies(queueFamilies: seq<QueueFamily>) returns (indices: QueueFamilyIndices)
    ensures indices == ScannedFamilies(queueFamilies)
  {
    indices := QueueFamilyIndices(None, None);
    var i := 0;
    while i < |queueFamilies|
      invariant 0 <= i <= |queueFamilies|
      invariant indices == IndicesAfter(queueFamilies, i)
      invariant ScanLength(queueFamilies, 0) == ScanLength(queueFamilies, i)
    {
      var queueFamily := queueFamilies[i];
      if queueFamily.queueCount > 0 && queueFamily.queueFlags & QueueGraphicsBit != 0 {
        indices := indices.(graphicsFamily := Some(i));
      }
      var presentSupport := queueFamily.presentSupport;
      if queueFamily.queueCount > 0 && presentSupport {
        indices := indices.(presentFamily := Some(i));
      }
      if indices.IsComplete() {
        break;
      }
      i := i + 1;
    }
  }

  /** A returned index always names a family that qualifies for its role. */
  lemma ScannedFamiliesQualify(fs: seq<QueueFamily>)
    ensures ScannedFamilies(fs).graphicsFamily.Some? ==>
      ScannedFamilies(fs).graphicsFamily.value < |fs| && Supports(fs[ScannedFamilies(fs).graphicsFamily.value], Graphics)
    ensures ScannedFamilies(fs).presentFamily.Some? ==>
      ScannedFamilies(fs).presentFamily.value < |fs| && Supports(fs[ScannedFamilies(fs).presentFamily.value], Present)
  {
    var n := ScanLength(fs, 0);
    assert n <= |fs|;
  }

  /** The scan ends complete exactly when some family supports graphics and
      some (possibly other) family supports presentation. */
  lemma ScanCompleteIff(fs: seq<QueueFamily>)
    ensures ScannedFamilies(fs).IsComplete() <==> HasFamilyFor(fs, Graphics) && HasFamilyFor(fs, Present)
  {
    if ScannedFamilies(fs).IsComplete() {
      var g := ScannedFamilies(fs).graphicsFamily.value;
      var p := ScannedFamilies(fs).presentFamily.value;
      assert Supports(fs[g], Graphics);
      assert Supports(fs[p], Present);
    }
  }

  /** When the scan succeeds it stops at the first family index at which both
      roles are filled: that index is the larger of the two results, no
      earlier prefix of the list was complete, and each result is the LAST
      qualifying family up to the stop (a graphics family seen early is
      overwritten by a later one). */
  lemma {:induction false} ScanStopsAtFirstComplete(fs: seq<QueueFamily>)
    requires ScannedFamilies(fs).IsComplete()
    ensures var r := ScannedFamilies(fs);
      var stop := if r.graphicsFamily.value < r.presentFamily.value then r.presentFamily.value else r.graphicsFamily.value;
      stop < |fs| &&
      (forall k :: 0 < k <= stop ==> !IndicesAfter(fs, k).IsComplete()) &&
      (forall i :: r.graphicsFamily.value < i <= stop ==> !Supports(fs[i], Graphics)) &&
      (forall i :: r.presentFamily.value < i <= stop ==> !Supports(fs[i], Present))
  {
    var r := ScannedFamilies(fs);
    var n := ScanLength(fs, 0);
    var g, p := r.graphicsFamily.value, r.presentFamily.value;
    assert g < n && p < n;
    var stop := if g < p then p else g;
    // The prefix of length n - 1 is not complete, so one of the roles was
    // first filled by family n - 1 itself.
    if n - 1 > 0 {
      assert !IndicesAfter(fs, n - 1).IsComplete();
      if LastSupporting(fs, n - 1, Graphics).None? {
        assert Supports(fs[g], Graphics);
        assert g == n - 1;
      } else {
        assert LastSupporting(fs, n - 1, Present).None?;
        assert Supports(fs[p], Present);
        assert p == n - 1;
      }
    }
    assert stop == n - 1;
  }

  /** std::set<int>{graphicsFamily, presentFamily} in iteration order:
      ascending, without duplicates. */
  function UniqueQueueFamilies(graphicsFamily: nat, presentFamily: nat): (s: seq<nat>)
    ensures forall i, j :: 0 <= i < j < |s| ==> s[i] < s[j]
    ensures forall f :: f in s <==> f == graphicsFamily || f == presentFamily
  {
    if graphicsFamily == presentFamily then [graphicsFamily]
    else if graphicsFamily < presentFamily then [graphicsFamily, presentFamily]
    else [presentFamily, graphicsFamily]
  }

  /** VkDeviceQueueCreateInfo, without its float priority. */
  datatype DeviceQueueCreateInfo = DeviceQueueCreateInfo(queueFamilyIndex: nat, queueCount: nat)

  /** The family indices a list of queue requests names. */
  function RequestedFamilies(infos: seq<DeviceQueueCreateInfo>): set<nat>
  {
    set k | 0 <= k < |infos| :: infos[k].queueFamilyIndex
  }

  /** The loop of createLogicalDevice that pushes one request with one queue
      for every distinct family. */
  method BuildQueueCreateInfos(graphicsFamily: nat, presentFamily: nat) returns (queueCreateInfos: seq<DeviceQueueCreateInfo>)
    ensures |queueCreateInfos| == if graphicsFamily == presentFamily then 1 else 2
    ensures RequestedFamilies(queueCreateInfos) == {graphicsFamily, presentFamily}
    ensures forall k, l :: 0 <= k < l < |queueCreateInfos| ==>
              queueCreateInfos[k].queueFamilyIndex < queueCreateInfos[l].queueFamilyIndex
    ensures forall k :: 0 <= k < |queueCreateInfos| ==> queueCreateInfos[k].queueCount == 1
  {
    var uniqueQueueFamilies := UniqueQueueFamilies(graphicsFamily, presentFamily);
    queueCreateInfos := [];
    for i := 0 to |uniqueQueueFamilies|
      invariant |queueCreateInfos| == i
      invariant forall k :: 0 <= k < i ==> queueCreateInfos[k] == DeviceQueueCreateInfo(uniqueQueueFamilies[k], 1)
    {
      var queueCreateInfo := DeviceQueueCreateInfo(uniqueQueueFamilies[i], 1);
      queueCreateInfos := queueCreateInfos + [queueCreateInfo];
    }
    assert graphicsFamily in uniqueQueueFamilies && presentFamily in uniqueQueueFamilies;
  }

  datatype SharingMode = Exclusive | Concurrent

  /** The image sharing part of VkSwapchainCreateInfoKHR; the family index
      count is the length of the index list. */
  datatype ImageSharing = ImageSharing(mode: SharingMode, queueFamilyIndices: seq<nat>)

  /** Images are shared concurrently between two different families and owned
      exclusively (with no family list) when the families coincide. */
  function ImageSharingFor(graphicsFamily: nat, presentFamily: nat): (s: ImageSharing)
    ensures s.mode == Concurrent <==> graphicsFamily != presentFamily
    ensures s.mode == Concurrent ==> s.queueFamilyIndices == [graphicsFamily, presentFamily]
    ensures s.mode == Exclusive ==> s.queueFamilyIndices == []
  {
    if graphicsFamily != presentFamily then ImageSharing(Concurrent, [graphicsFamily, presentFamily])
    else ImageSharing(Exclusive, [])
  }

  /** The swap chain's sharing mode and the logical device's queue requests
      agree: exclusive ownership exactly when one family is requested, and a
      concurrent image is shared among exactly the requested families. */
  lemma SharingMatchesQueueRequests(graphicsFamily: nat, presentFamily: nat)
    ensures var s := ImageSharingFor(graphicsFamily, presentFamily);
      var u := UniqueQueueFamilies(graphicsFamily, presentFamily);
      (s.mode == Exclusive <==> |u| == 1) &&
      (s.mode == Concurrent ==> forall f :: f in s.queueFamilyIndices <==> f in u)
  {
  }
}
