/** The order in which run() creates the window-system and Vulkan objects and
    the order in which cleanup destroys them. */
module Teardown {

  datatype VkObject = Window | Instance | DebugCallback | Surface | LogicalDevice | Swapchain

  /** The objects an object is made from and must not outlive. */
  function Parents(o: VkObject): set<VkObject>
  {
    match o
    case Window => {}
    case Instance => {}
    case DebugCallback => {Instance}
    case Surface => {Instance, Window}
    case LogicalDevice => {Instance}
    case Swapchain => {LogicalDevice, Surface}
  }

  /** No object in the list comes after one of its parents. */
  predicate ChildrenBeforeParents(order: seq<VkObject>)
  {
    forall i, j :: 0 <= i < j < |order| ==> order[i] !in Parents(order[j])
  }

  /** How many derivation steps separate an object from the roots. */
  function Depth(o: VkObject): nat
  {
    match o
    case Window => 0
    case Instance => 0
    case DebugCallback => 1
    case Surface => 1
    case LogicalDevice => 1
    case Swapchain => 2
  }

  /** Every parent is shallower than its child. */
  lemma ParentsAreShallower(o: VkObject)
    ensures forall p :: p in Parents(o) ==> Depth(p) < Depth(o)
  {
  }

  /** A list whose depths never increase destroys children first. */
  lemma DeepestFirstIsChildrenFirst(order: seq<VkObject>)
    requires forall i, j :: 0 <= i < j < |order| ==> Depth(order[i]) >= Depth(order[j])
    ensures ChildrenBeforeParents(order)
  {
    forall i, j | 0 <= i < j < |order| ensures order[i] !in Parents(order[j]) {
      ParentsAreShallower(order[j]);
    }
  }

  /** initWindow then initVulkan; the debug callback exists only with
      validation. */
  function CreationOrder(enableValidationLayers: bool): seq<VkObject>
  {
    [Window, Instance] + (if enableValidationLayers then [DebugCallback] else []) + [Surface, LogicalDevice, Swapchain]
  }

  /** cleanup: the destroy calls in program order. The destroy wrapper for
      the debug callback is called whether or not the callback was set up. */
  function CleanupOrder(): seq<VkObject>
  {
    [Swapchain, LogicalDevice, DebugCallback, Surface, Instance, Window]
  }

  /** cleanup destroys every object before the objects it was made from. */
  lemma CleanupDestroysChildrenFirst()
    ensures ChildrenBeforeParents(CleanupOrder())
  {
    var order := CleanupOrder();
    var depths := [2, 1, 1, 1, 0, 0];
    assert forall k :: 0 <= k < |order| ==> Depth(order[k]) == depths[k];
    DeepestFirstIsChildrenFirst(order);
  }

  /** cleanup destroys each object that run() can create exactly once. */
  lemma CleanupDestroysEachObjectOnce()
    ensures multiset(CleanupOrder()) == multiset(CreationOrder(true))
  {
  }

  /** Creation respects the dependencies: every object comes after its
      parents. */
  lemma CreationAfterParents(enableValidationLayers: bool)
    ensures var c := CreationOrder(enableValidationLayers);
      forall i, j :: 0 <= i < j < |c| ==> c[j] !in Parents(c[i])
  {
  }

  /** The destroyed list is the created list read backwards. */
  predicate IsReverseOf(destroyed: seq<VkObject>, created: seq<VkObject>)
  {
    |destroyed| == |created| && forall i :: 0 <= i < |destroyed| ==> destroyed[i] == created[|created| - 1 - i]
  }

  /** Teardown is not the exact reverse of creation: the debug callback is
      destroyed before the surface although it was created before it. */
  lemma CleanupIsNotReverseOfCreation()
    ensures !IsReverseOf(CleanupOrder(), CreationOrder(true))
  {
    assert CleanupOrder()[2] != CreationOrder(true)[3];
  }

  /** Without validation cleanup still calls the destroy wrapper on a
      debug-callback handle that was never set. */
  lemma CleanupDestroysUncreatedCallback()
    ensures DebugCallback in CleanupOrder() && DebugCallback !in CreationOrder(false)
  {
  }
}
