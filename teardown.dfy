/**
  The teardown order of VulkanRenderer::Cleanup. Objects are named by their role (and by
  their frame slot or swapchain image index); Cleanup is the sequence of calls it issues:
  one device-idle wait, then one destroy per owned object.
 */
module Teardown {
  import opened Utilities

  /** Every object the renderer owns. */
  datatype Obj =
    | VertexBuffer | VertexBufferMemory
    | RenderFinished(slot: nat) | ImageAvailable(slot: nat) | DrawFence(slot: nat)
    | CommandPool
    | Framebuffer(image: nat)
    | Pipeline | PipelineLayout | RenderPass
    | ImageView(image: nat)
    | Swapchain | Surface | DebugMessenger | Device | Instance

  datatype Call = DeviceWaitIdle | Destroy(obj: Obj)

  /**
    a was created from b or is bound to it, so a must be gone before b is destroyed:
    every device-level object comes from the device, the surface, the device and the debug
    messenger from the instance; framebuffer i is built on image view i and the render pass,
    the pipeline on its layout and the render pass, each image view on a swapchain image,
    the swapchain on the surface, and the vertex buffer is bound to its memory.
   */
  predicate DependsOn(a: Obj, b: Obj) {
    match a
    case VertexBuffer => b == VertexBufferMemory || b == Device
    case Framebuffer(i) => b == ImageView(i) || b == RenderPass || b == Device
    case Pipeline => b == PipelineLayout || b == RenderPass || b == Device
    case ImageView(_) => b == Swapchain || b == Device
    case Swapchain => b == Surface || b == Device
    case Surface => b == Instance
    case DebugMessenger => b == Instance
    case Device => b == Instance
    case Instance => false
    case _ => b == Device
  }

  /** The objects the renderer owns once Init has run: the mesh buffer, MAX_FRAME_DRAWS sync
      slots, one framebuffer and one view per index, and the messenger when validation is on. */
  predicate Owned(o: Obj, framebufferCount: nat, imageCount: nat, validation: bool) {
    match o
    case RenderFinished(s) => s < MAX_FRAME_DRAWS
    case ImageAvailable(s) => s < MAX_FRAME_DRAWS
    case DrawFence(s) => s < MAX_FRAME_DRAWS
    case Framebuffer(i) => i < framebufferCount
    case ImageView(i) => i < imageCount
    case DebugMessenger => validation
    case _ => true
  }

  // ----- The sequence Cleanup issues -----

  /** The loop over the frame slots: render-finished, image-available, fence, slot by slot. */
  function SyncTeardown(slots: nat): (r: seq<Call>)
    ensures |r| == 3 * slots
  {
    if slots == 0 then []
    else
      var s := slots - 1;
      SyncTeardown(s) + [Destroy(RenderFinished(s)), Destroy(ImageAvailable(s)), Destroy(DrawFence(s))]
  }

  function FramebufferTeardown(count: nat): seq<Call> {
    seq(count, i requires 0 <= i => Destroy(Framebuffer(i)))
  }

  function ImageViewTeardown(count: nat): seq<Call> {
    seq(count, i requires 0 <= i => Destroy(ImageView(i)))
  }

  /** The destroy calls of Cleanup, in order. */
  function TeardownDestroys(framebufferCount: nat, imageCount: nat, validation: bool): seq<Call> {
    [Destroy(VertexBuffer), Destroy(VertexBufferMemory)]
    + SyncTeardown(MAX_FRAME_DRAWS)
    + [Destroy(CommandPool)]
    + FramebufferTeardown(framebufferCount)
    + [Destroy(Pipeline), Destroy(PipelineLayout), Destroy(RenderPass)]
    + ImageViewTeardown(imageCount)
    + [Destroy(Swapchain), Destroy(Surface)]
    + (if validation then [Destroy(DebugMessenger)] else [])
    + [Destroy(Device), Destroy(Instance)]
  }

  /** Everything Cleanup issues: wait for the device to go idle, then one destroy per owned
      object (ten fixed ones, three per frame slot, one per framebuffer and per image view,
      and the messenger under validation), the instance last. */
  function CleanupCalls(framebufferCount: nat, imageCount: nat, validation: bool): (r: seq<Call>)
    ensures |r| == 11 + 3 * MAX_FRAME_DRAWS + framebufferCount + imageCount + (if validation then 1 else 0)
    ensures r[0] == DeviceWaitIdle && forall i :: 1 <= i < |r| ==> r[i].Destroy?
    ensures r[|r| - 1] == Destroy(Instance)
  {
    [DeviceWaitIdle] + TeardownDestroys(framebufferCount, imageCount, validation)
  }

  /** CleanupCalls issued one group after another, each appended to what came before. */
  lemma CleanupCallsAppended(framebufferCount: nat, imageCount: nat, validation: bool)
    ensures CleanupCalls(framebufferCount, imageCount, validation)
      == [DeviceWaitIdle] + [Destroy(VertexBuffer), Destroy(VertexBufferMemory)]
         + SyncTeardown(MAX_FRAME_DRAWS)
         + [Destroy(CommandPool)]
         + FramebufferTeardown(framebufferCount)
         + [Destroy(Pipeline), Destroy(PipelineLayout), Destroy(RenderPass)]
         + ImageViewTeardown(imageCount)
         + [Destroy(Swapchain), Destroy(Surface)]
         + (if validation then [Destroy(DebugMessenger)] else [])
         + [Destroy(Device), Destroy(Instance)]
  {
  }

  // ----- Proof that the order is a valid teardown order -----

  /** Where an object sits in the teardown: its band, its index, its place within the slot. */
  function Key(o: Obj): (nat, nat, nat) {
    match o
    case VertexBuffer => (0, 0, 0)
    case VertexBufferMemory => (1, 0, 0)
    case RenderFinished(s) => (2, s, 0)
    case ImageAvailable(s) => (2, s, 1)
    case DrawFence(s) => (2, s, 2)
    case CommandPool => (3, 0, 0)
    case Framebuffer(i) => (4, i, 0)
    case Pipeline => (5, 0, 0)
    case PipelineLayout => (6, 0, 0)
    case RenderPass => (7, 0, 0)
    case ImageView(i) => (8, i, 0)
    case Swapchain => (9, 0, 0)
    case Surface => (10, 0, 0)
    case DebugMessenger => (11, 0, 0)
    case Device => (12, 0, 0)
    case Instance => (13, 0, 0)
  }

  function Band(o: Obj): nat {
    Key(o).0
  }

  /** Strict lexicographic order on keys. */
  predicate Precedes(a: Obj, b: Obj) {
    var (ba, ia, sa) := Key(a);
    var (bb, ib, sb) := Key(b);
    ba < bb || (ba == bb && (ia < ib || (ia == ib && sa < sb)))
  }

  /** A dependency always points to a later band. */
  lemma DependencyPointsLater(a: Obj, b: Obj)
    requires DependsOn(a, b)
    ensures Band(a) < Band(b)
  {
  }

  predicate Before(x: Call, y: Call) {
    x.Destroy? && y.Destroy? && Precedes(x.obj, y.obj)
  }

  /** Destroys only, strictly increasing in key. */
  ghost predicate Ordered(s: seq<Call>) {
    forall i, j :: 0 <= i < j < |s| ==> Before(s[i], s[j])
  }

  /** Destroys only, every band within [lo, hi]. */
  ghost predicate InBands(s: seq<Call>, lo: nat, hi: nat) {
    forall i :: 0 <= i < |s| ==> s[i].Destroy? && lo <= Band(s[i].obj) <= hi
  }

  lemma OrderedAppend(a: seq<Call>, b: seq<Call>, lo: nat, mid: nat, hi: nat)
    requires lo <= mid < hi
    requires Ordered(a) && InBands(a, lo, mid)
    requires Ordered(b) && InBands(b, mid + 1, hi)
    ensures Ordered(a + b) && InBands(a + b, lo, hi)
  {
    var s := a + b;
    forall i | 0 <= i < |s| ensures s[i].Destroy? && lo <= Band(s[i].obj) <= hi {
      if i < |a| {
        assert s[i] == a[i];
      } else {
        assert s[i] == b[i - |a|];
      }
    }
    forall i, j | 0 <= i < j < |s| ensures Before(s[i], s[j]) {
      if j < |a| {
        assert Before(a[i], a[j]);
      } else if i >= |a| {
        assert Before(b[i - |a|], b[j - |a|]);
      } else {
        assert Band(a[i].obj) < Band(b[j - |a|].obj);
      }
    }
  }

  /** A destroy of one of the synchronisation objects of a slot below n. */
  predicate SyncBelow(c: Call, n: nat) {
    && c.Destroy?
    && (c.obj.RenderFinished? || c.obj.ImageAvailable? || c.obj.DrawFence?)
    && c.obj.slot < n
  }

  lemma {:induction false} SyncTeardownSlots(slots: nat)
    ensures |SyncTeardown(slots)| == 3 * slots
    ensures forall i :: 0 <= i < |SyncTeardown(slots)| ==> SyncBelow(SyncTeardown(slots)[i], slots)
  {
    if slots > 0 {
      SyncTeardownSlots(slots - 1);
    }
  }

  lemma {:induction false} SyncTeardownOrdered(slots: nat)
    ensures Ordered(SyncTeardown(slots))
  {
    if slots > 0 {
      var n := slots - 1;
      SyncTeardownOrdered(n);
      SyncTeardownSlots(n);
      var a := SyncTeardown(n);
      var t := [Destroy(RenderFinished(n)), Destroy(ImageAvailable(n)), Destroy(DrawFence(n))];
      var s := a + t;
      forall i, j | 0 <= i < j < |s| ensures Before(s[i], s[j]) {
        if j < |a| {
          assert Before(a[i], a[j]);
        } else if i < |a| {
          assert SyncBelow(a[i], n);
        }
      }
    }
  }

  lemma {:induction false} SyncTeardownMembers(slots: nat)
    ensures forall o :: Destroy(o) in SyncTeardown(slots) <==>
      (o.RenderFinished? || o.ImageAvailable? || o.DrawFence?) && o.slot < slots
  {
    if slots > 0 {
      SyncTeardownMembers(slots - 1);
    }
  }

  lemma SyncTeardownInBand(slots: nat)
    ensures Ordered(SyncTeardown(slots)) && InBands(SyncTeardown(slots), 2, 2)
  {
    SyncTeardownOrdered(slots);
    SyncTeardownSlots(slots);
  }

  lemma SegmentsOrdered(framebufferCount: nat, imageCount: nat)
    ensures Ordered(FramebufferTeardown(framebufferCount)) && InBands(FramebufferTeardown(framebufferCount), 4, 4)
    ensures Ordered(ImageViewTeardown(imageCount)) && InBands(ImageViewTeardown(imageCount), 8, 8)
    ensures forall o :: Destroy(o) in FramebufferTeardown(framebufferCount) <==> o.Framebuffer? && o.image < framebufferCount
    ensures forall o :: Destroy(o) in ImageViewTeardown(imageCount) <==> o.ImageView? && o.image < imageCount
  {
    var f := FramebufferTeardown(framebufferCount);
    var v := ImageViewTeardown(imageCount);
    forall o: Obj | o.Framebuffer? && o.image < framebufferCount ensures Destroy(o) in f {
      assert f[o.image] == Destroy(o);
    }
    forall o: Obj | o.ImageView? && o.image < imageCount ensures Destroy(o) in v {
      assert v[o.image] == Destroy(o);
    }
  }

  lemma FixedSegmentsOrdered(validation: bool)
    ensures Ordered([Destroy(VertexBuffer), Destroy(VertexBufferMemory)])
    ensures InBands([Destroy(VertexBuffer), Destroy(VertexBufferMemory)], 0, 1)
    ensures Ordered([Destroy(CommandPool)]) && InBands([Destroy(CommandPool)], 3, 3)
    ensures Ordered([Destroy(Pipeline), Destroy(PipelineLayout), Destroy(RenderPass)])
    ensures InBands([Destroy(Pipeline), Destroy(PipelineLayout), Destroy(RenderPass)], 5, 7)
    ensures Ordered([Destroy(Swapchain), Destroy(Surface)]) && InBands([Destroy(Swapchain), Destroy(Surface)], 9, 10)
    ensures var m: seq<Call> := if validation then [Destroy(DebugMessenger)] else [];
      Ordered(m) && InBands(m, 11, 11)
    ensures Ordered([Destroy(Device), Destroy(Instance)]) && InBands([Destroy(Device), Destroy(Instance)], 12, 13)
  {
  }

  lemma TeardownOrdered(framebufferCount: nat, imageCount: nat, validation: bool)
    ensures Ordered(TeardownDestroys(framebufferCount, imageCount, validation))
    ensures InBands(TeardownDestroys(framebufferCount, imageCount, validation), 0, 13)
  {
    SyncTeardownInBand(MAX_FRAME_DRAWS);
    SegmentsOrdered(framebufferCount, imageCount);
    FixedSegmentsOrdered(validation);
    var s7: seq<Call> := if validation then [Destroy(DebugMessenger)] else [];
    var p1 := [Destroy(VertexBuffer), Destroy(VertexBufferMemory)];
    var p2 := p1 + SyncTeardown(MAX_FRAME_DRAWS);
    OrderedAppend(p1, SyncTeardown(MAX_FRAME_DRAWS), 0, 1, 2);
    var p3 := p2 + [Destroy(CommandPool)];
    OrderedAppend(p2, [Destroy(CommandPool)], 0, 2, 3);
    var p4 := p3 + FramebufferTeardown(framebufferCount);
    OrderedAppend(p3, FramebufferTeardown(framebufferCount), 0, 3, 4);
    var p5 := p4 + [Destroy(Pipeline), Destroy(PipelineLayout), Destroy(RenderPass)];
    OrderedAppend(p4, [Destroy(Pipeline), Destroy(PipelineLayout), Destroy(RenderPass)], 0, 4, 7);
    var p6 := p5 + ImageViewTeardown(imageCount);
    OrderedAppend(p5, ImageViewTeardown(imageCount), 0, 7, 8);
    var p7 := p6 + [Destroy(Swapchain), Destroy(Surface)];
    OrderedAppend(p6, [Destroy(Swapchain), Destroy(Surface)], 0, 8, 10);
    var p8 := p7 + s7;
    OrderedAppend(p7, s7, 0, 10, 11);
    OrderedAppend(p8, [Destroy(Device), Destroy(Instance)], 0, 11, 13);
  }

  /** The teardown as five groups: the fixed objects, the sync slots, the framebuffers,
      the image views and the optional messenger. */
  lemma TeardownGroups(framebufferCount: nat, imageCount: nat, validation: bool, c: Call)
    ensures c in TeardownDestroys(framebufferCount, imageCount, validation) <==>
      || c in [Destroy(VertexBuffer), Destroy(VertexBufferMemory), Destroy(CommandPool),
               Destroy(Pipeline), Destroy(PipelineLayout), Destroy(RenderPass),
               Destroy(Swapchain), Destroy(Surface), Destroy(Device), Destroy(Instance)]
      || c in SyncTeardown(MAX_FRAME_DRAWS)
      || c in FramebufferTeardown(framebufferCount)
      || c in ImageViewTeardown(imageCount)
      || (validation && c == Destroy(DebugMessenger))
  {
  }

  lemma TeardownMemberSync(framebufferCount: nat, imageCount: nat, validation: bool, o: Obj)
    requires o.RenderFinished? || o.ImageAvailable? || o.DrawFence?
    ensures Destroy(o) in TeardownDestroys(framebufferCount, imageCount, validation) <==>
      Owned(o, framebufferCount, imageCount, validation)
  {
    TeardownGroups(framebufferCount, imageCount, validation, Destroy(o));
    SyncTeardownMembers(MAX_FRAME_DRAWS);
    SegmentsOrdered(framebufferCount, imageCount);
  }

  lemma TeardownMemberIndexed(framebufferCount: nat, imageCount: nat, validation: bool, o: Obj)
    requires o.Framebuffer? || o.ImageView?
    ensures Destroy(o) in TeardownDestroys(framebufferCount, imageCount, validation) <==>
      Owned(o, framebufferCount, imageCount, validation)
  {
    TeardownGroups(framebufferCount, imageCount, validation, Destroy(o));
    SegmentsOrdered(framebufferCount, imageCount);
    SyncTeardownSlots(MAX_FRAME_DRAWS);
  }

  lemma TeardownMemberFixed(framebufferCount: nat, imageCount: nat, validation: bool, o: Obj)
    requires !(o.RenderFinished? || o.ImageAvailable? || o.DrawFence? || o.Framebuffer? || o.ImageView?)
    ensures Destroy(o) in TeardownDestroys(framebufferCount, imageCount, validation) <==>
      Owned(o, framebufferCount, imageCount, validation)
  {
    TeardownGroups(framebufferCount, imageCount, validation, Destroy(o));
    SegmentsOrdered(framebufferCount, imageCount);
    SyncTeardownSlots(MAX_FRAME_DRAWS);
  }

  lemma TeardownMember(framebufferCount: nat, imageCount: nat, validation: bool, o: Obj)
    ensures Destroy(o) in TeardownDestroys(framebufferCount, imageCount, validation) <==>
      Owned(o, framebufferCount, imageCount, validation)
  {
    if o.RenderFinished? || o.ImageAvailable? || o.DrawFence? {
      TeardownMemberSync(framebufferCount, imageCount, validation, o);
    } else if o.Framebuffer? || o.ImageView? {
      TeardownMemberIndexed(framebufferCount, imageCount, validation, o);
    } else {
      TeardownMemberFixed(framebufferCount, imageCount, validation, o);
    }
  }

  lemma TeardownMembers(framebufferCount: nat, imageCount: nat, validation: bool)
    ensures forall o :: Destroy(o) in TeardownDestroys(framebufferCount, imageCount, validation) <==>
      Owned(o, framebufferCount, imageCount, validation)
  {
    forall o ensures Destroy(o) in TeardownDestroys(framebufferCount, imageCount, validation) <==>
      Owned(o, framebufferCount, imageCount, validation) {
      TeardownMember(framebufferCount, imageCount, validation, o);
    }
  }

  /** In a key-ordered run of destroys nothing is destroyed twice and no object goes before
      one that was created from it. */
  lemma OrderedRespectsDependencies(d: seq<Call>)
    requires Ordered(d) && InBands(d, 0, 13)
    ensures forall i, j :: 0 <= i < j < |d| ==> d[i].obj != d[j].obj && !DependsOn(d[j].obj, d[i].obj)
  {
    forall i, j | 0 <= i < j < |d| ensures d[i].obj != d[j].obj && !DependsOn(d[j].obj, d[i].obj) {
      assert Before(d[i], d[j]);
      if DependsOn(d[j].obj, d[i].obj) {
        DependencyPointsLater(d[j].obj, d[i].obj);
      }
    }
  }

  /** What holds of any wait-then-ordered-destroys run. */
  ghost predicate SafeCleanup(c: seq<Call>, framebufferCount: nat, imageCount: nat, validation: bool) {
    && |c| > 0 && c[0] == DeviceWaitIdle
    && (forall i :: 1 <= i < |c| ==> c[i].Destroy?)
    && (forall i, j :: 1 <= i < j < |c| ==> c[i].obj != c[j].obj && !DependsOn(c[j].obj, c[i].obj))
    && (forall o :: Destroy(o) in c <==> Owned(o, framebufferCount, imageCount, validation))
  }

  lemma WaitThenDestroys(d: seq<Call>, framebufferCount: nat, imageCount: nat, validation: bool)
    requires Ordered(d) && InBands(d, 0, 13)
    requires forall o :: Destroy(o) in d <==> Owned(o, framebufferCount, imageCount, validation)
    ensures SafeCleanup([DeviceWaitIdle] + d, framebufferCount, imageCount, validation)
  {
    OrderedRespectsDependencies(d);
    var c := [DeviceWaitIdle] + d;
    forall i | 1 <= i < |c| ensures c[i] == d[i - 1] {
    }
    forall o ensures Destroy(o) in c <==> Destroy(o) in d {
    }
  }

  /**
    Cleanup waits for the device first; afterwards every owned object is destroyed exactly
    once and nothing else is, and no object is destroyed while one created from it remains.
   */
  lemma CleanupIsSafe(framebufferCount: nat, imageCount: nat, validation: bool)
    ensures SafeCleanup(CleanupCalls(framebufferCount, imageCount, validation), framebufferCount, imageCount, validation)
  {
    TeardownOrdered(framebufferCount, imageCount, validation);
    TeardownMembers(framebufferCount, imageCount, validation);
    WaitThenDestroys(TeardownDestroys(framebufferCount, imageCount, validation), framebufferCount, imageCount, validation);
  }
}
