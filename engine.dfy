/** The frame resource ring of `Engine` (src/engine.rs): `MAX_FRAME_SIZE` slots
    allocated at bring-up, each with a fence created signalled, a cursor set
    to 0, and `draw`, which waits on the current slot's fence and then resets
    it. Fences are modelled by their signalled state; nothing in this core
    submits GPU work, so nothing here signals a fence again. */
module Engine {
  import opened Vk
  import opened Outcomes

  const MAX_FRAME_SIZE: nat := 2

  /** The timeout `draw` passes to `vkWaitForFences`, in nanoseconds. */
  const FENCE_TIMEOUT_NS: nat := 1_000_000_000

  datatype Fence = Fence(handle: Handle, signalled: bool)

  /** A command pool remembers the queue family it was created for. */
  datatype CommandPool = CommandPool(handle: Handle, queueFamilyIndex: uint32)

  /** One ring slot as `Engine::new` builds it: a command pool and buffer, two
      semaphores and the render fence. */
  datatype FrameData = FrameData(
    commandPool: CommandPool,
    commandBuffer: Handle,
    imageAvailable: Handle,
    renderComplete: Handle,
    renderFence: Fence)

  /** The handles the driver returns while one slot is being created. */
  datatype SlotHandles = SlotHandles(commandPool: Handle, commandBuffer: Handle, imageAvailable: Handle, renderComplete: Handle, fence: Handle)

  /** `vkCreateFence`: the fence starts signalled iff the SIGNALED bit is set. */
  function CreateFence(handle: Handle, flags: FenceCreateFlags): (f: Fence)
    ensures f.handle == handle
    ensures f.signalled <==> Contains(flags, FENCE_CREATE_SIGNALED)
  {
    Fence(handle, flags & FENCE_CREATE_SIGNALED != 0)
  }

  /** `vkWaitForFences` on one fence with a timeout: success once it is
      signalled; since no other party signals it, an unsignalled fence times out.
      `timeoutNs` carries the value `draw` passes but has no effect here: no
      clock is modelled, so the wait ends at once either way. */
  function WaitForFence(f: Fence, timeoutNs: nat): (r: VkResult)
    ensures r == VK_SUCCESS <==> f.signalled
    ensures r != VK_SUCCESS ==> r == VK_TIMEOUT
  {
    if f.signalled then VK_SUCCESS else VK_TIMEOUT
  }

  /** `vkResetFences` on one fence. */
  function ResetFence(f: Fence): (g: Fence)
    ensures g.handle == f.handle && !g.signalled
  {
    Fence(f.handle, false)
  }

  /** The slot that `FrameData::new` and its arguments produce in iteration
      `i`: the pool on the graphics family, the fence created SIGNALED. */
  function NewSlot(graphicsFamily: uint32, h: SlotHandles): (slot: FrameData)
    ensures slot.commandPool.queueFamilyIndex == graphicsFamily
    ensures slot.renderFence.signalled
    ensures slot.renderFence.handle == h.fence
    ensures slot.commandPool.handle == h.commandPool && slot.commandBuffer == h.commandBuffer
    ensures slot.imageAvailable == h.imageAvailable && slot.renderComplete == h.renderComplete
  {
    FrameData(CommandPool(h.commandPool, graphicsFamily), h.commandBuffer, h.imageAvailable,
              h.renderComplete, CreateFence(h.fence, FENCE_CREATE_SIGNALED))
  }

  class Engine {
    var frames: seq<FrameData>
    var frame: nat

    ghost predicate Valid()
      reads this
    {
      |frames| == MAX_FRAME_SIZE && frame < |frames|
    }

    /** The slot-allocation loop of `Engine::new` and the cursor set to 0.
        `allocate(i)` stands for the handles the driver returns in iteration
        `i`; `graphicsFamily` is the unwrapped graphics queue index. */
    constructor (graphicsFamily: uint32, allocate: nat -> SlotHandles)
      ensures Valid()
      ensures |frames| == MAX_FRAME_SIZE && frame == 0
      ensures forall i :: 0 <= i < |frames| ==> frames[i] == NewSlot(graphicsFamily, allocate(i))
      ensures forall i :: 0 <= i < |frames| ==> frames[i].renderFence.signalled
    {
      var slots: seq<FrameData> := [];
      for i := 0 to MAX_FRAME_SIZE
        invariant |slots| == i
        invariant forall k :: 0 <= k < i ==> slots[k] == NewSlot(graphicsFamily, allocate(k))
      {
        slots := slots + [NewSlot(graphicsFamily, allocate(i))];
      }
      frames := slots;
      frame := 0;
    }

    /** `draw`: wait on the current slot's fence (the `unwrap()` panics on the
        timeout), then reset it. The cursor is not advanced. */
    method Draw() returns (r: Run<()>)
      requires Valid()
      modifies this
      ensures Valid()
      ensures frame == old(frame)
      ensures old(frames[frame].renderFence.signalled) ==>
                && r == Returned(())
                && frames == old(frames)[frame := old(frames[frame]).(renderFence := Fence(old(frames[frame].renderFence.handle), false))]
      ensures !old(frames[frame].renderFence.signalled) ==>
                r == Panicked(UnwrapFailed(VK_TIMEOUT)) && frames == old(frames)
    {
      var waited := WaitForFence(frames[frame].renderFence, FENCE_TIMEOUT_NS);
      if waited != VK_SUCCESS {
        return Panicked(UnwrapFailed(waited));
      }
      var slot := frames[frame];
      frames := frames[frame := slot.(renderFence := ResetFence(slot.renderFence))];
      r := Returned(());
    }
  }

  /** The first `draw` after `new` does not block: slot 0's fence starts
      signalled; afterwards that fence is unsignalled and slot 1 is untouched. */
  method FirstDrawAfterNew(graphicsFamily: uint32, allocate: nat -> SlotHandles) returns (r: Run<()>, fence0: bool, fence1: bool)
    ensures r == Returned(())
    ensures !fence0 && fence1
  {
    var engine := new Engine(graphicsFamily, allocate);
    r := engine.Draw();
    fence0 := engine.frames[0].renderFence.signalled;
    fence1 := engine.frames[1].renderFence.signalled;
  }

  /** A second `draw` times out and panics: the cursor stays on slot 0, whose
      fence the first `draw` reset and which no submission signals again. */
  method SecondDrawTimesOut(graphicsFamily: uint32, allocate: nat -> SlotHandles) returns (first: Run<()>, second: Run<()>)
    ensures first == Returned(())
    ensures second == Panicked(UnwrapFailed(VK_TIMEOUT))
  {
    var engine := new Engine(graphicsFamily, allocate);
    first := engine.Draw();
    second := engine.Draw();
  }
}
