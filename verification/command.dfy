/** Command pools, command buffers as logs of emitted commands, and the
    dispatcher that leases pre-allocated command buffers in LIFO order. */
module Commands {

  import opened Vk

  /** A VkCommandBuffer handle: VK_NULL_HANDLE or a live driver object. */
  datatype Handle = Null | Live(id: nat)

  /** VkBufferCopy */
  datatype BufferCopy = BufferCopy(srcOffset: nat, dstOffset: nat, size: nat)

  /** VkRect2D */
  datatype Rect2D = Rect2D(offset: Offset2D, extent: Extent2D)

  /** VkViewport; the float fields are modelled as reals. */
  datatype Viewport = Viewport(x: real, y: real, width: real, height: real, minDepth: real, maxDepth: real)

  const VK_PIPELINE_BIND_POINT_GRAPHICS: nat := 0

  /** One call made on a command buffer, in the order the driver received it. */
  datatype Command =
    | BeginRecording(oneTimeSubmit: bool)
    | EndRecording
    | ResetBuffer
    | BeginRenderPass(renderPass: nat, framebuffer: nat, renderArea: Rect2D, clearColour: seq<real>)
    | EndRenderPass
    | SetViewport(firstViewport: nat, viewports: seq<Viewport>)
    | SetScissor(firstScissor: nat, scissors: seq<Rect2D>)
    | BindPipeline(bindPoint: nat, pipeline: nat)
    | BindVertexBuffers(firstBinding: nat, buffers: seq<nat>, offsets: seq<nat>)
    | BindIndexBuffer(buffer: nat, offset: nat, indexType: nat)
    | Draw(vertexCount: U32, instanceCount: nat, firstVertex: U32, firstInstance: nat)
    | DrawIndexed(indexCount: U32, instanceCount: nat, firstIndex: U32, vertexOffset: int, firstInstance: nat)
    | CopyBuffer(srcBuffer: nat, dstBuffer: nat, regions: seq<BufferCopy>)

  /** What vkCmdCopyBuffer does to the destination memory for one region:
      the bytes [dstOffset, dstOffset+size) become the source bytes
      [srcOffset, srcOffset+size); every other destination byte is kept. */
  function CopyRegion(src: seq<Byte>, dst: seq<Byte>, r: BufferCopy): (out: seq<Byte>)
    requires r.srcOffset + r.size <= |src| && r.dstOffset + r.size <= |dst|
    ensures |out| == |dst|
    ensures forall k :: 0 <= k < |dst| && (k < r.dstOffset || r.dstOffset + r.size <= k) ==> out[k] == dst[k]
    ensures forall k :: r.dstOffset <= k < r.dstOffset + r.size ==> out[k] == src[k - r.dstOffset + r.srcOffset]
  {
    dst[..r.dstOffset] + src[r.srcOffset..r.srcOffset + r.size] + dst[r.dstOffset + r.size..]
  }

  /** Copying a whole buffer onto one of equal size makes the destination
      equal to the source. */
  lemma CopyWholeBuffer(src: seq<Byte>, dst: seq<Byte>)
    requires |src| == |dst|
    ensures CopyRegion(src, dst, BufferCopy(0, 0, |src|)) == src
  {
    var out := CopyRegion(src, dst, BufferCopy(0, 0, |src|));
    assert forall k :: 0 <= k < |src| ==> out[k] == src[k];
  }

  /** Device memory as the queue sees it: buffer handle to contents. */
  type Memory = map<nat, seq<Byte>>

  /** Executes the copies of a submitted command log in order; a region
      that does not fit its buffers (invalid usage) changes nothing, and
      every other command leaves memory alone. */
  function Execute(cmds: seq<Command>, mem: Memory): (out: Memory)
    ensures out.Keys == mem.Keys
    ensures forall h :: h in mem ==> |out[h]| == |mem[h]|
    decreases |cmds|, 0
  {
    if cmds == [] then mem
    else Execute(cmds[1..], ExecuteOne(cmds[0], mem))
  }

  function ExecuteOne(cmd: Command, mem: Memory): (out: Memory)
    ensures out.Keys == mem.Keys
    ensures forall h :: h in mem ==> |out[h]| == |mem[h]|
  {
    match cmd
    case CopyBuffer(src, dst, regions) => ApplyRegions(src, dst, regions, mem)
    case _ => mem
  }

  function ApplyRegions(src: nat, dst: nat, regions: seq<BufferCopy>, mem: Memory): (out: Memory)
    ensures out.Keys == mem.Keys
    ensures forall h :: h in mem ==> |out[h]| == |mem[h]|
  {
    if regions == [] then mem
    else
      var r := regions[0];
      var next :=
        if src in mem && dst in mem && r.srcOffset + r.size <= |mem[src]| && r.dstOffset + r.size <= |mem[dst]|
        then mem[dst := CopyRegion(mem[src], mem[dst], r)]
        else mem;
      ApplyRegions(src, dst, regions[1..], next)
  }

  /** sat::CommandBuffer: a handle plus the commands recorded through it.
      The log belongs to the handle, so it moves with it. */
  class CommandBuffer {
    var handle: Handle
    var commands: seq<Command>

    /** CommandBuffer() noexcept = default: the null handle. */
    constructor ()
      ensures handle == Null && commands == []
    {
      handle := Null;
      commands := [];
    }

    /** CommandBuffer(VkCommandBuffer), used by CommandPool::allocate. */
    constructor Wrap(h: Handle)
      ensures handle == h && commands == []
    {
      handle := h;
      commands := [];
    }

    /** Move constructor: copies the handle and leaves the source as it was. */
    constructor MoveFrom(other: CommandBuffer)
      ensures handle == other.handle && commands == other.commands
    {
      handle := other.handle;
      commands := other.commands;
    }

    /** Move assignment: takes the source's handle, then nulls the source.
        Moving an object onto itself therefore leaves it null. */
    method MoveAssign(other: CommandBuffer)
      modifies this, other
      ensures other.handle == Null && other.commands == []
      ensures other != this ==> handle == old(other.handle) && commands == old(other.commands)
    {
      handle := other.handle;
      commands := other.commands;
      other.handle := Null;
      other.commands := [];
    }

    /** record(oneTime = false): vkBeginCommandBuffer, flagged one-time-submit
        when asked; a failing result throws and records nothing. */
    method Record(res: VkResult, oneTime: bool := false) returns (o: Outcome)
      modifies this
      ensures handle == old(handle)
      ensures o.Pass? <==> res == VK_SUCCESS
      ensures o.Pass? ==> commands == old(commands) + [BeginRecording(oneTime)]
      ensures o.Fail? ==> commands == old(commands) && o.error == UnsuccessfulResult("vkBeginCommandBuffer", res)
    {
      if res == VK_SUCCESS {
        commands := commands + [BeginRecording(oneTime)];
        o := Pass;
      } else {
        o := Fail(UnsuccessfulResult("vkBeginCommandBuffer", res));
      }
    }

    /** stop(): vkEndCommandBuffer. */
    method Stop(res: VkResult) returns (o: Outcome)
      modifies this
      ensures handle == old(handle)
      ensures o.Pass? <==> res == VK_SUCCESS
      ensures o.Pass? ==> commands == old(commands) + [EndRecording]
      ensures o.Fail? ==> commands == old(commands) && o.error == UnsuccessfulResult("vkEndCommandBuffer", res)
    {
      if res == VK_SUCCESS {
        commands := commands + [EndRecording];
        o := Pass;
      } else {
        o := Fail(UnsuccessfulResult("vkEndCommandBuffer", res));
      }
    }

    /** reset(): vkResetCommandBuffer with no flags. */
    method Reset(res: VkResult) returns (o: Outcome)
      modifies this
      ensures handle == old(handle)
      ensures o.Pass? <==> res == VK_SUCCESS
      ensures o.Pass? ==> commands == old(commands) + [ResetBuffer]
      ensures o.Fail? ==> commands == old(commands) && o.error == UnsuccessfulResult("vkResetCommandBuffer", res)
    {
      if res == VK_SUCCESS {
        commands := commands + [ResetBuffer];
        o := Pass;
      } else {
        o := Fail(UnsuccessfulResult("vkResetCommandBuffer", res));
      }
    }

    /** begin(renderPass, framebuffer, extent, offset = {0, 0}): one render
        pass over the given area, cleared to opaque black. */
    method Begin(renderPass: nat, framebuffer: nat, extent: Extent2D, offset: Offset2D := Offset2D(0, 0))
      modifies this
      ensures handle == old(handle)
      ensures commands == old(commands) + [BeginRenderPass(renderPass, framebuffer, Rect2D(offset, extent), [0.0, 0.0, 0.0, 1.0])]
    {
      commands := commands + [BeginRenderPass(renderPass, framebuffer, Rect2D(offset, extent), [0.0, 0.0, 0.0, 1.0])];
    }

    /** end(): vkCmdEndRenderPass. */
    method End()
      modifies this
      ensures handle == old(handle) && commands == old(commands) + [EndRenderPass]
    {
      commands := commands + [EndRenderPass];
    }

    /** viewport(extent, offset = {0, 0}, min = 0, max = 1): one viewport at
        index 0 whose origin is the offset and whose size is the extent. */
    method SetViewportFor(extent: Extent2D, offset: Offset2D := Offset2D(0, 0), min: real := 0.0, max: real := 1.0)
      modifies this
      ensures handle == old(handle)
      ensures commands == old(commands) + [SetViewport(0, [Viewport(offset.x as real, offset.y as real, extent.width as real, extent.height as real, min, max)])]
    {
      var v := Viewport(offset.x as real, offset.y as real, extent.width as real, extent.height as real, min, max);
      SetViewport0(v);
    }

    /** viewport(const VkViewport&): vkCmdSetViewport(handle, 0, 1, &v). */
    method SetViewport0(v: Viewport)
      modifies this
      ensures handle == old(handle) && commands == old(commands) + [SetViewport(0, [v])]
    {
      commands := commands + [SetViewport(0, [v])];
    }

    /** scissor(extent, offset = {0, 0}): one scissor at index 0. */
    method SetScissorFor(extent: Extent2D, offset: Offset2D := Offset2D(0, 0))
      modifies this
      ensures handle == old(handle) && commands == old(commands) + [SetScissor(0, [Rect2D(offset, extent)])]
    {
      SetScissor0(Rect2D(offset, extent));
    }

    /** scissor(const VkRect2D&): vkCmdSetScissor(handle, 0, 1, &r). */
    method SetScissor0(r: Rect2D)
      modifies this
      ensures handle == old(handle) && commands == old(commands) + [SetScissor(0, [r])]
    {
      commands := commands + [SetScissor(0, [r])];
    }

    /** bindPipeline(pipeline): always at the graphics bind point. */
    method Bind(pipeline: nat)
      modifies this
      ensures handle == old(handle) && commands == old(commands) + [BindPipeline(VK_PIPELINE_BIND_POINT_GRAPHICS, pipeline)]
    {
      commands := commands + [BindPipeline(VK_PIPELINE_BIND_POINT_GRAPHICS, pipeline)];
    }

    /** bindVertexBuffer(buffer, offset = 0): one buffer at binding 0. */
    method BindVertexBuffer(buffer: nat, offset: nat := 0)
      modifies this
      ensures handle == old(handle) && commands == old(commands) + [BindVertexBuffers(0, [buffer], [offset])]
    {
      commands := commands + [BindVertexBuffers(0, [buffer], [offset])];
    }

    /** bindIndexBuffer(buffer, offset, type). */
    method BindIndex(buffer: nat, offset: nat, indexType: nat)
      modifies this
      ensures handle == old(handle) && commands == old(commands) + [BindIndexBuffer(buffer, offset, indexType)]
    {
      commands := commands + [BindIndexBuffer(buffer, offset, indexType)];
    }

    /** draw(count, index = 0): one instance starting at vertex `index`. */
    method DrawVertices(count: U32, index: U32 := 0)
      modifies this
      ensures handle == old(handle) && commands == old(commands) + [Draw(count, 1, index, 0)]
    {
      commands := commands + [Draw(count, 1, index, 0)];
    }

    /** drawIndexed(count, index = 0): one instance, no vertex offset. */
    method DrawIndices(count: U32, index: U32 := 0)
      modifies this
      ensures handle == old(handle) && commands == old(commands) + [DrawIndexed(count, 1, index, 0, 0)]
    {
      commands := commands + [DrawIndexed(count, 1, index, 0, 0)];
    }

    /** copy(dst, src, size, srcOffset = 0, dstOffset = 0): the destination
        comes first in the parameter list, but the emitted command copies
        `size` bytes from src at srcOffset to dst at dstOffset. */
    method Copy(dst: nat, src: nat, size: nat, srcOffset: nat := 0, dstOffset: nat := 0)
      modifies this
      ensures handle == old(handle)
      ensures |commands| == |old(commands)| + 1 && commands[..|old(commands)|] == old(commands)
      ensures var c := commands[|old(commands)|];
              c.CopyBuffer? && c.srcBuffer == src && c.dstBuffer == dst &&
              c.regions == [BufferCopy(srcOffset, dstOffset, size)]
    {
      CopyRegions(dst, src, BufferCopy(srcOffset, dstOffset, size));
    }

    /** copy(dst, src, const VkBufferCopy&): vkCmdCopyBuffer(handle, src, dst, 1, &copy). */
    method CopyRegions(dst: nat, src: nat, region: BufferCopy)
      modifies this
      ensures handle == old(handle) && commands == old(commands) + [CopyBuffer(src, dst, [region])]
    {
      commands := commands + [CopyBuffer(src, dst, [region])];
    }
  }

  /** Executing a recorded copy moves the source bytes onto the destination
      range and leaves the rest of the destination alone. */
  lemma ExecuteSingleCopy(src: nat, dst: nat, region: BufferCopy, mem: Memory)
    requires src in mem && dst in mem && src != dst
    requires region.srcOffset + region.size <= |mem[src]| && region.dstOffset + region.size <= |mem[dst]|
    ensures Execute([CopyBuffer(src, dst, [region])], mem) == mem[dst := CopyRegion(mem[src], mem[dst], region)]
  {
    var cmds := [CopyBuffer(src, dst, [region])];
    assert cmds[1..] == [];
    var next := mem[dst := CopyRegion(mem[src], mem[dst], region)];
    assert [region][1..] == [];
    assert ApplyRegions(src, dst, [region], mem) == ApplyRegions(src, dst, [], next);
  }

  /** CommandPoolBuilder */
  datatype CommandPoolBuilder = CommandPoolBuilder(queueFamilyIndex: nat, resetFlag: bool)

  const VK_COMMAND_POOL_CREATE_RESET_COMMAND_BUFFER_BIT: bv32 := 0x2

  /** The create flags of a pool: the reset bit iff the builder asked for it. */
  function PoolCreateFlags(b: CommandPoolBuilder): (flags: bv32)
    ensures flags & VK_COMMAND_POOL_CREATE_RESET_COMMAND_BUFFER_BIT != 0 <==> b.resetFlag
    ensures flags & !VK_COMMAND_POOL_CREATE_RESET_COMMAND_BUFFER_BIT == 0
  {
    if b.resetFlag then VK_COMMAND_POOL_CREATE_RESET_COMMAND_BUFFER_BIT else 0
  }

  /** sat::CommandPool: `live` is the set of command-buffer handles currently
      allocated from it; `nextId` stands for the driver's supply of new
      handles. */
  class CommandPool {
    const queueFamilyIndex: nat
    const flags: bv32
    var live: set<nat>
    var nextId: nat

    ghost predicate Valid()
      reads this
    {
      forall id :: id in live ==> id < nextId
    }

    /** The pool once vkCreateCommandPool has succeeded. */
    constructor (builder: CommandPoolBuilder)
      ensures Valid() && live == {}
      ensures queueFamilyIndex == builder.queueFamilyIndex && flags == PoolCreateFlags(builder)
    {
      queueFamilyIndex := builder.queueFamilyIndex;
      flags := PoolCreateFlags(builder);
      live := {};
      nextId := 0;
    }

    /** CommandPool(builder): vkCreateCommandPool under SATURN_CALL, which
        throws on any result other than VK_SUCCESS. */
    static method Create(builder: CommandPoolBuilder, createResult: VkResult) returns (r: Result<CommandPool>)
      ensures r.Err? <==> createResult != VK_SUCCESS
      ensures r.Err? ==> r.error == UnsuccessfulResult("vkCreateCommandPool", createResult)
      ensures r.Ok? ==> fresh(r.value) && r.value.Valid() && r.value.live == {}
      ensures r.Ok? ==> r.value.queueFamilyIndex == builder.queueFamilyIndex && r.value.flags == PoolCreateFlags(builder)
    {
      if createResult != VK_SUCCESS {
        return Err(UnsuccessfulResult("vkCreateCommandPool", createResult));
      }
      var pool := new CommandPool(builder);
      return Ok(pool);
    }

    /** allocate(): one primary command buffer with a handle never handed
        out before; a failing vkAllocateCommandBuffers throws (SATURN_CALL)
        and allocates nothing. */
    method Allocate(allocResult: VkResult) returns (r: Result<CommandBuffer>)
      requires Valid()
      modifies this
      ensures Valid()
      ensures r.Err? <==> allocResult != VK_SUCCESS
      ensures r.Err? ==> r.error == UnsuccessfulResult("vkAllocateCommandBuffers", allocResult)
      ensures r.Err? ==> live == old(live) && nextId == old(nextId)
      ensures r.Ok? ==> fresh(r.value) && r.value.handle == Live(old(nextId)) && r.value.commands == []
      ensures r.Ok? ==> old(nextId) !in old(live) && live == old(live) + {old(nextId)} && nextId == old(nextId) + 1
    {
      if allocResult != VK_SUCCESS {
        return Err(UnsuccessfulResult("vkAllocateCommandBuffers", allocResult));
      }
      var b := new CommandBuffer.Wrap(Live(nextId));
      live := live + {nextId};
      nextId := nextId + 1;
      return Ok(b);
    }

    /** free(buffer): a live handle is given back and the buffer becomes
        null; a null buffer is left alone, so a second free does nothing. */
    method Free(b: CommandBuffer)
      modifies this, b
      ensures nextId == old(nextId)
      ensures old(b.handle).Live? ==> live == old(live) - {old(b.handle).id} && b.handle == Null && b.commands == []
      ensures old(b.handle).Null? ==> live == old(live) && b.handle == Null && b.commands == old(b.commands)
      ensures old(Valid()) ==> Valid()
    {
      if b.handle != Null {
        live := live - {b.handle.id};
        var empty := new CommandBuffer();
        b.MoveAssign(empty);
      }
    }
  }

  /** Freeing twice is the same as freeing once. */
  method FreeTwice(pool: CommandPool, b: CommandBuffer)
    modifies pool, b
    ensures b.handle == Null
    ensures pool.live == if old(b.handle).Live? then old(pool.live) - {old(b.handle).id} else old(pool.live)
  {
    pool.Free(b);
    ghost var once := pool.live;
    pool.Free(b);
    assert pool.live == once;
  }

  /** The n consecutive handle ids starting at lo. */
  function HandleRange(lo: nat, n: nat): (ids: set<nat>)
    ensures forall id :: id in ids <==> lo <= id < lo + n
    decreases n
  {
    if n == 0 then {} else HandleRange(lo, n - 1) + {lo + n - 1}
  }

  /** The handle ids of a sequence of command buffers. */
  ghost function LiveIds(bs: seq<CommandBuffer>): set<nat>
    reads set b | b in bs
  {
    set i | 0 <= i < |bs| && bs[i].handle.Live? :: bs[i].handle.id
  }

  /** sat::CommandDispatcher. `buffers` is the free stack (its top is the
      last element) and `available` the value of the counting semaphore;
      `leased` is the set of buffers currently held by leases. */
  class CommandDispatcher {
    const pool: CommandPool
    const count: nat
    var buffers: seq<CommandBuffer>
    var available: nat
    ghost var leased: set<CommandBuffer>

    /** The counter equals the stack size, free plus leased is the capacity,
        and no buffer is on the stack twice or both free and leased. */
    ghost predicate Valid()
      reads this
    {
      && available == |buffers|
      && |buffers| + |leased| == count
      && (forall i, j :: 0 <= i < j < |buffers| ==> buffers[i] != buffers[j])
      && (forall i :: 0 <= i < |buffers| ==> buffers[i] !in leased)
    }

    /** The dispatcher once its buffers are allocated: all of them on the
        free stack, none leased. */
    constructor FromStack(p: CommandPool, stack: seq<CommandBuffer>)
      requires forall i, j :: 0 <= i < j < |stack| ==> stack[i] != stack[j]
      ensures Valid() && pool == p && count == |stack| && leased == {}
      ensures buffers == stack && available == |stack|
    {
      pool := p;
      count := |stack|;
      available := |stack|;
      buffers := stack;
      leased := {};
    }

    /** CommandDispatcher(builder): pushes `n` buffers allocated from the
        pool, `results[i]` being the driver's answer to the i-th allocation.
        The constructor is noexcept, so the first failing allocation
        terminates the process (None), with the buffers allocated before it
        still live in the pool. */
    static method Create(p: CommandPool, n: nat, results: seq<VkResult>) returns (d: Option<CommandDispatcher>)
      requires p.Valid() && |results| == n
      modifies p
      ensures p.Valid()
      ensures d.None? <==> FirstFailure(results).Some?
      ensures d.None? ==> p.live == old(p.live) + HandleRange(old(p.nextId), FirstFailure(results).value)
      ensures d.Some? ==> fresh(d.value) && d.value.Valid() && d.value.pool == p && d.value.count == n && d.value.leased == {}
      ensures d.Some? ==> |d.value.buffers| == n && d.value.available == n
      ensures d.Some? ==> forall i :: 0 <= i < n ==>
                fresh(d.value.buffers[i]) && d.value.buffers[i].handle == Live(old(p.nextId) + i) && d.value.buffers[i].commands == []
      ensures d.Some? ==> p.live == old(p.live) + HandleRange(old(p.nextId), n)
    {
      var stack: seq<CommandBuffer> := [];
      ghost var start, before := p.nextId, p.live;
      for i := 0 to n
        invariant |stack| == i && p.Valid()
        invariant p.nextId == start + i
        invariant forall k :: 0 <= k < i ==> results[k] == VK_SUCCESS
        invariant forall k :: 0 <= k < i ==> fresh(stack[k]) && stack[k].handle == Live(start + k) && stack[k].commands == []
        invariant forall k, j :: 0 <= k < j < i ==> stack[k] != stack[j]
        invariant p.live == before + HandleRange(start, i)
      {
        var b := p.Allocate(results[i]);
        if b.Err? {
          return None;
        }
        stack := stack + [b.value];
        assert HandleRange(start, i + 1) == HandleRange(start, i) + {start + i};
      }
      var dispatcher := new CommandDispatcher.FromStack(p, stack);
      return Some(dispatcher);
    }

    /** The destructor: frees every buffer on the free stack, top first.
        Buffers still held by leases are not freed. */
    method Destroy()
      requires Valid()
      modifies this, pool, buffers
      ensures buffers == [] && available == old(available)
      ensures forall i :: 0 <= i < |old(buffers)| ==> old(buffers)[i].handle == Null
      ensures pool.live == old(pool.live) - old(LiveIds(buffers))
    {
      ghost var all := buffers;
      while buffers != []
        invariant buffers == all[..|buffers|]
        invariant forall i, j :: 0 <= i < j < |all| ==> all[i] != all[j]
        invariant forall i :: |buffers| <= i < |all| ==> all[i].handle == Null
        invariant forall i :: 0 <= i < |buffers| ==> all[i].handle == old(all[i].handle)
        invariant pool.live == old(pool.live) - (set i | |buffers| <= i < |all| && old(all[i].handle).Live? :: old(all[i].handle).id)
        invariant available == old(available)
        decreases |buffers|
      {
        var top := buffers[|buffers| - 1];
        pool.Free(top);
        buffers := buffers[..|buffers| - 1];
      }
    }

    /** acquire(): with the counter positive, pops the top buffer. */
    method Acquire() returns (b: CommandBuffer)
      requires Valid() && available > 0
      modifies this
      ensures Valid()
      ensures b == old(buffers)[|old(buffers)| - 1] && buffers == old(buffers)[..|old(buffers)| - 1]
      ensures available == old(available) - 1 && leased == old(leased) + {b}
    {
      available := available - 1;
      b := buffers[|buffers| - 1];
      buffers := buffers[..|buffers| - 1];
      leased := leased + {b};
    }

    /** release(buffer): pushes the buffer back on top and increments the counter. */
    method Release(b: CommandBuffer)
      requires Valid() && b in leased
      modifies this
      ensures Valid()
      ensures buffers == old(buffers) + [b]
      ensures available == old(available) + 1 && leased == old(leased) - {b}
    {
      buffers := buffers + [b];
      leased := leased - {b};
      available := available + 1;
    }

    /** lease(): a Lease holding the top buffer. */
    method LeaseBuffer() returns (l: Lease)
      requires Valid() && available > 0
      modifies this
      ensures fresh(l) && l.dispatcher == this && l.active && Valid()
      ensures l.buffer == old(buffers)[|old(buffers)| - 1] && buffers == old(buffers)[..|old(buffers)| - 1]
      ensures available == old(available) - 1 && leased == old(leased) + {l.buffer}
    {
      l := new Lease(this);
    }
  }

  /** CommandDispatcher::Lease: holds one buffer between its construction
      and its destruction (Release). */
  class Lease {
    const dispatcher: CommandDispatcher
    const buffer: CommandBuffer
    ghost var active: bool

    constructor (d: CommandDispatcher)
      requires d.Valid() && d.available > 0
      modifies d
      ensures dispatcher == d && active && d.Valid()
      ensures buffer == old(d.buffers)[|old(d.buffers)| - 1] && d.buffers == old(d.buffers)[..|old(d.buffers)| - 1]
      ensures d.available == old(d.available) - 1 && d.leased == old(d.leased) + {buffer}
    {
      var b := d.Acquire();
      dispatcher := d;
      buffer := b;
      active := true;
    }

    /** ~Lease: hands the same buffer back to the dispatcher. */
    method Release()
      requires active && dispatcher.Valid() && buffer in dispatcher.leased
      modifies this, dispatcher
      ensures !active && dispatcher.Valid()
      ensures dispatcher.buffers == old(dispatcher.buffers) + [buffer]
      ensures dispatcher.available == old(dispatcher.available) + 1
      ensures dispatcher.leased == old(dispatcher.leased) - {buffer}
    {
      dispatcher.Release(buffer);
      active := false;
    }
  }

  /** Releasing a buffer and acquiring straight away gives back that buffer
      and leaves the stack and the counter as they were. */
  method ReleaseThenAcquire(d: CommandDispatcher, b: CommandBuffer) returns (c: CommandBuffer)
    requires d.Valid() && b in d.leased
    modifies d
    ensures c == b && d.Valid()
    ensures d.buffers == old(d.buffers) && d.available == old(d.available) && d.leased == old(d.leased)
  {
    d.Release(b);
    c := d.Acquire();
    assert d.buffers == (old(d.buffers) + [b])[..|old(d.buffers)|];
  }
}
