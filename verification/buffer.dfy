/** Device buffers with a persistently mapped staging buffer, and the
    synchronous staged upload `put`. */
module Buffers {

  import opened Vk
  import opened Commands

  const VK_BUFFER_USAGE_TRANSFER_SRC_BIT: bv32 := 0x1
  const VK_BUFFER_USAGE_TRANSFER_DST_BIT: bv32 := 0x2

  /** The fields of VkBufferCreateInfo the constructor sets. */
  datatype BufferCreateInfo = BufferCreateInfo(size: nat, usage: bv32, sharing: Sharing)

  /** The device buffer: the requested usage plus transfer-destination, and
      exclusive sharing unless some queue family was shared. */
  function DeviceCreateInfo(size: nat, usage: bv32, families: seq<nat>): (ci: BufferCreateInfo)
    ensures ci.size == size
    ensures ci.usage == WithTransferDst(usage)
    ensures ci.sharing.mode == Exclusive <==> families == []
    ensures ci.sharing.mode == Concurrent ==> ci.sharing.queueFamilyIndexCount == |families| && ci.sharing.queueFamilyIndices == families
  {
    BufferCreateInfo(size, WithTransferDst(usage), SharingFor(families))
  }

  /** The requested usage flags with transfer-destination added: DST is
      set and every other bit is as requested. */
  function WithTransferDst(usage: bv32): (u: bv32)
    ensures u & VK_BUFFER_USAGE_TRANSFER_DST_BIT == VK_BUFFER_USAGE_TRANSFER_DST_BIT
    ensures u & !VK_BUFFER_USAGE_TRANSFER_DST_BIT == usage & !VK_BUFFER_USAGE_TRANSFER_DST_BIT
  {
    usage | VK_BUFFER_USAGE_TRANSFER_DST_BIT
  }

  /** The staging buffer: same size, transfer-source only, exclusive. */
  function StagingCreateInfo(size: nat): (ci: BufferCreateInfo)
    ensures ci.size == size && ci.usage == VK_BUFFER_USAGE_TRANSFER_SRC_BIT
    ensures ci.sharing.mode == Exclusive && ci.sharing.queueFamilyIndexCount == 0
  {
    BufferCreateInfo(size, VK_BUFFER_USAGE_TRANSFER_SRC_BIT, SharingFor([]))
  }

  /** `s` with the bytes [offset, offset + |data|) replaced by `data`. */
  function Overlay(s: seq<Byte>, data: seq<Byte>, offset: nat): (r: seq<Byte>)
    requires offset + |data| <= |s|
    ensures |r| == |s|
    ensures forall k :: 0 <= k < |s| && (k < offset || offset + |data| <= k) ==> r[k] == s[k]
    ensures forall k :: offset <= k < offset + |data| ==> r[k] == data[k - offset]
  {
    s[..offset] + data + s[offset + |data|..]
  }

  /** Two writes to disjoint ranges give the piecewise overlay of both,
      whichever is written first. */
  lemma OverlayDisjoint(s: seq<Byte>, a: seq<Byte>, i: nat, b: seq<Byte>, j: nat)
    requires i + |a| <= j && j + |b| <= |s|
    ensures Overlay(Overlay(s, a, i), b, j) == s[..i] + a + s[i + |a|..j] + b + s[j + |b|..]
    ensures Overlay(Overlay(s, a, i), b, j) == Overlay(Overlay(s, b, j), a, i)
  {
    var t := Overlay(s, a, i);
    assert t[..j] == s[..i] + a + s[i + |a|..j] by {
      assert forall k :: 0 <= k < j ==> t[k] == (s[..i] + a + s[i + |a|..j])[k];
    }
    assert t[j + |b|..] == s[j + |b|..];
    var u := Overlay(s, b, j);
    assert u[..i] == s[..i];
    assert u[i + |a|..] == s[i + |a|..j] + b + s[j + |b|..] by {
      var rest := s[i + |a|..j] + b + s[j + |b|..];
      assert forall k :: 0 <= k < |rest| ==> u[i + |a|..][k] == rest[k];
    }
  }

  /** The bytes of a span of elements, each `sizeof(T)` bytes long. */
  function Flatten(elements: seq<seq<Byte>>): seq<Byte>
  {
    if elements == [] then [] else elements[0] + Flatten(elements[1..])
  }

  /** A span of n elements of size k holds n * k bytes. */
  lemma {:induction false} FlattenLength(elements: seq<seq<Byte>>, k: nat)
    requires forall e :: e in elements ==> |e| == k
    ensures |Flatten(elements)| == |elements| * k
  {
    if elements != [] {
      assert elements[0] in elements;
      forall e | e in elements[1..] ensures |e| == k {
        assert e in elements;
      }
      FlattenLength(elements[1..], k);
      assert (|elements[1..]| + 1) * k == k + |elements[1..]| * k;
    }
  }

  /** The commands `put` records: a one-time recording of one copy of the
      whole buffer, staging to device, offsets 0. */
  function UploadCommands(staging: nat, device: nat, size: nat): seq<Command>
  {
    [BeginRecording(true), CopyBuffer(staging, device, [BufferCopy(0, 0, size)]), EndRecording]
  }

  /** Once the upload has executed, the device buffer holds the staging
      contents. */
  lemma {:induction false} UploadMakesDeviceEqualStaging(staging: nat, device: nat, mem: Memory)
    requires staging in mem && device in mem && staging != device
    requires |mem[staging]| == |mem[device]|
    ensures Execute(UploadCommands(staging, device, |mem[staging]|), mem)[device] == mem[staging]
    ensures Execute(UploadCommands(staging, device, |mem[staging]|), mem)[staging] == mem[staging]
  {
    var n := |mem[staging]|;
    var cmds := UploadCommands(staging, device, n);
    var region := BufferCopy(0, 0, n);
    var after := mem[device := CopyRegion(mem[staging], mem[device], region)];
    assert ExecuteOne(cmds[0], mem) == mem;
    assert cmds[1..][1..] == [EndRecording] && [EndRecording][1..] == [];
    assert [region][1..] == [];
    assert ExecuteOne(cmds[1], mem) == ApplyRegions(staging, device, [], after) == after;
    assert ExecuteOne(EndRecording, after) == after;
    assert Execute(cmds, mem) == Execute(cmds[1..], mem) == Execute(cmds[1..][1..], after) == after;
    CopyWholeBuffer(mem[staging], mem[device]);
  }

  /** What `put` does, in order. */
  datatype PutStep =
    | WriteStaging(offset: nat, size: nat)
    | AllocateCommandBuffer(id: nat)
    | CreateFence(signaled: bool)
    | Submit(commands: seq<Command>)
    | WaitFence
    | FreeCommandBuffer(id: nat)

  /** BufferPool: the command pool and queue uploads go through. The VMA
      allocator is not part of this model. */
  class BufferPool {
    const commandPool: CommandPool
    const queue: nat

    constructor (commandPool: CommandPool, queue: nat)
      ensures this.commandPool == commandPool && this.queue == queue
    {
      this.commandPool := commandPool;
      this.queue := queue;
    }
  }

  /** The memcpy into mapped memory. */
  method WriteBytes(a: array<Byte>, data: seq<Byte>, offset: nat)
    requires offset + |data| <= a.Length
    modifies a
    ensures a[..] == Overlay(old(a[..]), data, offset)
  {
    for i := 0 to |data|
      invariant forall k :: 0 <= k < a.Length && (k < offset || offset + i <= k) ==> a[k] == old(a[k])
      invariant forall k :: offset <= k < offset + i ==> a[k] == data[k - offset]
    {
      a[offset + i] := data[i];
    }
  }

  /** Recording the upload into a fresh command buffer: begin (one-time),
      a whole-buffer copy, end. It succeeds iff both recording calls do. */
  method RecordUpload(cmd: CommandBuffer, staging: nat, device: nat, size: nat, beginResult: VkResult, endResult: VkResult)
    returns (recorded: bool)
    requires cmd.commands == []
    modifies cmd
    ensures cmd.handle == old(cmd.handle)
    ensures recorded <==> beginResult == VK_SUCCESS && endResult == VK_SUCCESS
    ensures recorded ==> cmd.commands == UploadCommands(staging, device, size)
  {
    var o := cmd.Record(beginResult, true);
    if o.Fail? {
      return false;
    }
    cmd.Copy(device, staging, size);
    o := cmd.Stop(endResult);
    if o.Fail? {
      return false;
    }
    return true;
  }

  /** sat::Buffer. `staging` is the persistently mapped staging memory;
      `device` the contents of the device-local buffer. */
  class Buffer {
    const pool: BufferPool
    const size: nat
    const handle: nat
    const stagingHandle: nat
    const createInfo: BufferCreateInfo
    const stagingCreateInfo: BufferCreateInfo
    const staging: array<Byte>
    var device: seq<Byte>

    ghost predicate Valid()
      reads this
    {
      staging.Length == size && |device| == size && handle != stagingHandle
    }

    /** Buffer(builder): both buffers are created with the size the builder
        was given; the handles and the initial memory contents are the
        allocator's. */
    constructor (pool: BufferPool, size: nat, usage: bv32, families: seq<nat>,
                 handle: nat, stagingHandle: nat, initialDevice: seq<Byte>, initialStaging: seq<Byte>)
      requires handle != stagingHandle && |initialDevice| == size && |initialStaging| == size
      ensures Valid() && fresh(staging)
      ensures this.pool == pool && this.size == size && this.handle == handle && this.stagingHandle == stagingHandle
      ensures createInfo == DeviceCreateInfo(size, usage, families) && stagingCreateInfo == StagingCreateInfo(size)
      ensures device == initialDevice && staging[..] == initialStaging
    {
      this.pool := pool;
      this.size := size;
      this.handle := handle;
      this.stagingHandle := stagingHandle;
      createInfo := DeviceCreateInfo(size, usage, families);
      stagingCreateInfo := StagingCreateInfo(size);
      staging := new Byte[size](i requires 0 <= i < size => initialStaging[i]);
      device := initialDevice;
    }

    /** put(pData, size, offset): copies the data into the staging memory at
        `offset`, then records, submits and waits for a one-time copy of the
        WHOLE buffer from staging to device, and frees the command buffer.
        The function is noexcept, so a failing allocation, recording call or
        fence creation (`fenceResult`, the `vkCreateFence` inside the noexcept
        Fence constructor) terminates the program (`terminated`). */
    method Put(data: seq<Byte>, offset: nat, allocResult: VkResult, beginResult: VkResult, endResult: VkResult,
               fenceResult: VkResult)
      returns (terminated: bool, trace: seq<PutStep>)
      requires Valid() && pool.commandPool.Valid()
      requires offset + |data| <= size
      modifies staging, this, pool.commandPool
      ensures Valid() && pool.commandPool.Valid()
      ensures staging[..] == Overlay(old(staging[..]), data, offset)
      ensures terminated <==> allocResult != VK_SUCCESS || beginResult != VK_SUCCESS || endResult != VK_SUCCESS
                              || fenceResult != VK_SUCCESS
      ensures !terminated ==> device == staging[..]
      ensures !terminated ==> pool.commandPool.live == old(pool.commandPool.live)
      ensures !terminated ==>
                trace == [WriteStaging(offset, |data|), AllocateCommandBuffer(old(pool.commandPool.nextId)),
                          CreateFence(false), Submit(UploadCommands(stagingHandle, handle, size)),
                          WaitFence, FreeCommandBuffer(old(pool.commandPool.nextId))]
      ensures terminated ==> device == old(device)
      ensures allocResult != VK_SUCCESS ==> pool.commandPool.live == old(pool.commandPool.live)
      ensures allocResult == VK_SUCCESS && terminated ==>
                pool.commandPool.live == old(pool.commandPool.live) + {old(pool.commandPool.nextId)}
    {
      WriteBytes(staging, data, offset);
      trace := [WriteStaging(offset, |data|)];

      var cmdPool := pool.commandPool;
      var got := cmdPool.Allocate(allocResult);
      if got.Err? {
        terminated := true;
        return;
      }
      var cmd := got.value;
      var id := cmd.handle.id;
      trace := trace + [AllocateCommandBuffer(id)];

      var recorded := RecordUpload(cmd, stagingHandle, handle, size, beginResult, endResult);
      if !recorded {
        terminated := true;
        return;
      }

      // A fresh unsignaled fence; the queue signals it once the copy has run,
      // so the wait returning means the copy is complete. Its creation failing
      // terminates before anything is submitted.
      if fenceResult != VK_SUCCESS {
        terminated := true;
        return;
      }
      terminated := false;
      trace := trace + [CreateFence(false), Submit(cmd.commands)];
      var before: Memory := map[stagingHandle := staging[..], handle := device];
      UploadMakesDeviceEqualStaging(stagingHandle, handle, before);
      device := Execute(cmd.commands, before)[handle];
      trace := trace + [WaitFence];

      cmdPool.Free(cmd);
      trace := trace + [FreeCommandBuffer(id)];
    }

    /** put(std::span<T const> data, offset): forwards the span's bytes, whose
        count is the element count times sizeof(T). */
    method PutSpan(elements: seq<seq<Byte>>, elementSize: nat, offset: nat, allocResult: VkResult, beginResult: VkResult, endResult: VkResult,
                   fenceResult: VkResult)
      returns (terminated: bool, byteCount: nat)
      requires Valid() && pool.commandPool.Valid()
      requires forall e :: e in elements ==> |e| == elementSize
      requires offset + |elements| * elementSize <= size
      modifies staging, this, pool.commandPool
      ensures Valid() && pool.commandPool.Valid()
      ensures byteCount == |Flatten(elements)| == |elements| * elementSize
      ensures staging[..] == Overlay(old(staging[..]), Flatten(elements), offset)
      ensures terminated <==> allocResult != VK_SUCCESS || beginResult != VK_SUCCESS || endResult != VK_SUCCESS
                              || fenceResult != VK_SUCCESS
      ensures !terminated ==> device == staging[..]
    {
      FlattenLength(elements, elementSize);
      assert |Flatten(elements)| == |elements| * elementSize;
      var bytes := Flatten(elements);
      byteCount := |bytes|;
      var trace;
      terminated, trace := Put(bytes, offset, allocResult, beginResult, endResult, fenceResult);
    }
  }

  /** A 64-byte buffer receiving 32 bytes of 0xAA at offset 0 and then 32
      bytes of 0xBB at offset 32 holds 0xAA * 32 followed by 0xBB * 32. */
  method TwoHalvesScenario(b: Buffer)
    requires b.Valid() && b.pool.commandPool.Valid() && b.size == 64
    modifies b.staging, b, b.pool.commandPool
    ensures b.device == seq(32, _ => 0xAA as Byte) + seq(32, _ => 0xBB as Byte)
  {
    var aa := seq(32, _ => 0xAA as Byte);
    var bb := seq(32, _ => 0xBB as Byte);
    ghost var s := b.staging[..];
    var t, trace := b.Put(aa, 0, VK_SUCCESS, VK_SUCCESS, VK_SUCCESS, VK_SUCCESS);
    t, trace := b.Put(bb, 32, VK_SUCCESS, VK_SUCCESS, VK_SUCCESS, VK_SUCCESS);
    OverlayDisjoint(s, aa, 0, bb, 32);
    assert s[..0] == [] && s[32..32] == [] && s[64..] == [];
    assert b.device == aa + bb;
  }
}
