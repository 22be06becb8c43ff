/**
 * The life of a GPUUniformBuffer (gpu_uniformbuffer.cc): creation, the lazy
 * allocation of its device buffer, uploads, binding to and unbinding from the
 * uniform-buffer binding points, and freeing. The graphics device is explicit
 * state: a buffer-name allocator that may run out, the storage of every live
 * buffer and the table of indexed binding points.
 */
module UboLifecycle {
  import opened UboLayout
  import opened UboLayoutProofs
  import opened UboPacker

  /** A buffer name; 0 names no buffer. */
  type Handle = nat

  /** What GPU_uniformbuffer_create writes to err_out for an oversized buffer. */
  const UBO_TOO_BIG: string := "GPUUniformBuffer: UBO too big"

  /** Storage of n words whose contents the program never set. */
  function Zeros(n: nat): (z: seq<Word>)
    ensures |z| == n && forall i :: 0 <= i < n ==> z[i] == 0
  {
    seq(n, _ => 0)
  }

  /**
   * The device behind GPU_buf_alloc, glBufferData, glBufferSubData,
   * glBindBufferBase and GPU_buf_free.
   */
  class Device {
    /** GPU_max_ubo_size(), in bytes. */
    const maxUboSize: nat
    /** GPU_max_ubo_binds(): the number of uniform-buffer binding points. */
    const maxUboBinds: nat
    /** The last buffer name the allocator can hand out. */
    const handleLimit: nat
    /** The next buffer name the allocator hands out. */
    var nextHandle: nat
    /** The storage of every live buffer, in words. */
    var store: map<Handle, seq<Word>>
    /** The buffer bound to each binding point, 0 for none. */
    const slots: array<Handle>

    ghost predicate Valid()
      reads this
    {
      && slots.Length == maxUboBinds
      && 0 < nextHandle
      && 0 !in store
      && forall h :: h in store ==> h < nextHandle
    }

    constructor(maxUboSize: nat, maxUboBinds: nat, handleLimit: nat)
      ensures Valid()
      ensures this.maxUboSize == maxUboSize && this.maxUboBinds == maxUboBinds && this.handleLimit == handleLimit
      ensures store == map[] && nextHandle == 1
      ensures forall i :: 0 <= i < slots.Length ==> slots[i] == 0
    {
      this.maxUboSize := maxUboSize;
      this.maxUboBinds := maxUboBinds;
      this.handleLimit := handleLimit;
      nextHandle := 1;
      store := map[];
      slots := new Handle[maxUboBinds](_ => 0);
    }

    /** GPU_buf_alloc: a new buffer name with empty storage, or 0 once the names run out. */
    method Alloc() returns (h: Handle)
      requires Valid()
      modifies this
      ensures Valid()
      ensures old(nextHandle) <= handleLimit ==>
        h == old(nextHandle) && h !in old(store) && store == old(store)[h := []] && nextHandle == h + 1
      ensures old(nextHandle) > handleLimit ==> h == 0 && store == old(store) && nextHandle == old(nextHandle)
    {
      if nextHandle > handleLimit {
        return 0;
      }
      h := nextHandle;
      store := store[h := []];
      nextHandle := nextHandle + 1;
    }

    /** glBufferData with no data: buffer h gets storage of n words with unset contents. */
    method Reserve(h: Handle, n: nat)
      requires Valid()
      modifies this
      ensures Valid() && nextHandle == old(nextHandle)
      ensures h in old(store) ==> store == old(store)[h := Zeros(n)]
      ensures h !in old(store) ==> store == old(store)
    {
      if h in store {
        store := store[h := Zeros(n)];
      }
    }

    /** glBufferSubData at offset 0: the first |words| words of buffer h, when they fit. */
    method Write(h: Handle, words: seq<Word>)
      requires Valid()
      modifies this
      ensures Valid() && nextHandle == old(nextHandle)
      ensures h in old(store) && |words| <= |old(store)[h]| ==>
        store == old(store)[h := words + old(store)[h][|words|..]]
      ensures !(h in old(store) && |words| <= |old(store)[h]|) ==> store == old(store)
    {
      if h in store && |words| <= |store[h]| {
        store := store[h := words + store[h][|words|..]];
      }
    }

    /** glBindBufferBase: binding point index now holds buffer h. */
    method BindBase(index: nat, h: Handle)
      requires Valid() && index < slots.Length
      modifies slots
      ensures slots[index] == h
      ensures forall i :: 0 <= i < slots.Length && i != index ==> slots[i] == old(slots[i])
    {
      slots[index] := h;
    }

    /** GPU_buf_free: buffer h and its storage are gone; 0 is ignored. */
    method Release(h: Handle)
      requires Valid()
      modifies this
      ensures Valid() && nextHandle == old(nextHandle)
      ensures store == old(store) - {h}
    {
      store := store - {h};
    }
  }

  /** GPUUniformBuffer. */
  class UniformBuffer {
    /** How many bytes the buffer holds; always whole vec4s. */
    var size: nat
    /** The device buffer, 0 until one has been allocated. */
    var bindcode: Handle
    /** The binding point it was last bound to; -1 before the first bind. */
    var bindpoint: int
    /** The owned block still to be uploaded, if any. */
    var data: Option<seq<Word>>

    /** The size is whole vec4s, a live device buffer holds exactly that much, and pending data is that size. */
    ghost predicate Valid(dev: Device)
      reads this, dev
    {
      && size % ALIGNMENT == 0
      && (bindcode != 0 ==> bindcode in dev.store && FLOAT_SIZE * |dev.store[bindcode]| == size)
      && (data.Some? ==> FLOAT_SIZE * |data.value| == size)
    }

    /** The fields GPU_uniformbuffer_create sets on the new buffer. */
    constructor(size: nat)
      ensures this.size == size && bindcode == 0 && bindpoint == -1 && data == None
    {
      this.size := size;
      bindcode := 0;
      bindpoint := -1;
      data := None;
    }

    /**
     * gpu_uniformbuffer_init: allocates a device buffer and gives it storage
     * of the buffer's size. When no name is left bindcode stays 0.
     */
    method Init(dev: Device)
      requires dev.Valid() && Valid(dev) && bindcode == 0
      modifies this, dev
      ensures dev.Valid() && Valid(dev)
      ensures size == old(size) && bindpoint == old(bindpoint) && data == old(data)
      ensures old(dev.nextHandle) <= dev.handleLimit ==>
        && bindcode == old(dev.nextHandle) && dev.nextHandle == old(dev.nextHandle) + 1
        && dev.store == old(dev.store)[bindcode := Zeros(size / FLOAT_SIZE)]
      ensures old(dev.nextHandle) > dev.handleLimit ==>
        bindcode == 0 && dev.store == old(dev.store) && dev.nextHandle == old(dev.nextHandle)
    {
      bindcode := dev.Alloc();
      if bindcode == 0 {
        // allocation failed
        return;
      }
      dev.Reserve(bindcode, size / FLOAT_SIZE);
      WholeFloats(size);
    }

    /**
     * GPU_uniformbuffer_update: allocates a device buffer unless there is one,
     * then overwrites its whole contents with the first size bytes of words.
     * The pending data and the binding point are left alone.
     */
    method Update(dev: Device, words: seq<Word>)
      requires dev.Valid() && Valid(dev)
      requires size <= FLOAT_SIZE * |words|
      modifies this, dev
      ensures dev.Valid() && Valid(dev)
      ensures size == old(size) && bindpoint == old(bindpoint) && data == old(data)
      ensures old(bindcode) != 0 ==> bindcode == old(bindcode) && dev.nextHandle == old(dev.nextHandle)
      ensures old(bindcode) == 0 && old(dev.nextHandle) <= dev.handleLimit ==>
        bindcode == old(dev.nextHandle) && dev.nextHandle == old(dev.nextHandle) + 1
      ensures old(bindcode) == 0 && old(dev.nextHandle) > dev.handleLimit ==>
        bindcode == 0 && dev.nextHandle == old(dev.nextHandle)
      ensures bindcode != 0 ==> dev.store == old(dev.store)[bindcode := words[..size / FLOAT_SIZE]]
      ensures bindcode == 0 ==> dev.store == old(dev.store)
    {
      if bindcode == 0 {
        Init(dev);
      }
      WholeFloats(size);
      ghost var before := dev.store;
      var block := words[..size / FLOAT_SIZE];
      dev.Write(bindcode, block);
      if bindcode != 0 {
        assert |before[bindcode]| == |block|;
        assert block + before[bindcode][|block|..] == block;
      }
    }

    /**
     * GPU_uniformbuffer_bind: refuses a binding point past the last one.
     * Otherwise it allocates a device buffer if needed, uploads and drops the
     * pending data, binds the buffer at the point and records it. A negative
     * point binds nothing on the device but is still recorded.
     */
    method Bind(dev: Device, number: int)
      requires dev.Valid() && Valid(dev)
      modifies this, dev, dev.slots
      ensures dev.Valid() && Valid(dev)
      ensures number >= dev.maxUboBinds ==>
        && size == old(size) && bindcode == old(bindcode) && bindpoint == old(bindpoint) && data == old(data)
        && dev.store == old(dev.store) && dev.nextHandle == old(dev.nextHandle)
        && forall i :: 0 <= i < dev.slots.Length ==> dev.slots[i] == old(dev.slots[i])
      ensures number < dev.maxUboBinds ==>
        && bindpoint == number && data == None && size == old(size)
        && (old(bindcode) != 0 ==> bindcode == old(bindcode) && dev.nextHandle == old(dev.nextHandle))
        && (old(bindcode) == 0 && old(dev.nextHandle) <= dev.handleLimit ==>
              bindcode == old(dev.nextHandle) && dev.nextHandle == old(dev.nextHandle) + 1)
        && (old(bindcode) == 0 && old(dev.nextHandle) > dev.handleLimit ==>
              bindcode == 0 && dev.nextHandle == old(dev.nextHandle))
        && (bindcode == 0 ==> dev.store == old(dev.store))
        && (old(bindcode) != 0 && old(data).None? ==> dev.store == old(dev.store))
        && (old(bindcode) == 0 && bindcode != 0 && old(data).None? ==>
              dev.store == old(dev.store)[bindcode := Zeros(size / FLOAT_SIZE)])
        && (bindcode != 0 && old(data).Some? ==> dev.store == old(dev.store)[bindcode := old(data).value])
        && (0 <= number ==> dev.slots[number] == bindcode)
        && forall i :: 0 <= i < dev.slots.Length && i != number ==> dev.slots[i] == old(dev.slots[i])
    {
      if number >= dev.maxUboBinds {
        // not enough binding points
        return;
      }
      if bindcode == 0 {
        Init(dev);
      }
      if data.Some? {
        WholeFloats(size);
        Update(dev, data.value);
        assert data.value[..size / FLOAT_SIZE] == data.value;
        data := None;
      }
      if 0 <= number {
        dev.BindBase(number, bindcode);
      }
      bindpoint := number;
    }

    /** GPU_uniformbuffer_unbind: the recorded binding point becomes 0. */
    method Unbind()
      modifies this
      ensures bindpoint == 0
      ensures size == old(size) && bindcode == old(bindcode) && data == old(data)
    {
      bindpoint := 0;
    }

    /** GPU_uniformbuffer_free: drops the pending data and releases the device buffer. */
    method Free(dev: Device)
      requires dev.Valid()
      modifies this, dev
      ensures dev.Valid() && data == None
      ensures dev.store == old(dev.store) - {old(bindcode)} && dev.nextHandle == old(dev.nextHandle)
    {
      data := None;
      dev.Release(bindcode);
    }
  }

  /**
   * GPU_uniformbuffer_create: no buffer and the error text when size is over
   * the device maximum; otherwise a new buffer of that size, uploaded at once
   * when initial words are given.
   */
  method Create(dev: Device, size: nat, words: Option<seq<Word>>) returns (ubo: UniformBuffer?, err: Option<string>)
    requires dev.Valid()
    requires size % ALIGNMENT == 0
    requires words.Some? ==> size <= FLOAT_SIZE * |words.value|
    modifies dev
    ensures dev.Valid()
    ensures size > dev.maxUboSize ==>
      ubo == null && err == Some(UBO_TOO_BIG) && dev.store == old(dev.store) && dev.nextHandle == old(dev.nextHandle)
    ensures size <= dev.maxUboSize ==> ubo != null && fresh(ubo) && err == None && ubo.Valid(dev)
    ensures size <= dev.maxUboSize ==> ubo.size == size && ubo.bindpoint == -1 && ubo.data == None
    ensures size <= dev.maxUboSize && words.None? ==>
      ubo.bindcode == 0 && dev.store == old(dev.store) && dev.nextHandle == old(dev.nextHandle)
    ensures size <= dev.maxUboSize && words.Some? && old(dev.nextHandle) <= dev.handleLimit ==>
      && ubo.bindcode == old(dev.nextHandle) && dev.nextHandle == old(dev.nextHandle) + 1
      && dev.store == old(dev.store)[ubo.bindcode := words.value[..size / FLOAT_SIZE]]
    ensures size <= dev.maxUboSize && words.Some? && old(dev.nextHandle) > dev.handleLimit ==>
      ubo.bindcode == 0 && dev.store == old(dev.store) && dev.nextHandle == old(dev.nextHandle)
  {
    if size > dev.maxUboSize {
      return null, Some(UBO_TOO_BIG);
    }
    ubo := new UniformBuffer(size);
    err := None;
    if words.Some? {
      // given words are uploaded right away
      ubo.Update(dev, words.value);
    }
  }

  /** GPU_uniformbuffer_unbind_all: every binding point is emptied. */
  method UnbindAll(dev: Device)
    requires dev.Valid()
    modifies dev.slots
    ensures forall i :: 0 <= i < dev.slots.Length ==> dev.slots[i] == 0
  {
    for i := 0 to dev.maxUboBinds
      invariant forall k :: 0 <= k < i ==> dev.slots[k] == 0
    {
      dev.BindBase(i, 0);
    }
  }

  /**
   * GPU_uniformbuffer_dynamic_create: no buffer for an empty list. Otherwise
   * the list is put in std140 order, its padded size computed and its
   * components packed into a block, and a new buffer of that size keeps the
   * block for the upload at the first bind. sorted is the order the sort
   * left the list in; the size does not depend on it.
   */
  method DynamicCreate(dev: Device, inputs: InputList) returns (ubo: UniformBuffer?, ghost sorted: seq<Input>)
    requires dev.Valid()
    requires forall i :: 0 <= i < |inputs.items| ==> WellFormed(inputs.items[i])
    requires BufferSize(Padded(SortByKind(inputs.items))) <= dev.maxUboSize
    modifies dev, inputs
    ensures dev.Valid() && dev.store == old(dev.store) && dev.nextHandle == old(dev.nextHandle)
    ensures old(inputs.items) == [] ==> ubo == null && inputs.items == []
    ensures old(inputs.items) != [] ==>
      && Sorted(sorted) && multiset(sorted) == multiset(old(inputs.items))
      && inputs.items == Padded(sorted)
      && ubo != null && fresh(ubo) && ubo.Valid(dev)
      && ubo.size == BufferSize(inputs.items) == BufferSize(Padded(SortByKind(old(inputs.items))))
      && ubo.bindcode == 0 && ubo.bindpoint == -1
      && ubo.data.Some? && Packs(ubo.data.value, inputs.items)
  {
    if inputs.items == [] {
      return null, [];
    }
    ghost var s := inputs.items;
    sorted := InputsSort(inputs);
    SortedInputs(s, sorted);

    var size := PackedSize(inputs.items);
    var block := Serialize(inputs.items, size);
    var err;
    ubo, err := Create(dev, size, None);
    // the block stays pending until Bind uploads it
    ubo.data := Some(block);
  }
}
