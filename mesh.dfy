/**
  Mesh: a vertex buffer in host-visible, host-coherent device memory. The driver's answers
  (the created buffer handle, the buffer's memory requirements, the physical device's memory
  types, the allocated memory handle) are inputs; the calls the mesh issues are outputs.
 */
module Mesh {
  import opened Wrappers
  import opened VkTypes
  import opened Utilities
  import opened Teardown

  // ----- Memory-type search -----

  /** Memory type i is allowed by the bitmask and has every requested property bit. */
  predicate MemoryTypeFits(memoryTypes: seq<bv32>, allowedTypes: bv32, properties: bv32, i: nat)
    requires i < |memoryTypes| <= VK_MAX_MEMORY_TYPES
  {
    allowedTypes & (1 << i) != 0 && memoryTypes[i] & properties == properties
  }

  /** The first fitting memory type at or after position from. */
  function FirstFitFrom(memoryTypes: seq<bv32>, allowedTypes: bv32, properties: bv32, from: nat): (r: Option<nat>)
    requires from <= |memoryTypes| <= VK_MAX_MEMORY_TYPES
    ensures r.Some? ==> from <= r.value < |memoryTypes| && MemoryTypeFits(memoryTypes, allowedTypes, properties, r.value)
    ensures r.Some? ==> forall j :: from <= j < r.value ==> !MemoryTypeFits(memoryTypes, allowedTypes, properties, j)
    ensures r.None? ==> forall j :: from <= j < |memoryTypes| ==> !MemoryTypeFits(memoryTypes, allowedTypes, properties, j)
    decreases |memoryTypes| - from
  {
    if from == |memoryTypes| then None
    else if MemoryTypeFits(memoryTypes, allowedTypes, properties, from) then Some(from)
    else FirstFitFrom(memoryTypes, allowedTypes, properties, from + 1)
  }

  /** The VkResult of FindMemoryTypeIndex together with its out-parameter. */
  datatype MemoryTypeSearch = MemoryTypeSearch(result: VkResult, typeIndex: uint32)

  /**
    Mesh::FindMemoryTypeIndex over the memoryTypeCount entries of the physical device's
    memory properties (at most VK_MAX_MEMORY_TYPES). outTypeIndex is the value the caller's
    variable holds before the call; it is only overwritten on success.
   */
  function FindMemoryTypeIndex(memoryTypes: seq<bv32>, allowedTypes: bv32, properties: bv32, outTypeIndex: uint32): (r: MemoryTypeSearch)
    requires |memoryTypes| <= VK_MAX_MEMORY_TYPES
    ensures r.result == VK_SUCCESS <==>
      exists i :: 0 <= i < |memoryTypes| && MemoryTypeFits(memoryTypes, allowedTypes, properties, i)
    ensures r.result == VK_SUCCESS ==>
      && r.typeIndex < |memoryTypes|
      && MemoryTypeFits(memoryTypes, allowedTypes, properties, r.typeIndex)
      && forall j :: 0 <= j < r.typeIndex ==> !MemoryTypeFits(memoryTypes, allowedTypes, properties, j)
    ensures r.result != VK_SUCCESS ==> r.result == VK_ERROR_MEMORY_MAP_FAILED && r.typeIndex == outTypeIndex
  {
    match FirstFitFrom(memoryTypes, allowedTypes, properties, 0)
    case Some(i) => MemoryTypeSearch(VK_SUCCESS, i)
    case None => MemoryTypeSearch(VK_ERROR_MEMORY_MAP_FAILED, outTypeIndex)
  }

  /** The properties a vertex buffer's memory must have: mappable by the host, and coherent
      so the copied vertices need no explicit flush. */
  const VERTEX_MEMORY_PROPERTIES: bv32 := VK_MEMORY_PROPERTY_HOST_VISIBLE_BIT | VK_MEMORY_PROPERTY_HOST_COHERENT_BIT

  /** The value memTypeIndex holds until the search overwrites it. */
  const NO_MEMORY_TYPE: uint32 := UINT32_MAX

  /** Allowed types {1, 3}; type 1 is host-visible only, type 3 visible and coherent:
      the search skips type 2 (not allowed) and type 1 (not coherent) and picks 3. */
  lemma SearchSkipsIncoherentType()
    ensures FindMemoryTypeIndex([0x1, 0x2, 0x6, 0x6], 0xA, VERTEX_MEMORY_PROPERTIES, NO_MEMORY_TYPE)
      == MemoryTypeSearch(VK_SUCCESS, 3)
  {
    var types: seq<bv32> := [0x1, 0x2, 0x6, 0x6];
    assert !MemoryTypeFits(types, 0xA, VERTEX_MEMORY_PROPERTIES, 0);
    assert !MemoryTypeFits(types, 0xA, VERTEX_MEMORY_PROPERTIES, 1);
    assert !MemoryTypeFits(types, 0xA, VERTEX_MEMORY_PROPERTIES, 2);
    assert MemoryTypeFits(types, 0xA, VERTEX_MEMORY_PROPERTIES, 3);
  }

  /** Every memory type the vertex buffer may be placed in is host-visible and host-coherent. */
  lemma FittingTypeIsHostAccessible(memoryTypes: seq<bv32>, allowedTypes: bv32, i: nat)
    requires i < |memoryTypes| <= VK_MAX_MEMORY_TYPES
    requires MemoryTypeFits(memoryTypes, allowedTypes, VERTEX_MEMORY_PROPERTIES, i)
    ensures memoryTypes[i] & VK_MEMORY_PROPERTY_HOST_VISIBLE_BIT != 0
    ensures memoryTypes[i] & VK_MEMORY_PROPERTY_HOST_COHERENT_BIT != 0
  {
  }

  // ----- The mesh object -----

  /** The native calls CreateVertexBuffer issues, in order. */
  datatype BufferCall =
    | CreateBuffer(size: nat, usage: bv32, sharing: SharingMode)
    | AllocateMemory(allocationSize: nat, memoryTypeIndex: uint32)
    | BindBufferMemory(buffer: Handle, memory: Handle, memoryOffset: nat)
    | MapMemory(memory: Handle, offset: nat, size: nat)
    | CopyVertices(byteCount: nat)
    | UnmapMemory(memory: Handle)

  /** What the driver answers while the vertex buffer is created. */
  datatype BufferDriver = BufferDriver(
    createdBuffer: Option<Handle>,       // vkCreateBuffer; None when it fails
    requirements: MemoryRequirements,    // vkGetBufferMemoryRequirements
    memoryTypes: seq<bv32>,              // propertyFlags of each memory type of the physical device
    allocatedMemory: Option<Handle>)     // vkAllocateMemory; None when it fails

  datatype MeshError = BufferCreationFailed | NoSuitableMemoryType | MemoryAllocationFailed

  /** sizeof(Vertex) * vertex count, the byte size of the buffer and of the copied range. */
  function VertexBufferSize(vertexCount: nat): nat {
    VERTEX_SIZE * vertexCount
  }

  /** The error CreateVertexBuffer throws for these driver answers, None when it gets through:
      the buffer is created, a host-visible, host-coherent memory type fits it and the
      allocation succeeds. */
  function BufferCreationError(driver: BufferDriver): (r: Option<MeshError>)
    requires |driver.memoryTypes| <= VK_MAX_MEMORY_TYPES
    ensures r.None? <==>
      && driver.createdBuffer.Some?
      && driver.allocatedMemory.Some?
      && exists i :: 0 <= i < |driver.memoryTypes|
           && MemoryTypeFits(driver.memoryTypes, driver.requirements.memoryTypeBits, VERTEX_MEMORY_PROPERTIES, i)
    ensures r == Some(BufferCreationFailed) <==> driver.createdBuffer.None?
  {
    if driver.createdBuffer.None? then Some(BufferCreationFailed)
    else if FindMemoryTypeIndex(driver.memoryTypes, driver.requirements.memoryTypeBits,
                                VERTEX_MEMORY_PROPERTIES, NO_MEMORY_TYPE).result != VK_SUCCESS then
      Some(NoSuitableMemoryType)
    else if driver.allocatedMemory.None? then Some(MemoryAllocationFailed)
    else None
  }

  class Mesh {
    var vertexCount: nat
    var vertexBuffer: Handle
    var vertexBufferMemory: Handle

    /** Mesh() = default under value-initialisation: no vertices and null handles. */
    constructor Empty()
      ensures vertexCount == 0 && vertexBuffer == NULL_HANDLE && vertexBufferMemory == NULL_HANDLE
    {
      vertexCount := 0;
      vertexBuffer := NULL_HANDLE;
      vertexBufferMemory := NULL_HANDLE;
    }

    /** The member-initialiser part of Mesh(physicalDevice, device, vertices). */
    constructor (vertices: seq<Vertex>)
      ensures vertexCount == |vertices| && vertexBuffer == NULL_HANDLE && vertexBufferMemory == NULL_HANDLE
    {
      vertexCount := |vertices|;
      vertexBuffer := NULL_HANDLE;
      vertexBufferMemory := NULL_HANDLE;
    }

    function GetVertexCount(): nat
      reads this
    {
      vertexCount
    }

    function GetVertexBuffer(): Handle
      reads this
    {
      vertexBuffer
    }

    /**
      CreateVertexBuffer: create the buffer, find a host-visible and coherent memory type the
      buffer allows, allocate and bind the memory, then map, copy and unmap the vertices. The
      first failing step ends it with an error; memory is never allocated with the index the
      search leaves unwritten.
     */
    method CreateVertexBuffer(vertices: seq<Vertex>, driver: BufferDriver)
      returns (outcome: Result<(), MeshError>, calls: seq<BufferCall>)
      requires |driver.memoryTypes| <= VK_MAX_MEMORY_TYPES
      modifies this
      ensures vertexCount == old(vertexCount)
      ensures outcome.Success? <==> BufferCreationError(driver).None?
      ensures outcome.Failure? ==> BufferCreationError(driver) == Some(outcome.error)
      ensures |calls| > 0
        && calls[0] == CreateBuffer(VertexBufferSize(|vertices|), VK_BUFFER_USAGE_VERTEX_BUFFER_BIT, Exclusive)
      ensures var search := FindMemoryTypeIndex(driver.memoryTypes, driver.requirements.memoryTypeBits,
                                                VERTEX_MEMORY_PROPERTIES, NO_MEMORY_TYPE);
        && (driver.createdBuffer.None? ==>
              outcome == Failure(BufferCreationFailed) && |calls| == 1
              && vertexBuffer == old(vertexBuffer) && vertexBufferMemory == old(vertexBufferMemory))
        && (driver.createdBuffer.Some? ==> vertexBuffer == driver.createdBuffer.value)
        && (driver.createdBuffer.Some? && search.result != VK_SUCCESS ==>
              outcome == Failure(NoSuitableMemoryType) && |calls| == 1
              && vertexBufferMemory == old(vertexBufferMemory))
        && (driver.createdBuffer.Some? && search.result == VK_SUCCESS && driver.allocatedMemory.None? ==>
              outcome == Failure(MemoryAllocationFailed)
              && calls == [calls[0], AllocateMemory(driver.requirements.size, search.typeIndex)]
              && vertexBufferMemory == old(vertexBufferMemory))
        && (driver.createdBuffer.Some? && search.result == VK_SUCCESS && driver.allocatedMemory.Some? ==>
              var buffer, memory, size := driver.createdBuffer.value, driver.allocatedMemory.value, VertexBufferSize(|vertices|);
              outcome == Success(())
              && vertexBufferMemory == memory
              && calls == [calls[0], AllocateMemory(driver.requirements.size, search.typeIndex),
                           BindBufferMemory(buffer, memory, 0), MapMemory(memory, 0, size),
                           CopyVertices(size), UnmapMemory(memory)])
      ensures forall c :: c in calls && c.AllocateMemory? ==>
        && c.memoryTypeIndex != NO_MEMORY_TYPE
        && c.memoryTypeIndex < |driver.memoryTypes|
        && MemoryTypeFits(driver.memoryTypes, driver.requirements.memoryTypeBits, VERTEX_MEMORY_PROPERTIES, c.memoryTypeIndex)
    {
      var size := VertexBufferSize(|vertices|);
      calls := [CreateBuffer(size, VK_BUFFER_USAGE_VERTEX_BUFFER_BIT, Exclusive)];
      if driver.createdBuffer.None? {
        return Failure(BufferCreationFailed), calls;
      }
      vertexBuffer := driver.createdBuffer.value;

      var memTypeIndex := NO_MEMORY_TYPE;
      var search := FindMemoryTypeIndex(driver.memoryTypes, driver.requirements.memoryTypeBits,
                                        VERTEX_MEMORY_PROPERTIES, memTypeIndex);
      if search.result != VK_SUCCESS {
        return Failure(NoSuitableMemoryType), calls;
      }
      memTypeIndex := search.typeIndex;

      calls := calls + [AllocateMemory(driver.requirements.size, memTypeIndex)];
      if driver.allocatedMemory.None? {
        return Failure(MemoryAllocationFailed), calls;
      }
      vertexBufferMemory := driver.allocatedMemory.value;

      calls := calls + [BindBufferMemory(vertexBuffer, vertexBufferMemory, 0)];
      calls := calls + [MapMemory(vertexBufferMemory, 0, size), CopyVertices(size), UnmapMemory(vertexBufferMemory)];
      outcome := Success(());
    }

    /** The releases of DestroyVertexBuffer: the buffer first, then the memory bound to it. */
    method DestroyVertexBuffer() returns (calls: seq<Call>)
      ensures calls == [Destroy(VertexBuffer), Destroy(VertexBufferMemory)]
      ensures DependsOn(calls[0].obj, calls[1].obj)
    {
      calls := [Destroy(VertexBuffer), Destroy(VertexBufferMemory)];
    }
  }

  /** Mesh(physicalDevice, device, vertices): the stored count is the number of vertices,
      whatever the buffer creation does. */
  method NewMesh(vertices: seq<Vertex>, driver: BufferDriver)
    returns (mesh: Mesh, outcome: Result<(), MeshError>, calls: seq<BufferCall>)
    requires |driver.memoryTypes| <= VK_MAX_MEMORY_TYPES
    ensures fresh(mesh)
    ensures mesh.GetVertexCount() == |vertices|
    ensures outcome.Success? <==> BufferCreationError(driver).None?
    ensures outcome.Failure? ==> BufferCreationError(driver) == Some(outcome.error)
    ensures outcome.Success? ==>
      && driver.createdBuffer == Some(mesh.GetVertexBuffer())
      && driver.allocatedMemory == Some(mesh.vertexBufferMemory)
      && MapMemory(mesh.vertexBufferMemory, 0, VertexBufferSize(|vertices|)) in calls
  {
    mesh := new Mesh(vertices);
    outcome, calls := mesh.CreateVertexBuffer(vertices, driver);
  }
}
