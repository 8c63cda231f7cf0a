/** `Gpu<T>`: an asset shared with the rest of the engine, paired with the
    device buffers and the bind group realised from it. */
module GpuBinding {
  import opened Base
  import opened Layouts

  /** `Arc<Mutex<T>>`: one CPU value that every holder of the handle sees. */
  class Shared<T> {
    var value: T

    constructor (v: T)
      ensures value == v
    {
      value := v;
    }
  }

  /** What `Asset::load` returns: the initial contents of each buffer it
      created, and the bind group over them. */
  datatype Loaded = Loaded(buffers: seq<seq<byte>>, bindGroup: BindGroup)

  /** wgpu's `COPY_BUFFER_ALIGNMENT`: a queue write must be a multiple of
      four bytes long. */
  const COPY_BUFFER_ALIGNMENT: nat := 4

  /** Result of `queue.write_buffer(buffer, 0, data)` on a buffer that held
      `contents`. */
  function WriteAtStart(contents: seq<byte>, data: seq<byte>): (r: seq<byte>)
    requires |data| <= |contents|
    ensures |r| == |contents|
    ensures r[..|data|] == data && r[|data|..] == contents[|data|..]
  {
    data + contents[|data|..]
  }

  class Gpu<T> {
    const asset: Shared<T>
    /** The buffer list is fixed at creation; each element is the current
        contents of one device buffer. */
    const buffers: array<seq<byte>>
    const bindGroup: BindGroup
    const queue: Handle

    /** `Gpu::new`: runs the asset's `load` once, on the value behind the
        shared handle, and keeps exactly what it returned. `load` stands for
        the asset type's own `Asset::load`. */
    constructor New(asset: Shared<T>, device: Handle, layout: Layout, queue: Handle,
                    load: (T, Handle, Layout) -> Loaded)
      ensures this.asset == asset && this.queue == queue
      ensures fresh(buffers)
      ensures buffers[..] == load(asset.value, device, layout).buffers
      ensures bindGroup == load(asset.value, device, layout).bindGroup
    {
      var loaded := load(asset.value, device, layout);
      this.asset := asset;
      this.queue := queue;
      this.bindGroup := loaded.bindGroup;
      this.buffers := new seq<byte>[|loaded.buffers|](i requires 0 <= i < |loaded.buffers| => loaded.buffers[i]);
    }

    /** `Gpu::create`: wraps buffers and a bind group made elsewhere. */
    constructor Create(asset: Shared<T>, queue: Handle, buffers: seq<seq<byte>>, bindGroup: BindGroup)
      ensures this.asset == asset && this.queue == queue
      ensures fresh(this.buffers) && this.buffers[..] == buffers
      ensures this.bindGroup == bindGroup
    {
      this.asset := asset;
      this.queue := queue;
      this.bindGroup := bindGroup;
      this.buffers := new seq<byte>[|buffers|](i requires 0 <= i < |buffers| => buffers[i]);
    }

    /** `update_buffer`: overwrites the start of one buffer through the queue.
        Indexing past the list panics; wgpu rejects a write that overruns
        the buffer or is not a multiple of four bytes. The asset, the bind
        group and the buffer list are constants of the object. */
    method UpdateBuffer(index: nat, data: seq<byte>)
      requires index < buffers.Length
      requires |data| <= |buffers[index]| && |data| % COPY_BUFFER_ALIGNMENT == 0
      modifies buffers
      ensures buffers[index] == WriteAtStart(old(buffers[index]), data)
      ensures forall j :: 0 <= j < buffers.Length && j != index ==> buffers[j] == old(buffers[j])
    {
      buffers[index] := WriteAtStart(buffers[index], data);
    }
  }
}
