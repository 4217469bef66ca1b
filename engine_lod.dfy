/** GLC_EngineLod, the index data of one level of detail. Its own buffer work is
    not part of the model: its two calls record themselves in the context, and
    their frames allow the buffer work they do in the program. */
module EngineLods {
  import opened Gl

  class EngineLod {
    var alive: bool
    var indices: seq<nat>

    constructor ()
      ensures alive && indices == []
    {
      alive := true;
      indices := [];
    }

    /** The copy constructor. */
    constructor Copy(source: EngineLod)
      ensures alive && indices == source.indices
    {
      alive := true;
      indices := source.indices;
    }

    /** createIBOs(). The LOD may allocate and bind index buffers of its own;
        which ones is not modelled, only that it releases no buffer name. */
    method CreateIBOs(gl: Context)
      requires gl.Valid()
      modifies gl`lodCalls, gl`nextHandle, gl`live, gl`elementArrayBuffer
      ensures gl.Valid() && old(gl.live) <= gl.live
      ensures gl.lodCalls == old(gl.lodCalls) + [CreateIbos(this)]
    {
      gl.lodCalls := gl.lodCalls + [CreateIbos(this)];
    }

    /** useIBO(kind). The LOD may bind one of its index buffers; which one is
        not modelled. */
    method UseIBO(gl: Context, kind: IboType)
      modifies gl`lodCalls, gl`elementArrayBuffer
      ensures gl.lodCalls == old(gl.lodCalls) + [UseIbo(this, kind)]
    {
      gl.lodCalls := gl.lodCalls + [UseIbo(this, kind)];
    }

    /** `delete`. */
    method Delete()
      modifies this`alive
      ensures !alive
    {
      alive := false;
    }
  }
}
