/** The part of the OpenGL state the geometry engine talks to: buffer names,
    the two buffer binding points, and a log of the calls the engine makes on
    its levels of detail. */
module Gl {
  /** A buffer object name (GLuint); 0 names no buffer. */
  type Handle = nat

  /** A GLC_EngineLod::IboType value. */
  type IboType = nat

  /** A call the engine makes on one of its level-of-detail objects. */
  datatype LodCall = CreateIbos(lod: object) | UseIbo(lod: object, kind: IboType)

  class Context {
    var nextHandle: Handle
    var live: set<Handle>
    var arrayBuffer: Handle
    var elementArrayBuffer: Handle
    var lodCalls: seq<LodCall>
    /** The glBindBuffer(GL_ELEMENT_ARRAY_BUFFER, h) calls the geometry engine
        issues itself, in order; a LOD's own binding of its index buffers is
        not logged. */
    ghost var elementBinds: seq<Handle>

    /** Every live name is non-zero and was handed out before. */
    ghost predicate Valid()
      reads this
    {
      0 < nextHandle && forall h | h in live :: 0 < h < nextHandle
    }

    constructor ()
      ensures Valid() && live == {} && arrayBuffer == 0 && elementArrayBuffer == 0 && lodCalls == []
      ensures elementBinds == []
    {
      nextHandle := 1;
      live := {};
      arrayBuffer := 0;
      elementArrayBuffer := 0;
      lodCalls := [];
      elementBinds := [];
    }

    /** glGenBuffers(1, &h): a non-zero name that is not in use. */
    method GenBuffer() returns (h: Handle)
      requires Valid()
      modifies this`nextHandle, this`live
      ensures Valid() && h != 0 && h !in old(live) && live == old(live) + {h}
    {
      h := nextHandle;
      nextHandle := nextHandle + 1;
      live := live + {h};
    }

    /** glDeleteBuffers(1, &h): the name is released, and a binding point that
        held it reverts to 0. */
    method DeleteBuffer(h: Handle)
      requires Valid()
      modifies this`live, this`arrayBuffer, this`elementArrayBuffer
      ensures Valid() && live == old(live) - {h}
      ensures arrayBuffer == if old(arrayBuffer) == h then 0 else old(arrayBuffer)
      ensures elementArrayBuffer == if old(elementArrayBuffer) == h then 0 else old(elementArrayBuffer)
    {
      live := live - {h};
      if arrayBuffer == h {
        arrayBuffer := 0;
      }
      if elementArrayBuffer == h {
        elementArrayBuffer := 0;
      }
    }

    /** glBindBuffer(GL_ARRAY_BUFFER, h). */
    method BindArrayBuffer(h: Handle)
      modifies this`arrayBuffer
      ensures arrayBuffer == h
    {
      arrayBuffer := h;
    }

    /** glBindBuffer(GL_ELEMENT_ARRAY_BUFFER, h). */
    method BindElementArrayBuffer(h: Handle)
      modifies this`elementArrayBuffer, this`elementBinds
      ensures elementArrayBuffer == h && elementBinds == old(elementBinds) + [h]
    {
      elementArrayBuffer := h;
      elementBinds := elementBinds + [h];
    }

    /** glMapBuffer(GL_ARRAY_BUFFER, GL_READ_ONLY), a copy of `n` floats, then
        glUnmapBuffer. Only the length of what is read is modelled; the values
        live in GPU memory. */
    method ReadArrayBuffer(n: nat) returns (data: seq<real>)
      ensures |data| == n
    {
      data := seq(n, _ => 0.0);
    }
  }
}
