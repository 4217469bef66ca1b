/** GLC_ExtendedGeomEngine: vertex, normal and texel arrays with their buffer
    objects, and the list of levels of detail that own the index buffers. */
module GeomEngines {
  import opened Gl
  import opened EngineLods

  datatype VboType = Vertex | Normal | Texel

  /** The calls createVBOs makes: createIBOs once on each LOD, in list order. */
  function CreateCalls(lods: seq<EngineLod>): (calls: seq<LodCall>)
  {
    seq(|lods|, i requires 0 <= i < |lods| => CreateIbos(lods[i]))
  }

  /** The calls useIBO(true, kind) makes: useIBO(kind) once on each LOD, in list order. */
  function UseCalls(lods: seq<EngineLod>, kind: IboType): (calls: seq<LodCall>)
  {
    seq(|lods|, i requires 0 <= i < |lods| => UseIbo(lods[i], kind))
  }

  ghost predicate Distinct(lods: seq<EngineLod>)
  {
    forall a, b | 0 <= a < b < |lods| :: lods[a] != lods[b]
  }

  /** In the calls createVBOs and useIBO make, each LOD of a list without
      repetitions is called exactly once, and nothing else is called. */
  lemma {:induction false} EachLodCalledOnce(lods: seq<EngineLod>, lod: EngineLod, kind: IboType)
    requires Distinct(lods)
    ensures multiset(CreateCalls(lods))[CreateIbos(lod)] == if lod in lods then 1 else 0
    ensures multiset(UseCalls(lods, kind))[UseIbo(lod, kind)] == if lod in lods then 1 else 0
  {
    if lods != [] {
      var n := |lods| - 1;
      var prefix, last := lods[..n], lods[n];
      assert lods == prefix + [last];
      assert Distinct(prefix);
      assert CreateCalls(lods) == CreateCalls(prefix) + [CreateIbos(last)];
      assert UseCalls(lods, kind) == UseCalls(prefix, kind) + [UseIbo(last, kind)];
      EachLodCalledOnce(prefix, lod, kind);
      assert last !in prefix;
      assert lod in lods <==> lod in prefix || lod == last;
    }
  }

  class ExtendedGeomEngine {
    /** m_VboId, the vertex buffer of the GLC_GeomEngine base class. */
    var vboId: Handle
    var positions: seq<real>
    var normals: seq<real>
    var texels: seq<real>
    var normalVboId: Handle
    var texelVboId: Handle
    var lods: seq<EngineLod>

    /** There is always a LOD, and no LOD is listed twice. */
    ghost predicate Valid()
      reads this
    {
      |lods| >= 1 && Distinct(lods)
    }

    /** The buffer handle useVBO binds for `t`. */
    function HandleOf(t: VboType): (h: Handle)
      reads this
    {
      match t
      case Vertex => vboId
      case Normal => normalVboId
      case Texel => texelVboId
    }

    /** The default constructor: empty arrays, no buffers, one default LOD. */
    constructor ()
      ensures Valid() && |lods| == 1 && fresh(lods[0]) && lods[0].alive
      ensures positions == [] && normals == [] && texels == []
      ensures vboId == 0 && normalVboId == 0 && texelVboId == 0
    {
      vboId := 0;
      positions, normals, texels := [], [], [];
      normalVboId, texelVboId := 0, 0;
      lods := [];
      new;
      var lod := new EngineLod();
      lods := lods + [lod];
    }

    /** The copy constructor: the arrays are copied, the buffers are not, and
        each LOD is copied into a new object. */
    constructor Copy(engine: ExtendedGeomEngine)
      requires engine.Valid()
      ensures Valid() && |lods| == |engine.lods|
      ensures forall i | 0 <= i < |lods| ::
        fresh(lods[i]) && lods[i].alive && lods[i].indices == engine.lods[i].indices
      ensures positions == engine.positions && normals == engine.normals && texels == engine.texels
      ensures vboId == 0 && normalVboId == 0 && texelVboId == 0
    {
      vboId := 0;
      positions, normals, texels := engine.positions, engine.normals, engine.texels;
      normalVboId, texelVboId := 0, 0;
      lods := [];
      new;
      var size := |engine.lods|;
      for i := 0 to size
        invariant |lods| == i
        invariant forall k | 0 <= k < i ::
          fresh(lods[k]) && lods[k].alive && lods[k].indices == engine.lods[k].indices
        invariant Distinct(lods)
        invariant positions == engine.positions && normals == engine.normals && texels == engine.texels
        invariant vboId == 0 && normalVboId == 0 && texelVboId == 0
      {
        var lod := new EngineLod.Copy(engine.lods[i]);
        lods := lods + [lod];
      }
    }

    /** The destructor, as written: the texel buffer is deleted if there is one,
        and every LOD is deleted. The vertex buffer belongs to the base class.
        The normal buffer is this class's own, created by createVBOs, and is
        never deleted (see NormalBufferOutlivesEngine). */
    method Destroy(gl: Context)
      requires gl.Valid()
      modifies gl`live, gl`arrayBuffer, gl`elementArrayBuffer, lods
      ensures gl.Valid()
      ensures texelVboId != 0 ==> gl.live == old(gl.live) - {texelVboId}
      ensures texelVboId == 0 ==> gl.live == old(gl.live)
      ensures gl.arrayBuffer == if texelVboId != 0 && old(gl.arrayBuffer) == texelVboId then 0 else old(gl.arrayBuffer)
      ensures gl.elementArrayBuffer ==
        if texelVboId != 0 && old(gl.elementArrayBuffer) == texelVboId then 0 else old(gl.elementArrayBuffer)
      ensures forall i | 0 <= i < |lods| :: !lods[i].alive
    {
      if texelVboId != 0 {
        gl.DeleteBuffer(texelVboId);
      }
      ghost var bound, elementBound := gl.arrayBuffer, gl.elementArrayBuffer;
      var size := |lods|;
      for i := 0 to size
        invariant forall k | 0 <= k < i :: !lods[k].alive
        invariant gl.live == old(gl.live) - (if texelVboId != 0 then {texelVboId} else {})
        invariant gl.arrayBuffer == bound && gl.elementArrayBuffer == elementBound
        invariant gl.Valid()
      {
        lods[i].Delete();
      }
    }

    /** The destructor as evidently intended: the normal buffer this class
        created is deleted along with the texel buffer. */
    method DestroyReleasingNormals(gl: Context)
      requires gl.Valid()
      modifies gl`live, gl`arrayBuffer, gl`elementArrayBuffer, lods
      ensures gl.Valid()
      ensures gl.live == old(gl.live) - (if normalVboId != 0 then {normalVboId} else {})
                                      - (if texelVboId != 0 then {texelVboId} else {})
      ensures gl.arrayBuffer ==
        if (normalVboId != 0 && old(gl.arrayBuffer) == normalVboId) || (texelVboId != 0 && old(gl.arrayBuffer) == texelVboId)
        then 0 else old(gl.arrayBuffer)
      ensures gl.elementArrayBuffer ==
        if (normalVboId != 0 && old(gl.elementArrayBuffer) == normalVboId) || (texelVboId != 0 && old(gl.elementArrayBuffer) == texelVboId)
        then 0 else old(gl.elementArrayBuffer)
      ensures forall i | 0 <= i < |lods| :: !lods[i].alive
    {
      if normalVboId != 0 {
        gl.DeleteBuffer(normalVboId);
      }
      Destroy(gl);
    }

    /** positionVector: the array itself while there is no vertex buffer;
        otherwise as many floats, read back from the buffer, which leaves the
        array binding at 0. */
    method PositionVector(gl: Context) returns (v: seq<real>)
      modifies gl`arrayBuffer
      ensures |v| == |positions|
      ensures vboId == 0 ==> v == positions && gl.arrayBuffer == old(gl.arrayBuffer)
      ensures vboId != 0 ==> gl.arrayBuffer == 0
    {
      if vboId != 0 {
        gl.BindArrayBuffer(vboId);
        v := gl.ReadArrayBuffer(|positions|);
        gl.BindArrayBuffer(0);
      } else {
        v := positions;
      }
    }

    /** normalVector: the same as positionVector, for the normal buffer. */
    method NormalVector(gl: Context) returns (v: seq<real>)
      modifies gl`arrayBuffer
      ensures |v| == |normals|
      ensures normalVboId == 0 ==> v == normals && gl.arrayBuffer == old(gl.arrayBuffer)
      ensures normalVboId != 0 ==> gl.arrayBuffer == 0
    {
      if normalVboId != 0 {
        gl.BindArrayBuffer(normalVboId);
        v := gl.ReadArrayBuffer(|normals|);
        gl.BindArrayBuffer(0);
      } else {
        v := normals;
      }
    }

    /** createVBOs: a no-op once the vertex buffer exists; otherwise new vertex
        and normal buffers, a texel buffer when there are texels and none yet,
        and createIBOs on every LOD. */
    method CreateVBOs(gl: Context)
      requires Valid() && gl.Valid()
      modifies this`vboId, this`normalVboId, this`texelVboId
      modifies gl`nextHandle, gl`live, gl`lodCalls, gl`elementArrayBuffer
      ensures Valid() && gl.Valid()
      ensures old(vboId) != 0 ==>
        && vboId == old(vboId) && normalVboId == old(normalVboId) && texelVboId == old(texelVboId)
        && gl.live == old(gl.live) && gl.lodCalls == old(gl.lodCalls)
        && gl.nextHandle == old(gl.nextHandle) && gl.elementArrayBuffer == old(gl.elementArrayBuffer)
      ensures old(vboId) == 0 ==>
        && vboId != 0 && vboId !in old(gl.live)
        && normalVboId != 0 && normalVboId !in old(gl.live) && normalVboId != vboId
        && old(gl.live) + {vboId, normalVboId} <= gl.live
        && gl.lodCalls == old(gl.lodCalls) + CreateCalls(lods)
      ensures old(vboId) == 0 && old(texelVboId) == 0 && texels != [] ==>
        && texelVboId != 0 && texelVboId !in old(gl.live) && texelVboId != vboId && texelVboId != normalVboId
        && texelVboId in gl.live
      ensures old(vboId) == 0 && !(old(texelVboId) == 0 && texels != []) ==>
        texelVboId == old(texelVboId)
    {
      if vboId == 0 {
        vboId := gl.GenBuffer();
        normalVboId := gl.GenBuffer();
        if texelVboId == 0 && texels != [] {
          texelVboId := gl.GenBuffer();
        }
        ghost var calls0, live0 := gl.lodCalls, gl.live;
        var size := |lods|;
        for i := 0 to size
          invariant gl.Valid() && live0 <= gl.live
          invariant gl.lodCalls == calls0 + CreateCalls(lods[..i])
          modifies gl`lodCalls, gl`nextHandle, gl`live, gl`elementArrayBuffer
        {
          assert CreateCalls(lods[..i + 1]) == CreateCalls(lods[..i]) + [CreateIbos(lods[i])];
          lods[i].CreateIBOs(gl);
        }
        assert lods[..size] == lods;
      }
    }

    /** useVBO: bind the buffer of type `t`, or unbind. The only refusal is a
        texel buffer that was never created, and then nothing is bound. */
    method UseVBO(gl: Context, use: bool, t: VboType) returns (ok: bool)
      modifies gl`arrayBuffer
      ensures ok <==> !(use && t == Texel && texelVboId == 0)
      ensures !use ==> gl.arrayBuffer == 0
      ensures use && ok ==> gl.arrayBuffer == HandleOf(t)
      ensures !ok ==> gl.arrayBuffer == old(gl.arrayBuffer)
    {
      ok := true;
      if use {
        if t == Vertex {
          gl.BindArrayBuffer(vboId);
        } else if t == Normal {
          gl.BindArrayBuffer(normalVboId);
        } else if t == Texel && texelVboId != 0 {
          gl.BindArrayBuffer(texelVboId);
        } else {
          ok := false;
        }
      } else {
        gl.BindArrayBuffer(0);
      }
    }

    /** useIBO: with `use`, useIBO(kind) on every LOD in order, each LOD binding
        its own index buffer; without, a single unbind of the element array target. */
    method UseIBO(gl: Context, use: bool, kind: IboType)
      modifies gl`elementArrayBuffer, gl`lodCalls, gl`elementBinds
      ensures use ==> gl.lodCalls == old(gl.lodCalls) + UseCalls(lods, kind)
      ensures use ==> gl.elementBinds == old(gl.elementBinds)
      ensures !use ==> gl.lodCalls == old(gl.lodCalls) && gl.elementArrayBuffer == 0
      ensures !use ==> gl.elementBinds == old(gl.elementBinds) + [0]
    {
      if use {
        ghost var calls0 := gl.lodCalls;
        var size := |lods|;
        for i := 0 to size
          invariant gl.lodCalls == calls0 + UseCalls(lods[..i], kind)
          modifies gl`lodCalls, gl`elementArrayBuffer
        {
          assert UseCalls(lods[..i + 1], kind) == UseCalls(lods[..i], kind) + [UseIbo(lods[i], kind)];
          lods[i].UseIBO(gl, kind);
        }
        assert lods[..size] == lods;
      } else {
        gl.BindElementArrayBuffer(0);
      }
    }
  }

  /** Binding after creation: an engine with four vertices, with or without
      texels, binds its vertex buffer after createVBOs, and binds a texel
      buffer exactly when it has texels. */
  method BindAfterCreate(withTexels: bool) returns (vertexOk: bool, texelOk: bool)
    ensures vertexOk && texelOk == withTexels
  {
    var gl := new Context();
    var engine := new ExtendedGeomEngine();
    engine.positions := seq(12, _ => 0.0);
    if withTexels {
      engine.texels := seq(8, _ => 0.0);
    }
    engine.CreateVBOs(gl);
    vertexOk := engine.UseVBO(gl, true, Vertex);
    texelOk := engine.UseVBO(gl, true, Texel);
  }

  /** The discrepancy in the destructor as written: an engine whose buffers were
      created leaves its normal buffer name live once it is destroyed. */
  method NormalBufferOutlivesEngine() returns (leaked: bool)
    ensures leaked
  {
    var gl := new Context();
    var engine := new ExtendedGeomEngine();
    engine.CreateVBOs(gl);
    engine.Destroy(gl);
    leaked := engine.normalVboId in gl.live;
  }

  /** With the corrected destructor, neither the normal nor the texel buffer
      name of a destroyed engine stays live. */
  method DestroyReleasingNormalsFrees(withTexels: bool) returns (normalLive: bool, texelLive: bool)
    ensures !normalLive && !texelLive
  {
    var gl := new Context();
    var engine := new ExtendedGeomEngine();
    if withTexels {
      engine.texels := seq(8, _ => 0.0);
    }
    engine.CreateVBOs(gl);
    engine.DestroyReleasingNormals(gl);
    normalLive := engine.normalVboId in gl.live;
    texelLive := engine.texelVboId != 0 && engine.texelVboId in gl.live;
  }
}
