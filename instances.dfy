/** GLC_Instance: a placed, selectable occurrence of a geometry that shares the
    geometry with its copies through a raw reference counter. */
module Instances {
  import opened Wrappers
  import opened Transforms
  import opened ColorId

  /** An OpenGL enumerant, as passed to glPolygonMode. */
  type GLenum = bv32

  const GL_FRONT_AND_BACK: GLenum := 0x0408
  const GL_FILL: GLenum := 0x1B02

  /** The geometry an instance points to (a GLC_VboGeom), reduced to what
      glc_instance.cpp uses of it: its local bounding box, the validity flag of
      that box, and whether it has been deleted. */
  class Geometry {
    var alive: bool
    var boxValid: bool
    var localBox: Box
    var mesh: seq<real>

    constructor (localBox: Box, boxValid: bool, mesh: seq<real>)
      ensures alive && this.localBox == localBox && this.boxValid == boxValid && this.mesh == mesh
    {
      this.alive := true;
      this.localBox := localBox;
      this.boxValid := boxValid;
      this.mesh := mesh;
    }

    /** GLC_VboGeom::clone: a new geometry with the same content. */
    method Clone() returns (g: Geometry)
      ensures fresh(g) && g.alive
      ensures g.localBox == localBox && g.boxValid == boxValid && g.mesh == mesh
    {
      g := new Geometry(localBox, boxValid, mesh);
    }

    /** `delete`. */
    method Delete()
      modifies this`alive
      ensures !alive
    {
      alive := false;
    }
  }

  /** The heap integer m_pNumberOfInstance points to. `holders` is the set of
      instances that currently own a share of it; Valid says the integer
      counts exactly those. */
  class Counter {
    var count: int
    var alive: bool
    ghost var holders: set<Instance>

    ghost predicate Valid()
      reads this, holders
    {
      && alive
      && count == |holders|
      && (forall h | h in holders :: h.counter == this)
    }

    /** `new int(1)`, owned by `first`. */
    constructor (ghost first: Instance)
      ensures count == 1 && alive && holders == {first}
    {
      count := 1;
      alive := true;
      holders := {first};
    }

    /** `delete`. */
    method Delete()
      modifies this`alive
      ensures !alive
    {
      alive := false;
    }
  }

  class Instance {
    var uid: bv32
    var colorId: seq<bv8>
    var geom: Geometry?
    var box: Option<Box>
    var counter: Counter?
    var matrix: Matrix
    var boxValid: bool
    var selected: bool
    var polyFace: GLenum
    var polyMode: GLenum
    var visible: bool

    /** The instance owns one share of a live counter. */
    ghost predicate Valid()
      reads this, counter, if counter == null then {} else counter.holders
    {
      counter != null && counter.Valid() && this in counter.holders && |colorId| == 4
    }

    /** Everything operator= copies from `source`: the identifier (with its
        colour), the geometry, a copy of the cached box, the placement, the
        flags and the polygon mode. */
    ghost predicate SharesStateOf(source: Instance)
      reads this, source
    {
      && uid == source.uid && colorId == ColorOf(uid)
      && geom == source.geom && box == source.box && matrix == source.matrix
      && boxValid == source.boxValid && selected == source.selected && visible == source.visible
      && polyFace == source.polyFace && polyMode == source.polyMode
    }

    /** This instance released its share of `c` (whose count was taken in the
        pre-state): the count went down by one, and the counter and the
        geometry `g` were deleted exactly when it reached zero. */
    twostate predicate ShareReleased(c: Counter, g: Geometry?)
      reads c, g
    {
      && c.count == old(c.count) - 1
      && c.holders == old(c.holders) - {this}
      && (if c.count == 0
          then !c.alive && (g != null ==> !g.alive)
          else c.alive == old(c.alive) && (g != null ==> g.alive == old(g.alive)))
    }

    /** The default constructor: no geometry, a new counter at 1. */
    constructor (objectUid: bv32)
      ensures Valid() && fresh(counter) && counter.count == 1 && counter.holders == {this}
      ensures geom == null && box == None && matrix == Identity
      ensures !boxValid && !selected && visible
      ensures polyFace == GL_FRONT_AND_BACK && polyMode == GL_FILL
      ensures uid == objectUid && colorId == ColorOf(objectUid)
      ensures CacheCoherent()
    {
      uid := objectUid;
      colorId := [];
      geom := null;
      box := None;
      matrix := Identity;
      boxValid := false;
      selected := false;
      polyFace := GL_FRONT_AND_BACK;
      polyMode := GL_FILL;
      visible := true;
      new;
      counter := new Counter(this);
      EncodeIdInRGBA();
    }

    /** The constructor that takes ownership of a geometry, with a new counter at 1. */
    constructor WithGeometry(g: Geometry, objectUid: bv32)
      ensures Valid() && fresh(counter) && counter.count == 1 && counter.holders == {this}
      ensures geom == g && box == None && matrix == Identity
      ensures !boxValid && !selected && visible
      ensures polyFace == GL_FRONT_AND_BACK && polyMode == GL_FILL
      ensures uid == objectUid && colorId == ColorOf(objectUid)
      ensures CacheCoherent()
    {
      uid := objectUid;
      colorId := [];
      geom := g;
      box := None;
      matrix := Identity;
      boxValid := false;
      selected := false;
      polyFace := GL_FRONT_AND_BACK;
      polyMode := GL_FILL;
      visible := true;
      new;
      counter := new Counter(this);
      EncodeIdInRGBA();
    }

    /** The copy constructor: shares the source's geometry and counter and takes
        one more share; the cached box is deep-copied. `objectUid` is the
        identifier the GLC_Object base part of the copy receives. */
    constructor Copy(source: Instance, objectUid: bv32)
      requires source.Valid()
      modifies source.counter
      ensures Valid() && counter == source.counter
      ensures counter.count == old(source.counter.count) + 1
      ensures counter.holders == old(source.counter.holders) + {this}
      ensures geom == source.geom && box == source.box && matrix == source.matrix
      ensures boxValid == source.boxValid && selected == source.selected && visible == source.visible
      ensures polyFace == source.polyFace && polyMode == source.polyMode
      ensures uid == objectUid && colorId == ColorOf(objectUid)
      ensures source.CacheCoherent() ==> CacheCoherent()
    {
      uid := objectUid;
      colorId := [];
      geom := source.geom;
      box := source.box;
      counter := source.counter;
      matrix := source.matrix;
      boxValid := source.boxValid;
      selected := source.selected;
      polyFace := source.polyFace;
      polyMode := source.polyMode;
      visible := source.visible;
      new;
      EncodeIdInRGBA();
      counter.count := counter.count + 1;
      counter.holders := counter.holders + {this};
    }

    /** operator=: unless the source is this instance, release this instance's
        share, then copy the source's state and take a share of its counter. */
    method Assign(source: Instance)
      requires Valid() && source.Valid()
      modifies this, counter, {geom}`alive, source.counter
      ensures Valid()
      ensures source == this ==> unchanged(this) && unchanged(old(counter))
      ensures old(geom) != null && (source == this || old(counter) == old(source.counter)) ==>
        old(geom).alive == old(geom.alive)
      ensures old(CacheCoherent()) && old(source.CacheCoherent()) ==> CacheCoherent()
      ensures source != this ==> unchanged(source) && counter == source.counter && SharesStateOf(source)
      ensures source != this && old(counter) == old(source.counter) ==>
        counter.count == old(counter.count) && counter.holders == old(counter.holders) && counter.alive
      ensures source != this && old(counter) != old(source.counter) ==>
        && ShareReleased(old(counter), old(geom))
        && counter.count == old(source.counter.count) + 1
        && counter.holders == old(source.counter.holders) + {this}
    {
      if this != source {
        if counter == source.counter {
          AssignSharing(source);
        } else {
          AssignOther(source);
        }
      }
    }

    /** operator= between two holders of the same counter: the count ends where it started. */
    method AssignSharing(source: Instance)
      requires Valid() && source.Valid() && this != source && counter == source.counter
      modifies this`uid, this`colorId, this`geom, this`box, this`matrix, this`boxValid
      modifies this`selected, this`visible, this`polyFace, this`polyMode, this`counter
      modifies counter, {geom}`alive
      ensures Valid() && counter == source.counter && SharesStateOf(source)
      ensures counter.count == old(counter.count) && counter.holders == old(counter.holders) && counter.alive
      ensures old(geom) != null ==> old(geom).alive == old(geom.alive)
    {
      // Both shares are counted, so clearing one cannot bring the count to zero.
      assert {this, source} <= counter.holders;
      assert counter.count >= 2 by { CardinalityOfSubset({this, source}, counter.holders); }
      Clear();
      CopyStateFrom(source);
      JoinCounter(source.counter);
    }

    /** operator= from a holder of another counter: this instance's share of its
        own counter is released and one of the source's is taken. */
    method AssignOther(source: Instance)
      requires Valid() && source.Valid() && counter != source.counter
      modifies this`uid, this`colorId, this`geom, this`box, this`matrix, this`boxValid
      modifies this`selected, this`visible, this`polyFace, this`polyMode, this`counter
      modifies counter, {geom}`alive, source.counter
      ensures Valid() && counter == source.counter && SharesStateOf(source)
      ensures ShareReleased(old(counter), old(geom))
      ensures counter.count == old(source.counter.count) + 1
      ensures counter.holders == old(source.counter.holders) + {this}
    {
      assert this !in source.counter.holders;
      Clear();
      CopyStateFrom(source);
      JoinCounter(source.counter);
    }

    /** The copying half of operator=: the identifier (re-encoded into the
        colour), the geometry pointer, a copy of the box and the remaining state. */
    method CopyStateFrom(source: Instance)
      modifies this`uid, this`colorId, this`geom, this`box, this`matrix, this`boxValid
      modifies this`selected, this`visible, this`polyFace, this`polyMode
      ensures SharesStateOf(source)
    {
      uid, geom, box, matrix := source.uid, source.geom, source.box, source.matrix;
      boxValid, selected, visible := source.boxValid, source.selected, source.visible;
      polyFace, polyMode := source.polyFace, source.polyMode;
      EncodeIdInRGBA();
    }

    /** Take one more share of `c`, for an instance that holds none yet: point
        at the counter and increment it. */
    method JoinCounter(c: Counter)
      requires c.Valid() && this !in c.holders && |colorId| == 4
      modifies this`counter, c`count, c`holders
      ensures Valid() && counter == c
      ensures c.count == old(c.count) + 1 && c.holders == old(c.holders) + {this}
    {
      counter := c;
      c.count := c.count + 1;
      c.holders := c.holders + {this};
    }

    /** The destructor. */
    method Destroy()
      requires Valid()
      modifies this, counter, {geom}`alive
      ensures ShareReleased(old(counter), old(geom))
    {
      Clear();
    }

    /** getBoundingBoxValidity: the cached box may be used only while the
        instance's flag and the geometry's own flag both hold. */
    function BoundingBoxValidity(): (valid: bool)
      reads this`geom, this`box, this`boxValid, {geom}`boxValid
    {
      if geom != null && box.Some? then geom.boxValid && boxValid else false
    }

    /** What the validity flag promises: while the cached box is reported
        valid, it is the geometry's box under the current placement. */
    ghost predicate CacheCoherent()
      reads this`geom, this`box, this`boxValid, this`matrix, {geom}`boxValid, {geom}`localBox
    {
      BoundingBoxValidity() ==> box == Some(Transform(geom.localBox, matrix))
    }

    /** getBoundingBox: the cached box when it is valid; otherwise, with a
        geometry, the recomputed and cached box; otherwise an empty box. */
    method GetBoundingBox() returns (r: Box)
      modifies this`box, this`boxValid
      ensures old(BoundingBoxValidity()) ==> box == old(box) == Some(r) && boxValid
      ensures !old(BoundingBoxValidity()) && geom != null ==>
        box == Some(r) && r == Transform(geom.localBox, matrix) && boxValid
      ensures !old(BoundingBoxValidity()) && geom == null ==>
        r == EmptyBox && box == old(box) && boxValid == old(boxValid)
      ensures geom != null ==> box.Some? && boxValid && (BoundingBoxValidity() <==> geom.boxValid)
      ensures old(CacheCoherent()) ==> CacheCoherent()
      ensures old(CacheCoherent()) && geom != null ==> r == Transform(geom.localBox, matrix)
    {
      r := EmptyBox;
      if BoundingBoxValidity() {
        r := box.value;
      } else if geom != null {
        ComputeBoundingBox();
        boxValid := true;
        r := box.value;
      }
    }

    /** clone: a fully independent instance with a cloned geometry and a counter
        of its own; every other attribute but the identifier is copied.
        `cloneUid` is the identifier the default-constructed clone receives. */
    method Clone(cloneUid: bv32) returns (c: Instance)
      requires geom != null
      ensures fresh(c) && fresh(c.counter) && fresh(c.geom) && c.Valid()
      ensures c.counter.count == 1 && c.counter.holders == {c}
      ensures c.geom != null && c.geom.alive && c.geom != geom
      ensures c.geom.localBox == geom.localBox && c.geom.boxValid == geom.boxValid && c.geom.mesh == geom.mesh
      ensures c.box == box && c.matrix == matrix && c.boxValid == boxValid
      ensures c.selected == selected && c.visible == visible
      ensures c.polyFace == polyFace && c.polyMode == polyMode
      ensures c.uid == cloneUid && c.colorId == ColorOf(cloneUid)
      ensures CacheCoherent() ==> c.CacheCoherent()
    {
      c := new Instance(cloneUid);
      var g := geom.Clone();
      c.geom := g;
      c.box := box;
      c.matrix := matrix;
      c.boxValid := boxValid;
      c.selected := selected;
      c.polyFace := polyFace;
      c.polyMode := polyMode;
      c.visible := visible;
    }

    /** instanciate, as written: copy-constructs an instance sharing this one's
        geometry and counter, gives the copy the fresh identifier `freshUid`,
        and then re-encodes the colour of THIS instance, not of the copy. So the
        copy keeps the colour of `baseUid`, the identifier its GLC_Object base
        part received from the copy. */
    method Instanciate(baseUid: bv32, freshUid: bv32) returns (copy: Instance)
      requires Valid()
      modifies this`colorId, counter
      ensures fresh(copy) && copy.Valid() && Valid()
      ensures copy.counter == counter && counter.count == old(counter.count) + 1
      ensures counter.holders == old(counter.holders) + {copy}
      ensures copy.geom == geom && copy.box == box && copy.matrix == matrix
      ensures copy.boxValid == boxValid && copy.selected == selected && copy.visible == visible
      ensures copy.polyFace == polyFace && copy.polyMode == polyMode
      ensures CacheCoherent() ==> copy.CacheCoherent()
      ensures copy.uid == freshUid && copy.colorId == ColorOf(baseUid)
      ensures colorId == ColorOf(uid)
    {
      copy := new Instance.Copy(this, baseUid);
      copy.uid := freshUid;
      EncodeIdInRGBA();
    }

    /** instanciate as evidently intended: the copy's colour is re-encoded from
        its new identifier, so a pick on the copy decodes to the copy. */
    method InstanciateRecoded(baseUid: bv32, freshUid: bv32) returns (copy: Instance)
      requires Valid()
      modifies counter
      ensures fresh(copy) && copy.Valid() && Valid()
      ensures copy.counter == counter && counter.count == old(counter.count) + 1
      ensures counter.holders == old(counter.holders) + {copy}
      ensures copy.geom == geom && copy.box == box && copy.matrix == matrix
      ensures copy.boxValid == boxValid && copy.selected == selected && copy.visible == visible
      ensures copy.polyFace == polyFace && copy.polyMode == polyMode
      ensures CacheCoherent() ==> copy.CacheCoherent()
      ensures copy.uid == freshUid && copy.colorId == ColorOf(freshUid)
      ensures DecodeRgbId(copy.colorId) == freshUid & 0xFF_FFFF
    {
      copy := new Instance.Copy(this, baseUid);
      copy.uid := freshUid;
      copy.EncodeIdInRGBA();
      DecodeEncode(freshUid);
    }

    /** setGeometry, as written: refused when the instance has no geometry;
        otherwise the pointer is replaced, and both the reference count and the
        box validity flag are left as they are. So a box cached for the old
        geometry can still be reported valid (see SetGeometryKeepsStaleBox). */
    method SetGeometry(g: Geometry?) returns (ok: bool)
      modifies this`geom
      ensures ok <==> old(geom) != null
      ensures geom == if ok then g else old(geom)
    {
      if geom == null {
        ok := false;
      } else {
        geom := g;
        ok := true;
      }
    }

    /** setGeometry as evidently intended: replacing the geometry also
        invalidates the cached box, so the cache stays coherent. */
    method SetGeometryInvalidating(g: Geometry?) returns (ok: bool)
      modifies this`geom, this`boxValid
      ensures ok <==> old(geom) != null
      ensures geom == if ok then g else old(geom)
      ensures ok ==> !boxValid
      ensures !ok ==> unchanged(this)
      ensures old(CacheCoherent()) ==> CacheCoherent()
    {
      if geom == null {
        ok := false;
      } else {
        geom := g;
        boxValid := false;
        ok := true;
      }
    }

    /** translate: multiply by a translation matrix. */
    method Translate(tx: real, ty: real, tz: real)
      modifies this`matrix, this`boxValid
      ensures matrix == Mult(Translation(tx, ty, tz), old(matrix))
      ensures !boxValid && !BoundingBoxValidity() && CacheCoherent()
    {
      MultMatrix(Translation(tx, ty, tz));
    }

    /** multMatrix: compose `m` on the left of the placement. */
    method MultMatrix(m: Matrix)
      modifies this`matrix, this`boxValid
      ensures matrix == Mult(m, old(matrix))
      ensures !boxValid && !BoundingBoxValidity() && CacheCoherent()
    {
      matrix := Mult(m, matrix);
      boxValid := false;
    }

    /** setMatrix: replace the placement. */
    method SetMatrix(m: Matrix)
      modifies this`matrix, this`boxValid
      ensures matrix == m
      ensures !boxValid && !BoundingBoxValidity() && CacheCoherent()
    {
      matrix := m;
      boxValid := false;
    }

    /** resetMatrix: back to the identity placement. */
    method ResetMatrix()
      modifies this`matrix, this`boxValid
      ensures matrix == Identity
      ensures !boxValid && !BoundingBoxValidity() && CacheCoherent()
    {
      matrix := Identity;
      boxValid := false;
    }

    /** setPolygonMode: store the face and mode, writing only when one differs. */
    method SetPolygonMode(face: GLenum, mode: GLenum)
      modifies this`polyFace, this`polyMode
      ensures polyFace == face && polyMode == mode
      ensures old(polyFace) == face && old(polyMode) == mode ==> unchanged(this)
      ensures old(CacheCoherent()) ==> CacheCoherent()
    {
      if polyFace != face || polyMode != mode {
        polyFace := face;
        polyMode := mode;
      }
    }

    /** computeBoundingBox: replace the cached box by the geometry's box under
        the placement. */
    method ComputeBoundingBox()
      requires geom != null
      modifies this`box
      ensures box == Some(Transform(geom.localBox, matrix))
      ensures CacheCoherent()
    {
      box := Some(Transform(geom.localBox, matrix));
    }

    /** clear: release this instance's share; the last one out deletes the
        geometry and the counter. The cached box is always released. */
    method Clear()
      requires Valid()
      modifies this`counter, this`geom, this`box, this`boxValid, counter, {geom}`alive
      ensures ShareReleased(old(counter), old(geom))
      ensures old(counter).count == 0 ==> geom == null && counter == null
      ensures old(counter).count != 0 ==> geom == old(geom) && counter == old(counter) && counter.Valid()
      ensures box == None && !boxValid && CacheCoherent()
    {
      counter.count := counter.count - 1;
      counter.holders := counter.holders - {this};
      if counter.count == 0 {
        if geom != null {
          geom.Delete();
          geom := null;
        }
        counter.Delete();
        counter := null;
      }
      box := None;
      boxValid := false;
    }

    /** encodeIdInRGBA: store the colour of the identifier. */
    method EncodeIdInRGBA()
      modifies this`colorId
      ensures colorId == ColorOf(uid)
    {
      colorId := ColorOf(uid);
    }
  }

  /** Shared ownership end to end: an instance owning a geometry and `n` copies
      of it share one counter; destroying all but the last leaves the
      geometry alive, destroying the last deletes it. */
  method LastOneOutDeletes(n: nat) returns (aliveBeforeLast: bool, aliveAfterLast: bool)
    ensures aliveBeforeLast && !aliveAfterLast
  {
    var g := new Geometry(EmptyBox, true, []);
    var first := new Instance.WithGeometry(g, 0);
    var c := first.counter;
    var all := [first];
    var i := 0;
    while i < n
      invariant |all| == i + 1 && all[0] == first
      invariant fresh(c) && c.Valid() && c.count == |all|
      invariant forall k | 0 <= k < |all| :: fresh(all[k]) && all[k].geom == g && all[k].Valid() && all[k].counter == c
      invariant forall a, b | 0 <= a < b < |all| :: all[a] != all[b]
      invariant g.alive
    {
      var copy := new Instance.Copy(first, 0);
      all := all + [copy];
      i := i + 1;
    }
    aliveBeforeLast := true;
    var j := 0;
    while j < |all| - 1
      invariant 0 <= j <= |all| - 1
      invariant c.Valid() && c.count == |all| - j
      invariant forall k | j <= k < |all| :: all[k].geom == g && all[k].counter == c && all[k] in c.holders && |all[k].colorId| == 4
      invariant aliveBeforeLast && g.alive
    {
      all[j].Destroy();
      aliveBeforeLast := aliveBeforeLast && g.alive;
      j := j + 1;
    }
    all[|all| - 1].Destroy();
    aliveAfterLast := g.alive;
  }

  /** The discrepancy in instanciate as written: the copy gets a new identifier
      but keeps the colour of the identifier it was copied with, so a colour pick
      on the copy decodes to the identifier its base copy received (here taken
      to be the source's own), not to its fresh one. */
  method InstanciatePickColorClash() returns (sourceUid: bv32, copyUid: bv32, copyDecoded: bv32)
    ensures copyDecoded == sourceUid & 0xFF_FFFF
    ensures copyDecoded != copyUid & 0xFF_FFFF
  {
    var g := new Geometry(EmptyBox, true, []);
    var source := new Instance.WithGeometry(g, 1);
    var copy := source.Instanciate(source.uid, 2);
    sourceUid, copyUid := source.uid, copy.uid;
    copyDecoded := DecodeRgbId(copy.colorId);
    DecodeEncode(sourceUid);
  }

  /** With the copy's colour re-encoded, the source and the copy answer colour
      picks with their own identifiers. */
  method InstanciateRecodedPicksApart(sourceUid: bv32, freshUid: bv32) returns (sourceDecoded: bv32, copyDecoded: bv32)
    ensures sourceDecoded == sourceUid & 0xFF_FFFF && copyDecoded == freshUid & 0xFF_FFFF
  {
    var g := new Geometry(EmptyBox, true, []);
    var source := new Instance.WithGeometry(g, sourceUid);
    var copy := source.InstanciateRecoded(source.uid, freshUid);
    sourceDecoded, copyDecoded := DecodeRgbId(source.colorId), DecodeRgbId(copy.colorId);
    DecodeEncode(sourceUid);
  }

  /** The discrepancy in setGeometry as written: after a box was cached for one
      geometry, switching to another geometry whose own box is valid leaves the
      cache reported valid although it is not the new geometry's box. */
  method SetGeometryKeepsStaleBox() returns (reportedValid: bool, stale: bool)
    ensures reportedValid && stale
  {
    var g1 := new Geometry(Extent([0.0], [1.0]), true, []);
    var g2 := new Geometry(Extent([2.0], [3.0]), true, []);
    var inst := new Instance.WithGeometry(g1, 1);
    var cached := inst.GetBoundingBox();
    var ok := inst.SetGeometry(g2);
    reportedValid := inst.BoundingBoxValidity();
    stale := inst.box != Some(Transform(g2.localBox, inst.matrix));
  }

  /** With the corrected setGeometry, the next getBoundingBox returns the new
      geometry's box under the placement. */
  method SetGeometryInvalidatingRefreshes() returns (r: Box, expected: Box)
    ensures r == expected
  {
    var g1 := new Geometry(Extent([0.0], [1.0]), true, []);
    var g2 := new Geometry(Extent([2.0], [3.0]), true, []);
    var inst := new Instance.WithGeometry(g1, 1);
    var cached := inst.GetBoundingBox();
    var ok := inst.SetGeometryInvalidating(g2);
    r := inst.GetBoundingBox();
    expected := Transform(g2.localBox, inst.matrix);
  }

  lemma CardinalityOfSubset<T>(a: set<T>, b: set<T>)
    requires a <= b
    ensures |a| <= |b|
  {
    assert b == a + (b - a);
  }
}
