/**
 The model builder (scripts/build_industrial_models.Model): boxes, the shared
 buffer with its views and accessors, and the exported file.
 */
module GlbWriter {
  import opened Wrappers
  import opened GlbBytes

  datatype Kind = Vec3 | Scalar

  function Columns(kind: Kind): nat { if kind.Vec3? then 3 else 1 }

  datatype View = View(offset: nat, length: nat)

  datatype Accessor = Accessor(view: nat, component: int, count: nat, kind: Kind, lo: seq<int>, hi: seq<int>)

  type Vector = (real, real, real)

  datatype Part = Part(
    name: string, center: Vector, half: Vector, material: nat, angle: real,
    positions: seq<int>, normals: seq<int>, indices: seq<int>)

  datatype Mesh = Mesh(name: string, position: nat, normal: nat, indices: nat, material: nat)

  datatype Node = Node(name: string, mesh: nat, translation: Vector, scale: Vector, angle: real)

  datatype Doc = Doc(nodes: seq<Node>, meshes: seq<Mesh>, bufferLength: nat, views: seq<View>, accessors: seq<Accessor>)

  // ----- The buffer -----

  /** Views start at multiples of four, follow one another without overlap, and end inside the buffer. */
  ghost predicate Laid(views: seq<View>, length: nat) {
    && (forall i :: 0 <= i < |views| ==> views[i].offset % 4 == 0 && views[i].offset + views[i].length <= length)
    && (forall i, j :: 0 <= i < j < |views| ==> views[i].offset + views[i].length <= views[j].offset)
  }

  ghost predicate IsLow(values: seq<int>, c: nat, low: int) {
    && (exists k :: 0 <= k < |values| && k % 3 == c && values[k] == low)
    && (forall k :: 0 <= k < |values| && k % 3 == c ==> low <= values[k])
  }

  ghost predicate IsHigh(values: seq<int>, c: nat, high: int) {
    && (exists k :: 0 <= k < |values| && k % 3 == c && values[k] == high)
    && (forall k :: 0 <= k < |values| && k % 3 == c ==> values[k] <= high)
  }

  ghost predicate Bounded(values: seq<int>, a: Accessor) {
    a.kind.Vec3? ==> |a.lo| == |a.hi| == 3 && forall c :: 0 <= c < 3 ==> IsLow(values, c, a.lo[c]) && IsHigh(values, c, a.hi[c])
  }

  /** Accessor `i` describes `values`, and its view holds them. */
  ghost predicate Holds(data: seq<Byte>, views: seq<View>, a: Accessor, values: seq<int>, i: nat) {
    && a.view == i < |views| && IsComponent(a.component) && AllFit(a.component, values)
    && |values| == a.count * Columns(a.kind) && Bounded(values, a)
    && views[i].length == Width(a.component) * |values| && views[i].offset + views[i].length <= |data|
    && data[views[i].offset..views[i].offset + views[i].length] == Packed(a.component, values)
  }

  lemma HoldsOn(data: seq<Byte>, more: seq<Byte>, views: seq<View>, extra: seq<View>, a: Accessor, values: seq<int>, i: nat)
    requires Holds(data, views, a, values, i) && data <= more && views <= extra
    ensures Holds(more, extra, a, values, i)
  {
    hide AllFit, Packed, Bounded;
    assert data[views[i].offset..views[i].offset + views[i].length] == more[views[i].offset..views[i].offset + views[i].length];
  }

  class Buffer {
    var data: seq<Byte>
    var views: seq<View>
    var accessors: seq<Accessor>
    ghost var contents: seq<seq<int>>

    ghost predicate Valid()
      reads this
    {
      && |views| == |accessors| == |contents|
      && Laid(views, |data|)
      && forall i :: 0 <= i < |views| ==> Holds(data, views, accessors[i], contents[i], i)
    }

    constructor ()
      ensures Valid() && data == [] && contents == [] && accessors == []
    {
      data, views, accessors, contents := [], [], [], [];
    }

    /** Align, append the packed values, and describe them. */
    method Add(values: seq<int>, kind: Kind, component: int) returns (index: nat)
      requires Valid() && IsComponent(component) && AllFit(component, values)
      requires |values| % Columns(kind) == 0 && (kind.Vec3? ==> values != [])
      modifies this
      ensures Valid() && old(data) <= data && index == |old(accessors)|
      ensures contents == old(contents) + [values]
      ensures |accessors| == index + 1 && accessors[..index] == old(accessors)
      ensures accessors[index].kind == kind && accessors[index].component == component
    {
      hide Packed, AllFit;
      while |data| % 4 != 0
        invariant old(data) <= data && views == old(views) && accessors == old(accessors) && contents == old(contents)
        decreases (4 - |data| % 4) % 4
      {
        data := data + [0];
      }
      var start := |data|;
      var packed := Packed(component, values);
      LastPart(data, packed);
      data := data + packed;
      views := views + [View(start, |data| - start)];
      var lo, hi := [], [];
      if kind.Vec3? { lo, hi := Bounds(values); }
      var row := Accessor(|views| - 1, component, |values| / Columns(kind), kind, lo, hi);
      accessors := accessors + [row];
      contents := contents + [values];
      index := |accessors| - 1;
      assert data[start..|data|] == packed;
      forall i | 0 <= i < |views| ensures Holds(data, views, accessors[i], contents[i], i) {
        if i < index {
          HoldsOn(old(data), data, old(views), views, accessors[i], contents[i], i);
        }
      }
    }
  }

  lemma LastPart(a: seq<Byte>, b: seq<Byte>)
    ensures (a + b)[|a|..|a + b|] == b && a <= a + b
  {
  }

  method Bounds(values: seq<int>) returns (lo: seq<int>, hi: seq<int>)
    requires |values| % 3 == 0 && values != []
    ensures |lo| == |hi| == 3 && forall c :: 0 <= c < 3 ==> IsLow(values, c, lo[c]) && IsHigh(values, c, hi[c])
  {
    lo, hi := [], [];
    while |lo| < 3
      invariant |lo| == |hi| <= 3
      invariant forall c :: 0 <= c < |lo| ==> IsLow(values, c, lo[c]) && IsHigh(values, c, hi[c])
    {
      var low, high := Extremes(values, |lo|);
      lo, hi := lo + [low], hi + [high];
    }
  }

  /** The least and the greatest of every third value from `c` on. */
  method Extremes(values: seq<int>, c: nat) returns (low: int, high: int)
    requires |values| % 3 == 0 && values != [] && c < 3
    ensures IsLow(values, c, low) && IsHigh(values, c, high)
  {
    low, high := values[c], values[c];
    var k := c;
    while k < |values|
      invariant k % 3 == c && c <= k < |values| + 3
      invariant exists m :: 0 <= m < |values| && m % 3 == c && values[m] == low
      invariant exists m :: 0 <= m < |values| && m % 3 == c && values[m] == high
      invariant forall m :: 0 <= m < k && m < |values| && m % 3 == c ==> low <= values[m] <= high
    {
      if values[k] < low { low := values[k]; }
      if values[k] > high { high := values[k]; }
      k := k + 3;
    }
  }

  // ----- Boxes -----

  datatype V3 = V3(x: int, y: int, z: int)

  datatype Face = Face(normal: V3, a: V3, b: V3, c: V3, d: V3)

  function BoxFace(f: nat): Face
    requires f < 6
  {
    if f == 0 then Face(V3(1, 0, 0), V3(1, -1, -1), V3(1, 1, -1), V3(1, 1, 1), V3(1, -1, 1))
    else if f == 1 then Face(V3(-1, 0, 0), V3(-1, -1, 1), V3(-1, 1, 1), V3(-1, 1, -1), V3(-1, -1, -1))
    else if f == 2 then Face(V3(0, 1, 0), V3(-1, 1, -1), V3(-1, 1, 1), V3(1, 1, 1), V3(1, 1, -1))
    else if f == 3 then Face(V3(0, -1, 0), V3(-1, -1, 1), V3(-1, -1, -1), V3(1, -1, -1), V3(1, -1, 1))
    else if f == 4 then Face(V3(0, 0, 1), V3(-1, -1, 1), V3(1, -1, 1), V3(1, 1, 1), V3(-1, 1, 1))
    else Face(V3(0, 0, -1), V3(1, -1, -1), V3(-1, -1, -1), V3(-1, 1, -1), V3(1, 1, -1))
  }

  function CornerOf(face: Face, v: nat): V3 {
    if v == 0 then face.a else if v == 1 then face.b else if v == 2 then face.c else face.d
  }

  /** The order in which a face's two triangles use its four vertices. */
  function Fan(t: nat): (v: nat)
    ensures v < 4
  {
    if t == 0 || t == 3 then 0 else if t == 1 then 1 else if t == 2 || t == 4 then 2 else 3
  }

  function Coordinates(v: V3): (s: seq<int>)
    ensures |s| == 3
  {
    [v.x, v.y, v.z]
  }

  /** The three numbers of vertex `v` of face `f`. */
  function Slot(s: seq<int>, f: nat, v: nat): (slot: seq<int>)
    requires 12 * f + 3 * v + 3 <= |s|
    ensures |slot| == 3 && forall c :: 0 <= c < 3 ==> slot[c] == s[12 * f + 3 * v + c]
  {
    s[12 * f + 3 * v..12 * f + 3 * v + 3]
  }

  /** Face `f` of a box: four vertices of its own with its normal, and two triangles over them. */
  ghost predicate FaceAt(positions: seq<int>, normals: seq<int>, indices: seq<int>, f: nat)
    requires f < 6 && 12 * f + 12 <= |positions| && |positions| == |normals| && 6 * f + 6 <= |indices|
  {
    && (forall v :: 0 <= v < 4 ==> Slot(positions, f, v) == Coordinates(CornerOf(BoxFace(f), v)))
    && (forall v :: 0 <= v < 4 ==> Slot(normals, f, v) == Coordinates(BoxFace(f).normal))
    && (forall t :: 0 <= t < 6 ==> indices[6 * f + t] == 4 * f + Fan(t))
  }

  ghost predicate BoxUpTo(positions: seq<int>, normals: seq<int>, indices: seq<int>, n: nat)
    requires n <= 6
  {
    && |positions| == |normals| == 12 * n && |indices| == 6 * n
    && forall f :: 0 <= f < n ==> FaceAt(positions, normals, indices, f)
  }

  ghost predicate IsBox(p: Part) { BoxUpTo(p.positions, p.normals, p.indices, 6) }

  lemma FaceStays(positions: seq<int>, normals: seq<int>, indices: seq<int>, more: seq<int>, moreNormals: seq<int>, moreIndices: seq<int>, f: nat)
    requires f < 6 && 12 * f + 12 <= |positions| && |positions| == |normals| && 6 * f + 6 <= |indices|
    requires FaceAt(positions, normals, indices, f)
    requires positions <= more && normals <= moreNormals && indices <= moreIndices && |more| == |moreNormals|
    ensures FaceAt(more, moreNormals, moreIndices, f)
  {
    hide BoxFace, Fan, CornerOf, Coordinates;
    forall v | 0 <= v < 4 ensures Slot(more, f, v) == Slot(positions, f, v) && Slot(moreNormals, f, v) == Slot(normals, f, v) {}
  }

  method AddFace(f: nat, positions: seq<int>, normals: seq<int>, indices: seq<int>) returns (p: seq<int>, n: seq<int>, t: seq<int>)
    requires f < 6 && BoxUpTo(positions, normals, indices, f)
    ensures BoxUpTo(p, n, t, f + 1)
  {
    hide BoxFace, Fan, CornerOf, FaceAt, Coordinates;
    p, n := AddVertices(f, BoxFace(f), positions, normals);
    t := AddTriangles(f, |positions| / 3, indices);
    NewFace(p, n, t, f);
    forall g | 0 <= g < f ensures FaceAt(p, n, t, g) { FaceStays(positions, normals, indices, p, n, t, g); }
  }

  method AddVertices(f: nat, face: Face, positions: seq<int>, normals: seq<int>) returns (p: seq<int>, n: seq<int>)
    requires |positions| == |normals| == 12 * f
    ensures positions <= p && normals <= n && |p| == |n| == 12 * f + 12
    ensures forall v :: 0 <= v < 4 ==> Slot(p, f, v) == Coordinates(CornerOf(face, v)) && Slot(n, f, v) == Coordinates(face.normal)
  {
    hide CornerOf, Coordinates;
    p, n := positions, normals;
    var v := 0;
    while v < 4
      invariant 0 <= v <= 4 && positions <= p && normals <= n && |p| == |n| == 12 * f + 3 * v
      invariant forall w :: 0 <= w < v ==> Slot(p, f, w) == Coordinates(CornerOf(face, w)) && Slot(n, f, w) == Coordinates(face.normal)
    {
      p, n := p + Coordinates(CornerOf(face, v)), n + Coordinates(face.normal);
      v := v + 1;
    }
  }

  method AddTriangles(f: nat, offset: nat, indices: seq<int>) returns (t: seq<int>)
    requires |indices| == 6 * f
    ensures indices <= t && |t| == 6 * f + 6 && forall k :: 0 <= k < 6 ==> t[6 * f + k] == offset + Fan(k)
  {
    t := indices;
    var k := 0;
    while k < 6
      invariant 0 <= k <= 6 && indices <= t && |t| == 6 * f + k
      invariant forall m :: 0 <= m < k ==> t[6 * f + m] == offset + Fan(m)
    {
      t := t + [offset + Fan(k)];
      k := k + 1;
    }
  }

  lemma NewFace(p: seq<int>, n: seq<int>, t: seq<int>, f: nat)
    requires f < 6 && |p| == |n| == 12 * f + 12 && |t| == 6 * f + 6
    requires forall v :: 0 <= v < 4 ==> Slot(p, f, v) == Coordinates(CornerOf(BoxFace(f), v)) && Slot(n, f, v) == Coordinates(BoxFace(f).normal)
    requires forall k :: 0 <= k < 6 ==> t[6 * f + k] == 4 * f + Fan(k)
    ensures FaceAt(p, n, t, f)
  {
    hide BoxFace, Fan, CornerOf, Coordinates;
  }

  /** Vertex `i` of an attribute. */
  function Corner(values: seq<int>, i: nat): V3
    requires 3 * i + 2 < |values|
  {
    V3(values[3 * i], values[3 * i + 1], values[3 * i + 2])
  }

  /** Six times the signed volume of the triangle with the centre of the box: positive when its corners run anticlockwise seen from outside. */
  function Volume(a: V3, b: V3, c: V3): int {
    a.x * (b.y * c.z - b.z * c.y) + a.y * (b.z * c.x - b.x * c.z) + a.z * (b.x * c.y - b.y * c.x)
  }

  /** The corner lies in the side of the box its normal points to. */
  predicate OnSide(a: V3, n: V3) {
    && (n.x != 0 || n.y != 0 || n.z != 0)
    && (n.x != 0 ==> a.x == n.x) && (n.y != 0 ==> a.y == n.y) && (n.z != 0 ==> a.z == n.z)
  }

  predicate Outward(a: V3, b: V3, c: V3, n: V3) {
    OnSide(a, n) && OnSide(b, n) && OnSide(c, n) && Volume(a, b, c) > 0
  }

  predicate FaceOutwards(face: Face) {
    Outward(face.a, face.b, face.c, face.normal) && Outward(face.a, face.c, face.d, face.normal)
  }

  lemma Face0Outwards()
    ensures FaceOutwards(BoxFace(0))
  {
  }

  lemma Face1Outwards()
    ensures FaceOutwards(BoxFace(1))
  {
  }

  lemma Face2Outwards()
    ensures FaceOutwards(BoxFace(2))
  {
  }

  lemma Face3Outwards()
    ensures FaceOutwards(BoxFace(3))
  {
  }

  lemma Face4Outwards()
    ensures FaceOutwards(BoxFace(4))
  {
  }

  lemma Face5Outwards()
    ensures FaceOutwards(BoxFace(5))
  {
  }

  lemma FacesFaceOutwards(f: nat)
    requires f < 6
    ensures FaceOutwards(BoxFace(f))
  {
    Face0Outwards();
    Face1Outwards();
    Face2Outwards();
    Face3Outwards();
    Face4Outwards();
    Face5Outwards();
    hide FaceOutwards;
  }

  lemma VertexOf(p: Part, f: nat, v: nat)
    requires IsBox(p) && f < 6 && v < 4
    ensures Corner(p.positions, 4 * f + v) == CornerOf(BoxFace(f), v)
    ensures Corner(p.normals, 4 * f + v) == BoxFace(f).normal
  {
    hide BoxFace, Fan, CornerOf;
    assert FaceAt(p.positions, p.normals, p.indices, f);
    assert Slot(p.positions, f, v) == Coordinates(CornerOf(BoxFace(f), v));
    assert Slot(p.normals, f, v) == Coordinates(BoxFace(f).normal);
  }

  lemma IndexOf(p: Part, f: nat, t: nat)
    requires IsBox(p) && f < 6 && t < 6
    ensures p.indices[6 * f + t] == 4 * f + Fan(t)
  {
    hide BoxFace, Fan, CornerOf;
    assert FaceAt(p.positions, p.normals, p.indices, f);
  }

  lemma TriangleIndices(p: Part, k: nat)
    requires IsBox(p) && k < 12
    ensures var f, t, i := k / 2, 3 * (k % 2), 3 * k;
            p.indices[i] == 4 * f + Fan(t) && p.indices[i + 1] == 4 * f + Fan(t + 1) && p.indices[i + 2] == 4 * f + Fan(t + 2)
  {
    var f, t := k / 2, 3 * (k % 2);
    assert 6 * f + t == 3 * k;
    IndexOf(p, f, t);
    IndexOf(p, f, t + 1);
    IndexOf(p, f, t + 2);
    hide FaceAt, Fan, IsBox;
  }

  /** Every triangle of a box uses vertices the box has, and faces outwards. */
  lemma TrianglesFaceOutwards(p: Part, k: nat)
    requires IsBox(p) && k < 12
    ensures forall i :: 3 * k <= i < 3 * k + 3 ==> 0 <= p.indices[i] < 24
    ensures var a, b, c := p.indices[3 * k], p.indices[3 * k + 1], p.indices[3 * k + 2];
            Outward(Corner(p.positions, a), Corner(p.positions, b), Corner(p.positions, c), Corner(p.normals, a))
  {
    hide FaceAt, BoxFace, Outward, Corner;
    var f, t := k / 2, 3 * (k % 2);
    TriangleIndices(p, k);
    FacesFaceOutwards(f);
    VertexOf(p, f, Fan(t));
    VertexOf(p, f, Fan(t + 1));
    VertexOf(p, f, Fan(t + 2));
  }

  lemma BoxFits(p: Part)
    requires IsBox(p)
    ensures AllFit(FLOAT, p.positions) && AllFit(FLOAT, p.normals) && AllFit(USHORT, p.indices)
    ensures |p.positions| == |p.normals| == 72 && |p.indices| == 36
    ensures forall i :: i in p.indices ==> 0 <= i < 24
  {
    hide FaceAt;
    forall k | 0 <= k < 72 ensures -1 <= p.positions[k] <= 1 && -1 <= p.normals[k] <= 1 {
      var f, v, c := k / 12, k % 12 / 3, k % 3;
      assert k == 12 * f + 3 * v + c;
      FaceFits(p, f, v, c);
    }
    forall k | 0 <= k < 36 ensures 0 <= p.indices[k] < 24 {
      var f, t := k / 6, k % 6;
      assert k == 6 * f + t;
      IndexOf(p, f, t);
    }
  }

  lemma FaceFits(p: Part, f: nat, v: nat, c: nat)
    requires IsBox(p) && f < 6 && v < 4 && c < 3
    ensures -1 <= p.positions[12 * f + 3 * v + c] <= 1 && -1 <= p.normals[12 * f + 3 * v + c] <= 1
  {
    VertexOf(p, f, v);
    var i := 4 * f + v;
    assert 3 * i + c == 12 * f + 3 * v + c;
    hide FaceAt, IsBox;
  }

  // ----- The model -----

  function Halved(size: Vector): Vector { (size.0 / 2.0, size.1 / 2.0, size.2 / 2.0) }

  function Coordinate(v: Vector, axis: nat): real
    requires axis < 3
  {
    if axis == 0 then v.0 else if axis == 1 then v.1 else v.2
  }

  /** Where a node puts a coordinate of its mesh, before it turns the part. */
  function PlacedAt(n: Node, axis: nat, value: int): real
    requires axis < 3
  {
    Coordinate(n.translation, axis) + Coordinate(n.scale, axis) * value as real
  }

  function NodeOf(p: Part, k: nat): Node { Node(p.name, k, p.center, p.half, p.angle) }

  lemma CornersAreCorners(f: nat, v: nat)
    requires f < 6 && v < 4
    ensures var c := CornerOf(BoxFace(f), v); c.x in {-1, 1} && c.y in {-1, 1} && c.z in {-1, 1}
  {
  }

  lemma PositionIsUnit(p: Part, i: nat, axis: nat)
    requires IsBox(p) && i < 24 && axis < 3
    ensures p.positions[3 * i + axis] in {-1, 1}
  {
    CornersAreCorners(i / 4, i % 4);
    VertexOf(p, i / 4, i % 4);
    hide BoxFace, CornerOf, IsBox;
  }

  lemma BothSides(p: Part, axis: nat)
    requires IsBox(p) && axis < 3
    ensures p.positions[3 * (8 * axis) + axis] == 1 && p.positions[3 * (8 * axis + 4) + axis] == -1
  {
    VertexOf(p, 2 * axis, 0);
    VertexOf(p, 2 * axis + 1, 0);
    hide IsBox;
  }

  /** On each axis every vertex of the placed box lies half the given size off the given center, and some do on either side. */
  lemma BoxSpans(p: Part, size: Vector, k: nat, axis: nat)
    requires IsBox(p) && p.half == Halved(size) && axis < 3
    ensures var n := NodeOf(p, k);
            var low, high := Coordinate(p.center, axis) - Coordinate(size, axis) / 2.0, Coordinate(p.center, axis) + Coordinate(size, axis) / 2.0;
            && (forall i :: 0 <= i < 24 ==> PlacedAt(n, axis, p.positions[3 * i + axis]) in {low, high})
            && PlacedAt(n, axis, p.positions[3 * (8 * axis) + axis]) == high
            && PlacedAt(n, axis, p.positions[3 * (8 * axis + 4) + axis]) == low
            && high - low == Coordinate(size, axis)
  {
    BothSides(p, axis);
    hide IsBox;
    forall i | 0 <= i < 24 ensures p.positions[3 * i + axis] in {-1, 1} { PositionIsUnit(p, i, axis); }
  }

  function MeshOf(p: Part, k: nat): Mesh { Mesh(p.name, 3 * k, 3 * k + 1, 3 * k + 2, p.material) }

  /** The values a reader takes out of the file for an accessor. */
  function Read(doc: Doc, bin: seq<Byte>, a: nat): seq<int>
    requires a < |doc.accessors| && IsComponent(doc.accessors[a].component)
  {
    var row := doc.accessors[a];
    if row.view < |doc.views| && doc.views[row.view].offset + doc.views[row.view].length <= |bin|
    then Unpacked(row.component, bin[doc.views[row.view].offset..doc.views[row.view].offset + doc.views[row.view].length]) else []
  }

  ghost predicate ReadsBack(doc: Doc, bin: seq<Byte>, a: nat, kind: Kind, values: seq<int>) {
    && a < |doc.accessors| && IsComponent(doc.accessors[a].component) && doc.accessors[a].kind == kind
    && Read(doc, bin, a) == values && doc.accessors[a].count * Columns(kind) == |values| && Bounded(values, doc.accessors[a])
  }

  /** Mesh and node `k` show part `k`: its attributes read back, and its indices stay below its vertex count. */
  ghost predicate Shows(doc: Doc, bin: seq<Byte>, k: nat, p: Part) {
    && k < |doc.meshes| && k < |doc.nodes| && doc.nodes[k] == NodeOf(p, k) && doc.meshes[k] == MeshOf(p, k)
    && ReadsBack(doc, bin, doc.meshes[k].position, Vec3, p.positions)
    && ReadsBack(doc, bin, doc.meshes[k].normal, Vec3, p.normals)
    && ReadsBack(doc, bin, doc.meshes[k].indices, Scalar, p.indices)
    && (forall i :: i in p.indices ==> 0 <= i < doc.accessors[doc.meshes[k].position].count)
  }

  ghost predicate WellFormed(doc: Doc, bin: seq<Byte>, parts: seq<Part>) {
    && Laid(doc.views, doc.bufferLength) && doc.bufferLength <= |bin| < doc.bufferLength + 4
    && |doc.meshes| == |doc.nodes| == |parts|
    && forall k :: 0 <= k < |parts| ==> Shows(doc, bin, k, parts[k])
  }

  /** Node k shows mesh k, at the center of part k, scaled by its half size and turned by its angle; mesh k has its material. */
  ghost predicate Places(doc: Doc, parts: seq<Part>) {
    && |doc.nodes| == |doc.meshes| == |parts|
    && forall k :: 0 <= k < |parts| ==>
         && doc.nodes[k].name == parts[k].name && doc.nodes[k].mesh == k && doc.nodes[k].translation == parts[k].center
         && doc.nodes[k].scale == parts[k].half && doc.nodes[k].angle == parts[k].angle
         && doc.meshes[k].name == parts[k].name && doc.meshes[k].material == parts[k].material
  }

  lemma ShownIsPlaced(doc: Doc, bin: seq<Byte>, parts: seq<Part>)
    requires WellFormed(doc, bin, parts)
    ensures Places(doc, parts)
  {
    hide ReadsBack, Laid;
    forall k | 0 <= k < |parts| ensures doc.nodes[k] == NodeOf(parts[k], k) && doc.meshes[k] == MeshOf(parts[k], k) {
      assert Shows(doc, bin, k, parts[k]);
    }
  }

  lemma HeldReadsBack(doc: Doc, bin: seq<Byte>, data: seq<Byte>, a: nat, values: seq<int>)
    requires a < |doc.accessors| && Holds(data, doc.views, doc.accessors[a], values, a) && data <= bin
    ensures ReadsBack(doc, bin, a, doc.accessors[a].kind, values)
  {
    HoldsOn(data, bin, doc.views, doc.views, doc.accessors[a], values, a);
    ValuesReadBack(doc.accessors[a].component, values);
    hide Unpacked, Packed, AllFit, Bounded;
  }

  class Model {
    var parts: seq<Part>

    ghost predicate Valid()
      reads this
    {
      forall p :: p in parts ==> IsBox(p)
    }

    constructor ()
      ensures Valid() && parts == []
    {
      parts := [];
    }

    method Box(name: string, center: Vector, size: Vector, material: nat, angle: real)
      requires Valid()
      modifies this
      ensures Valid() && |parts| == |old(parts)| + 1 && parts[..|old(parts)|] == old(parts)
      ensures var p := parts[|old(parts)|];
              p.name == name && p.center == center && p.half == Halved(size) && p.material == material && p.angle == angle
    {
      var positions, normals, indices := [], [], [];
      hide FaceAt;
      var f := 0;
      while f < 6
        invariant 0 <= f <= 6 && BoxUpTo(positions, normals, indices, f) && parts == old(parts)
      {
        positions, normals, indices := AddFace(f, positions, normals, indices);
        f := f + 1;
      }
      parts := parts + [Part(name, center, Halved(size), material, angle, positions, normals, indices)];
    }

    /** `text` is the JSON encoder. The length fields of the container are 32 bits wide; a larger file is refused. */
    method Export(text: Doc -> seq<Byte>) returns (r: Result<seq<Byte>, string>, doc: Doc)
      requires Valid()
      ensures r.Ok? ==> exists json, bin ::
                && Parse(r.value) == Some((json, bin))
                && text(doc) <= json && |json| < |text(doc)| + 4
                && WellFormed(doc, bin, parts)
      ensures r.Ok? ==> Places(doc, parts)
      ensures r.Err? ==> 28 + |Padded(text(doc), 0x20)| + |Padded(Fill(0, doc.bufferLength), 0)| >= U32
    {
      hide Places, Shows, NodeOf, MeshOf, Written, Holds, Container, Parse, IsBox, Laid, AllFit;
      var b := new Buffer();
      var meshes: seq<Mesh>, nodes: seq<Node> := [], [];
      var k := 0;
      while k < |parts|
        invariant 0 <= k <= |parts| && b.Valid() && fresh(b)
        invariant |meshes| == |nodes| == k && |b.accessors| == 3 * k
        invariant forall i :: 0 <= i < k ==> meshes[i] == MeshOf(parts[i], i) && nodes[i] == NodeOf(parts[i], i)
        invariant forall i :: 0 <= i < k ==> Written(b.accessors, b.contents, parts[i], i)
      {
        assert parts[k] in parts;
        var mesh, node := AddPart(b, parts[k], k, parts[..k]);
        meshes, nodes := meshes + [mesh], nodes + [node];
        k := k + 1;
      }
      doc := Doc(nodes, meshes, |b.data|, b.views, b.accessors);
      var json, bin := Padded(text(doc), 0x20), Padded(b.data, 0);
      if 28 + |json| + |bin| >= U32 { return Err("struct.error"), doc; }
      ContainerReadsBack(json, bin);
      forall i | 0 <= i < |parts| ensures Shows(doc, bin, i, parts[i]) {
        assert parts[i] in parts;
        PartShows(doc, bin, b.data, b.contents, i, parts[i]);
      }
      ShownIsPlaced(doc, bin, parts);
      return Ok(Container(json, bin)), doc;
    }
  }

  /** One part: three accessors, a mesh over them and a node that places it. */
  method AddPart(b: Buffer, part: Part, k: nat, ghost before: seq<Part>) returns (mesh: Mesh, node: Node)
    requires b.Valid() && IsBox(part) && |b.accessors| == 3 * k && |before| == k
    requires forall i :: 0 <= i < k ==> Written(b.accessors, b.contents, before[i], i)
    modifies b
    ensures b.Valid() && |b.accessors| == 3 * k + 3 && mesh == MeshOf(part, k) && node == NodeOf(part, k)
    ensures Written(b.accessors, b.contents, part, k)
    ensures forall i :: 0 <= i < k ==> Written(b.accessors, b.contents, before[i], i)
  {
    BoxFits(part);
    hide AllFit, IsBox, Laid, Holds, Written;
    ghost var accessors, contents := b.accessors, b.contents;
    var p := b.Add(part.positions, Vec3, FLOAT);
    var n := b.Add(part.normals, Vec3, FLOAT);
    var i := b.Add(part.indices, Scalar, USHORT);
    mesh := Mesh(part.name, p, n, i, part.material);
    node := Node(part.name, k, part.center, part.half, part.angle);
    assert b.contents == contents + [part.positions] + [part.normals] + [part.indices];
    assert accessors <= b.accessors;
    forall j | 0 <= j < k ensures Written(b.accessors, b.contents, before[j], j) {
      StillWritten(accessors, contents, b.accessors, b.contents, before[j], j);
    }
    NowWritten(b.accessors, b.contents, part, k);
  }

  lemma StillWritten(accessors: seq<Accessor>, contents: seq<seq<int>>, more: seq<Accessor>, moreContents: seq<seq<int>>, p: Part, k: nat)
    requires Written(accessors, contents, p, k) && accessors <= more && contents <= moreContents && |more| == |moreContents|
    ensures Written(more, moreContents, p, k)
  {
  }

  lemma NowWritten(accessors: seq<Accessor>, contents: seq<seq<int>>, p: Part, k: nat)
    requires 3 * k + 3 == |accessors| == |contents|
    requires contents[3 * k] == p.positions && contents[3 * k + 1] == p.normals && contents[3 * k + 2] == p.indices
    requires accessors[3 * k].kind == Vec3 && accessors[3 * k + 1].kind == Vec3 && accessors[3 * k + 2].kind == Scalar
    ensures Written(accessors, contents, p, k)
  {
  }

  /** Part `k` is described by the three accessors from 3k on. */
  ghost predicate Written(accessors: seq<Accessor>, contents: seq<seq<int>>, p: Part, k: nat) {
    && 3 * k + 2 < |accessors| == |contents|
    && contents[3 * k] == p.positions && contents[3 * k + 1] == p.normals && contents[3 * k + 2] == p.indices
    && accessors[3 * k].kind == Vec3 && accessors[3 * k + 1].kind == Vec3 && accessors[3 * k + 2].kind == Scalar
  }

  lemma PartShows(doc: Doc, bin: seq<Byte>, data: seq<Byte>, contents: seq<seq<int>>, k: nat, p: Part)
    requires k < |doc.meshes| == |doc.nodes| && doc.nodes[k] == NodeOf(p, k) && doc.meshes[k] == MeshOf(p, k)
    requires |doc.accessors| == |contents| && data <= bin && Written(doc.accessors, contents, p, k) && IsBox(p)
    requires forall i :: 0 <= i < |contents| ==> Holds(data, doc.views, doc.accessors[i], contents[i], i)
    ensures Shows(doc, bin, k, p)
  {
    BoxFits(p);
    HeldReadsBack(doc, bin, data, 3 * k, p.positions);
    HeldReadsBack(doc, bin, data, 3 * k + 1, p.normals);
    HeldReadsBack(doc, bin, data, 3 * k + 2, p.indices);
    hide IsBox, Holds, Bounded, Read, AllFit;
  }
}
