/** The data reshaping inside the model loaders of renderer.cpp (loadMeshes
    and loadSingleMesh). The importer's scene is an input value, and what
    would be copied into GPU buffers is returned as plain sequences. */
module MeshLoading {
  import opened Wrappers
  import opened Vectors

  /** A face as the importer reports it: indices into the vertex arrays. */
  datatype Face = Face(indices: seq<nat>)

  /** One mesh of an imported scene. `texCoords` is the first texture
      coordinate channel (three components per vertex), absent when the mesh
      has none. */
  datatype Mesh = Mesh(
    vertices: seq<Vec3>,
    normals: seq<Vec3>,
    texCoords: Option<seq<Vec3>>,
    faces: seq<Face>,
    materialIndex: nat)

  /** The material properties the loaders look up; each is absent when the
      importer's lookup does not succeed. Colours are RGBA. */
  datatype MaterialProps = MaterialProps(
    diffuse: Option<Vec4>,
    ambient: Option<Vec4>,
    specular: Option<Vec4>,
    shininess: Option<real>,
    shininessStrength: Option<real>,
    diffuseTextures: seq<string>)

  datatype Scene = Scene(meshes: seq<Mesh>, materials: seq<MaterialProps>)

  /** Every face has at least the three indices the loaders read from it. */
  predicate Triangulated(faces: seq<Face>) {
    forall f | 0 <= f < |faces| :: |faces[f].indices| >= 3
  }

  /** What the importer guarantees of each mesh it returns. */
  predicate WellFormedMesh(m: Mesh, materialCount: nat) {
    && m.materialIndex < materialCount
    && (m.texCoords.Some? ==> |m.texCoords.value| == |m.vertices|)
    && Triangulated(m.faces)
  }

  predicate WellFormedScene(s: Scene) {
    forall i | 0 <= i < |s.meshes| :: WellFormedMesh(s.meshes[i], |s.materials|)
  }

  /** The material a loader stores. `shininess` is absent when the loader
      leaves it undetermined; `textureFile` is the file name handed to the
      texture loader, absent when the texture handle is left at 0. */
  datatype Material = Material(
    ambient: Vec3,
    diffuse: Vec3,
    specular: Vec3,
    shininess: Option<real>,
    textureFile: Option<string>)

  /** One loaded geometry: its triangle count, its material, the contents of
      its element buffer, and the texture-coordinate part of its vertex
      buffer (absent when that memory is left uninitialised). */
  datatype Geometry = Geometry(
    numTriangles: nat,
    material: Material,
    indices: seq<nat>,
    texCoords: Option<seq<real>>)

  // ---------------------------------------------------------------- indices

  /** The element buffer: the first three indices of each face, face after face. */
  function FlattenFaces(faces: seq<Face>): (indices: seq<nat>)
    requires Triangulated(faces)
    ensures |indices| == 3 * |faces|
    ensures forall f, k | 0 <= f < |faces| && 0 <= k < 3 :: indices[3 * f + k] == faces[f].indices[k]
  {
    if |faces| == 0 then []
    else
      var rest := FlattenFaces(faces[1..]);
      [faces[0].indices[0], faces[0].indices[1], faces[0].indices[2]] + rest
  }

  /** Flattening distributes over concatenation of face lists, so the buffer
      built face by face equals the buffer built in one pass. */
  lemma {:induction false} FlattenFacesAppend(a: seq<Face>, b: seq<Face>)
    requires Triangulated(a) && Triangulated(b)
    ensures Triangulated(a + b)
    ensures FlattenFaces(a + b) == FlattenFaces(a) + FlattenFaces(b)
    decreases |a|
  {
    if |a| == 0 {
      assert a + b == b;
    } else {
      var ab := a + b;
      assert ab[0] == a[0];
      assert ab[1..] == a[1..] + b;
      FlattenFacesAppend(a[1..], b);
      var head := [a[0].indices[0], a[0].indices[1], a[0].indices[2]];
      assert FlattenFaces(ab) == head + FlattenFaces(a[1..] + b);
      assert FlattenFaces(a) == head + FlattenFaces(a[1..]);
    }
  }

  // ------------------------------------------------------ texture coordinates

  /** loadSingleMesh's packing: the first two components of each texture
      coordinate, vertex after vertex; the third component is dropped. */
  function PackTexCoords(tcs: seq<Vec3>): (buf: seq<real>)
    ensures |buf| == 2 * |tcs|
    ensures forall i | 0 <= i < |tcs| :: buf[2 * i] == tcs[i].x && buf[2 * i + 1] == tcs[i].y
  {
    if |tcs| == 0 then []
    else
      var rest := PackTexCoords(tcs[1..]);
      [tcs[0].x, tcs[0].y] + rest
  }

  /** The packed buffer depends on nothing but the first two components. */
  lemma {:induction false} PackIgnoresThirdComponent(a: seq<Vec3>, b: seq<Vec3>)
    requires |a| == |b|
    requires forall i | 0 <= i < |a| :: a[i].x == b[i].x && a[i].y == b[i].y
    ensures PackTexCoords(a) == PackTexCoords(b)
    decreases |a|
  {
    if |a| > 0 {
      PackIgnoresThirdComponent(a[1..], b[1..]);
    }
  }

  /** The (u, v) pairs a shader reads from a packed buffer, two values per
      vertex. */
  function UnpackTexCoords(buf: seq<real>): (uvs: seq<(real, real)>)
    requires |buf| % 2 == 0
    ensures |uvs| == |buf| / 2
    ensures forall i | 0 <= i < |uvs| :: uvs[i] == (buf[2 * i], buf[2 * i + 1])
    decreases |buf|
  {
    if |buf| == 0 then []
    else [(buf[0], buf[1])] + UnpackTexCoords(buf[2..])
  }

  /** The first two components of each texture coordinate. */
  function TexCoordUVs(tcs: seq<Vec3>): (uvs: seq<(real, real)>)
    ensures |uvs| == |tcs|
    ensures forall i | 0 <= i < |tcs| :: uvs[i] == (tcs[i].x, tcs[i].y)
  {
    if |tcs| == 0 then [] else [(tcs[0].x, tcs[0].y)] + TexCoordUVs(tcs[1..])
  }

  /** Reading the packed buffer back two values at a time recovers exactly
      the (u, v) pair of every vertex, in order. */
  lemma {:induction false} PackThenUnpack(tcs: seq<Vec3>)
    ensures UnpackTexCoords(PackTexCoords(tcs)) == TexCoordUVs(tcs)
    decreases |tcs|
  {
    if |tcs| > 0 {
      var buf := PackTexCoords(tcs);
      assert buf[2..] == PackTexCoords(tcs[1..]);
      PackThenUnpack(tcs[1..]);
    }
  }

  /** The importer's texture-coordinate channel laid out as memory: three
      floats per vertex. */
  function ChannelMemory(tcs: seq<Vec3>): (mem: seq<real>)
    ensures |mem| == 3 * |tcs|
    ensures forall i | 0 <= i < |tcs| ::
      mem[3 * i] == tcs[i].x && mem[3 * i + 1] == tcs[i].y && mem[3 * i + 2] == tcs[i].z
  {
    if |tcs| == 0 then []
    else
      var rest := ChannelMemory(tcs[1..]);
      [tcs[0].x, tcs[0].y, tcs[0].z] + rest
  }

  /** loadMeshes as written: it copies the first two floats per vertex of the
      channel's memory, which holds three floats per vertex, instead of
      packing the first two components of each vertex. */
  function RawTexCoordUpload(tcs: seq<Vec3>): (buf: seq<real>)
    ensures |buf| == 2 * |tcs|
    ensures forall j | 0 <= j < 2 * |tcs| ::
      buf[j] == if j % 3 == 0 then tcs[j / 3].x else if j % 3 == 1 then tcs[j / 3].y else tcs[j / 3].z
    ensures buf == ChannelMemory(tcs)[..2 * |tcs|]
  {
    ChannelMemory(tcs)[..2 * |tcs|]
  }

  /** From the second vertex on the raw copy is out of step: the slot meant
      for the second vertex's u holds the first vertex's third component. */
  lemma RawUploadMisalignsTexCoords(tcs: seq<Vec3>)
    requires |tcs| >= 2
    ensures RawTexCoordUpload(tcs)[2] == tcs[0].z
    ensures PackTexCoords(tcs)[2] == tcs[1].x
    ensures tcs[0].z != tcs[1].x ==> RawTexCoordUpload(tcs) != PackTexCoords(tcs)
  {
    assert ChannelMemory(tcs)[3 * 0 + 2] == tcs[0].z;
  }

  /** A two-vertex example: (0.1, 0.2, 0) and (0.3, 0.4, 0). */
  lemma RawUploadExample()
    ensures RawTexCoordUpload([Vec3(0.1, 0.2, 0.0), Vec3(0.3, 0.4, 0.0)]) == [0.1, 0.2, 0.0, 0.3]
    ensures PackTexCoords([Vec3(0.1, 0.2, 0.0), Vec3(0.3, 0.4, 0.0)]) == [0.1, 0.2, 0.3, 0.4]
  {
    var tcs := [Vec3(0.1, 0.2, 0.0), Vec3(0.3, 0.4, 0.0)];
    assert ChannelMemory(tcs) == [0.1, 0.2, 0.0, 0.3, 0.4, 0.0];
  }

  /** The texture-coordinate region of a vertex buffer: packed coordinates
      when the mesh has them, uninitialised memory otherwise. */
  function TexCoordRegion(m: Mesh): (region: Option<seq<real>>)
    ensures region.Some? <==> m.texCoords.Some?
    ensures region.Some? ==> region.value == PackTexCoords(m.texCoords.value)
  {
    match m.texCoords
    case Some(tcs) => Some(PackTexCoords(tcs))
    case None => None
  }

  // ------------------------------------------------------------ texture path

  predicate IsSeparator(c: char) {
    c == '/' || c == '\\'
  }

  /** find_last_of("/\\"): the position of the last separator, if any. */
  function LastSeparator(s: string): (r: Option<nat>)
    ensures r.None? ==> forall j | 0 <= j < |s| :: !IsSeparator(s[j])
    ensures r.Some? ==> r.value < |s| && IsSeparator(s[r.value])
    ensures r.Some? ==> forall j | r.value < j < |s| :: !IsSeparator(s[j])
  {
    if |s| == 0 then None
    else if IsSeparator(s[|s| - 1]) then Some(|s| - 1)
    else LastSeparator(s[..|s| - 1])
  }

  /** The texture name, prefixed with the model file's directory: the file
      name up to and including its last separator, or nothing when it has
      none. */
  function ResolveTexturePath(fileName: string, textureName: string): (path: string)
    ensures |path| >= |textureName| && path[|path| - |textureName|..] == textureName
    ensures var dir := path[..|path| - |textureName|];
      && dir <= fileName
      && (dir == [] <==> forall j | 0 <= j < |fileName| :: !IsSeparator(fileName[j]))
      && (dir != [] ==> IsSeparator(dir[|dir| - 1]))
      && (forall j | |dir| <= j < |fileName| :: !IsSeparator(fileName[j]))
  {
    match LastSeparator(fileName)
    case Some(found) => fileName[..found + 1] + textureName
    case None => textureName
  }

  /** Examples: a model in a directory, and a model given by a bare name. */
  lemma ResolveTexturePathExamples()
    ensures ResolveTexturePath("data/m.obj", "m.png") == "data/m.png"
    ensures ResolveTexturePath("m.obj", "m.png") == "m.png"
    ensures ResolveTexturePath("a\\b/c", "t.png") == "a\\b/t.png"
  {
    assert LastSeparator("data/m.obj") == Some(4) by {
      assert "data/m.obj"[..9] == "data/m.ob";
      assert "data/m.ob"[..8] == "data/m.o";
      assert "data/m.o"[..7] == "data/m.";
      assert "data/m."[..6] == "data/m";
      assert "data/m"[..5] == "data/";
    }
    assert LastSeparator("m.obj") == None by {
      assert "m.obj"[..4] == "m.ob";
      assert "m.ob"[..3] == "m.o";
      assert "m.o"[..2] == "m.";
      assert "m."[..1] == "m";
      assert "m"[..0] == "";
    }
    assert LastSeparator("a\\b/c") == Some(3) by {
      assert !IsSeparator("a\\b/c"[4]);
      assert "a\\b/c"[..4] == "a\\b/";
      assert IsSeparator("a\\b/"[3]);
    }
    assert "a\\b/c"[..3 + 1] + "t.png" == "a\\b/t.png";
  }

  // ---------------------------------------------------------------- material

  /** A colour's red, green and blue, or black when the lookup failed. */
  function ColourOrBlack(c: Option<Vec4>): (rgb: Vec3)
    ensures c.None? ==> rgb == Zero3
    ensures c.Some? ==> rgb == Vec3(c.value.x, c.value.y, c.value.z)
  {
    match c
    case Some(rgba) => Xyz(rgba)
    case None => Zero3
  }

  /** The shininess times its strength, a factor the lookup could not find
      counting as 1. */
  function ScaledShininess(shininess: Option<real>, strength: Option<real>): (r: real)
    ensures shininess.Some? && strength.Some? ==> r == shininess.value * strength.value
    ensures shininess.Some? && strength.None? ==> r == shininess.value
    ensures shininess.None? && strength.Some? ==> r == strength.value
    ensures shininess.None? && strength.None? ==> r == 1.0
  {
    match (shininess, strength)
    case (Some(s), Some(t)) => s * t
    case (Some(s), None) => s * 1.0
    case (None, Some(t)) => 1.0 * t
    case (None, None) => 1.0 * 1.0
  }

  /** loadSingleMesh's material: colours default to black, shininess is the
      shininess times its strength with each defaulting to 1, and the first
      diffuse texture, if any, is looked up next to the model file. */
  function SingleMeshMaterial(fileName: string, props: MaterialProps): (m: Material)
    ensures m.ambient == ColourOrBlack(props.ambient)
    ensures m.diffuse == ColourOrBlack(props.diffuse)
    ensures m.specular == ColourOrBlack(props.specular)
    ensures m.shininess.Some?
    ensures m.textureFile.Some? <==> |props.diffuseTextures| > 0
    ensures m.textureFile.Some? ==> m.textureFile.value == ResolveTexturePath(fileName, props.diffuseTextures[0])
  {
    Material(
      ColourOrBlack(props.ambient),
      ColourOrBlack(props.diffuse),
      ColourOrBlack(props.specular),
      Some(ScaledShininess(props.shininess, props.shininessStrength)),
      if |props.diffuseTextures| > 0 then Some(ResolveTexturePath(fileName, props.diffuseTextures[0])) else None)
  }

  /** loadSingleMesh's colour and texture defaults: a missing colour is
      black, a present one keeps its red, green and blue, and the first
      diffuse texture is requested next to the model file. */
  lemma SingleMeshMaterialDefaults(fileName: string, props: MaterialProps)
    ensures var m := SingleMeshMaterial(fileName, props);
      && (props.ambient.None? ==> m.ambient == Zero3)
      && (props.diffuse.None? ==> m.diffuse == Zero3)
      && (props.specular.None? ==> m.specular == Zero3)
      && (props.ambient.Some? ==> m.ambient == Vec3(props.ambient.value.x, props.ambient.value.y, props.ambient.value.z))
      && (props.diffuse.Some? ==> m.diffuse == Vec3(props.diffuse.value.x, props.diffuse.value.y, props.diffuse.value.z))
      && (props.specular.Some? ==> m.specular == Vec3(props.specular.value.x, props.specular.value.y, props.specular.value.z))
      && (|props.diffuseTextures| == 0 <==> m.textureFile.None?)
      && (|props.diffuseTextures| > 0 ==>
            m.textureFile == Some(ResolveTexturePath(fileName, props.diffuseTextures[0])))
  {
  }

  /** loadSingleMesh's shininess: the shininess times its strength, a
      missing factor counting as 1. */
  lemma SingleMeshShininess(fileName: string, props: MaterialProps)
    ensures var m := SingleMeshMaterial(fileName, props);
      && (props.shininess.Some? && props.shininessStrength.Some? ==>
            m.shininess == Some(props.shininess.value * props.shininessStrength.value))
      && (props.shininess.None? && props.shininessStrength.None? ==> m.shininess == Some(1.0))
      && (props.shininess.None? && props.shininessStrength.Some? ==> m.shininess == Some(props.shininessStrength.value))
      && (props.shininess.Some? && props.shininessStrength.None? ==> m.shininess == Some(props.shininess.value))
  {
    var r := ScaledShininess(props.shininess, props.shininessStrength);
    assert SingleMeshMaterial(fileName, props).shininess == Some(r);
    if props.shininess.Some? && props.shininessStrength.Some? {
      assert r == props.shininess.value * props.shininessStrength.value;
    }
  }

  /** loadMeshes' material: the same black defaults for the colours, the
      texture name used as it is, and a shininess this model leaves
      undetermined. */
  function MeshesMaterial(props: MaterialProps): (m: Material)
    ensures m.ambient == ColourOrBlack(props.ambient)
    ensures m.diffuse == ColourOrBlack(props.diffuse)
    ensures m.specular == ColourOrBlack(props.specular)
    ensures m.shininess.None?
    ensures m.textureFile.Some? <==> |props.diffuseTextures| > 0
    ensures m.textureFile.Some? ==> m.textureFile.value == props.diffuseTextures[0]
  {
    Material(
      ColourOrBlack(props.ambient),
      ColourOrBlack(props.diffuse),
      ColourOrBlack(props.specular),
      None,
      if |props.diffuseTextures| > 0 then Some(props.diffuseTextures[0]) else None)
  }

  /** The two loaders agree on the colours of a material, and loadMeshes
      passes the texture name on without the model's directory. */
  lemma LoadersAgreeOnColours(fileName: string, props: MaterialProps)
    ensures var a, b := SingleMeshMaterial(fileName, props), MeshesMaterial(props);
      && a.ambient == b.ambient && a.diffuse == b.diffuse && a.specular == b.specular
      && a.textureFile.Some? == b.textureFile.Some?
      && (b.textureFile.Some? ==> a.textureFile.value[|a.textureFile.value| - |b.textureFile.value|..] == b.textureFile.value)
  {
  }

  // ------------------------------------------------------------------ loaders

  /** loadSingleMesh: no geometry (a null pointer and a false return) when
      the import failed or the scene does not hold exactly one mesh;
      otherwise the geometry of that mesh. */
  function LoadSingleMesh(fileName: string, scene: Option<Scene>): (g: Option<Geometry>)
    requires scene.Some? && |scene.value.meshes| == 1 ==> WellFormedMesh(scene.value.meshes[0], |scene.value.materials|)
    ensures g.None? <==> scene.None? || |scene.value.meshes| != 1
    ensures g.Some? ==>
      var m := scene.value.meshes[0];
      && g.value.numTriangles == |m.faces|
      && |g.value.indices| == 3 * g.value.numTriangles
      && g.value.indices == FlattenFaces(m.faces)
      && g.value.texCoords == TexCoordRegion(m)
      && g.value.material == SingleMeshMaterial(fileName, scene.value.materials[m.materialIndex])
  {
    if scene.None? || |scene.value.meshes| != 1 then None
    else
      var s := scene.value;
      var m := s.meshes[0];
      assert WellFormedMesh(m, |s.materials|);
      Some(Geometry(
        |m.faces|,
        SingleMeshMaterial(fileName, s.materials[m.materialIndex]),
        FlattenFaces(m.faces),
        TexCoordRegion(m)))
  }

  /** A scene of two meshes, the second holding a line rather than a
      triangle: the importer can return such a scene, and loadSingleMesh
      turns it down by its mesh count without reading a face. */
  lemma LoadSingleMeshRejectsLineScene()
    ensures var props := MaterialProps(None, None, None, None, None, []);
      var triangle := Mesh([], [], None, [Face([0, 1, 2])], 0);
      var line := Mesh([], [], None, [Face([0, 1])], 0);
      var s := Scene([triangle, line], [props]);
      && !WellFormedScene(s)
      && LoadSingleMesh("m.obj", Some(s)).None?
  {
    var props := MaterialProps(None, None, None, None, None, []);
    var triangle := Mesh([], [], None, [Face([0, 1, 2])], 0);
    var line := Mesh([], [], None, [Face([0, 1])], 0);
    var s := Scene([triangle, line], [props]);
    assert |s.meshes[1].faces[0].indices| == 2;
    assert !WellFormedMesh(s.meshes[1], |s.materials|);
  }

  /** For a scene of one mesh the two loaders build the same triangle count
      and element buffer; they differ only in the material and the
      texture-coordinate region. */
  lemma LoadersAgreeOnIndices(fileName: string, s: Scene)
    requires WellFormedScene(s) && |s.meshes| == 1
    ensures var g := LoadSingleMesh(fileName, Some(s));
      && g.Some?
      && g.value.numTriangles == MeshGeometry(s, s.meshes[0]).numTriangles
      && g.value.indices == MeshGeometry(s, s.meshes[0]).indices
  {
    assert WellFormedMesh(s.meshes[0], |s.materials|);
  }

  /** The geometry loadMeshes builds for one mesh. Its texture-coordinate
      region is the raw copy of the importer's channel, not the packed one
      loadSingleMesh builds. */
  function MeshGeometry(s: Scene, m: Mesh): (g: Geometry)
    requires WellFormedMesh(m, |s.materials|)
    ensures g.numTriangles == |m.faces|
    ensures |g.indices| == 3 * |m.faces|
    ensures g.indices == FlattenFaces(m.faces)
    ensures g.material == MeshesMaterial(s.materials[m.materialIndex])
    ensures g.texCoords.Some? <==> m.texCoords.Some?
    ensures g.texCoords.Some? ==> g.texCoords.value == ChannelMemory(m.texCoords.value)[..2 * |m.texCoords.value|]
  {
    var region := match m.texCoords
      case Some(tcs) => Some(RawTexCoordUpload(tcs))
      case None => None;
    Geometry(|m.faces|, MeshesMaterial(s.materials[m.materialIndex]), FlattenFaces(m.faces), region)
  }

  /** For a mesh whose first vertex's third component differs from the
      second vertex's u, loadMeshes' texture-coordinate region is not the
      packed one loadSingleMesh would build for the same mesh. */
  lemma MeshGeometryTexCoordsDiffer(s: Scene, m: Mesh)
    requires WellFormedMesh(m, |s.materials|)
    requires m.texCoords.Some? && |m.texCoords.value| >= 2
    requires m.texCoords.value[0].z != m.texCoords.value[1].x
    ensures MeshGeometry(s, m).texCoords != TexCoordRegion(m)
  {
    RawUploadMisalignsTexCoords(m.texCoords.value);
  }

  /** loadMeshes: fail, leaving the list alone, when the import failed;
      otherwise append one geometry per mesh, in the scene's order. */
  method LoadMeshes(fileName: string, scene: Option<Scene>, geometries: seq<Geometry>)
    returns (ok: bool, result: seq<Geometry>)
    requires scene.Some? ==> WellFormedScene(scene.value)
    ensures ok <==> scene.Some?
    ensures !ok ==> result == geometries
    ensures ok ==> |result| == |geometries| + |scene.value.meshes|
    ensures ok ==> result[..|geometries|] == geometries
    ensures ok ==> forall i | 0 <= i < |scene.value.meshes| ::
      result[|geometries| + i] == MeshGeometry(scene.value, scene.value.meshes[i])
      && result[|geometries| + i].numTriangles == |scene.value.meshes[i].faces|
  {
    if scene.None? {
      return false, geometries;
    }
    var s := scene.value;
    result := geometries;
    var i := 0;
    while i < |s.meshes|
      invariant 0 <= i <= |s.meshes|
      invariant |result| == |geometries| + i
      invariant result[..|geometries|] == geometries
      invariant forall j | 0 <= j < i :: result[|geometries| + j] == MeshGeometry(s, s.meshes[j])
    {
      assert WellFormedMesh(s.meshes[i], |s.materials|);
      result := result + [MeshGeometry(s, s.meshes[i])];
      i := i + 1;
    }
    ok := true;
  }
}
