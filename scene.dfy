/** The objects `setObjects` builds: one group per image, each holding
    three flat panels (meshes) that share the image texture; panels after
    the first are alpha-masked. Groups and meshes are objects because the
    per-frame step rewrites their rotation and depth in place. */
module Scene {
  import opened Motion

  datatype Option<T> = None | Some(value: T)

  /** Horizontal distance between neighbouring groups (`j * 2500`). */
  const PanelSpacing: real := 2500.0

  /** Number of panels per group (`for (let i = 0; i < 3; i++)`). */
  const LayerCount: nat := 3

  /** A texture as `TextureLoader.load(url)` hands it back: decoding is
      outside this model, so a texture is known by the URL it came from. */
  datatype Texture = Texture(url: string)

  /** The `MeshBasicMaterial` options a panel uses. */
  datatype Material = Material(texture: Texture, alphaMap: Option<Texture>, transparent: bool)

  /** A material that draws its whole quad: no alpha map, not transparent. */
  predicate Opaque(m: Material)
  {
    m.alphaMap.None? && !m.transparent
  }

  /** The x position of the group made for image `j`. */
  function GroupX(j: int): (x: real)
    ensures j == 0 ==> x == 0.0
    ensures 0 <= j ==> 0.0 <= x
  {
    PanelSpacing * j as real
  }

  /** Distinct images get groups at least one spacing apart, ordered as
      the images are. */
  lemma GroupsApart(j: int, k: int)
    requires j < k
    ensures GroupX(k) - GroupX(j) == PanelSpacing * (k - j) as real
    ensures GroupX(k) - GroupX(j) >= PanelSpacing
  { }

  /** The material of panel `i` of a group showing texture `t`: the first
      panel is opaque, every later one is transparent through the mask. */
  function LayerMaterial(t: Texture, mask: Texture, i: nat): (m: Material)
    ensures m.texture == t
    ensures i == 0 <==> Opaque(m)
    ensures 0 < i ==> m.alphaMap == Some(mask) && m.transparent
  {
    if i > 0 then Material(t, Some(mask), true) else Material(t, None, false)
  }

  /** The depth a panel is created at, `(i + 1) * 300`: panels further
      down the group sit further from the image plane, 300 apart. */
  function InitialDepth(i: nat): (z: real)
    ensures z >= 300.0
  {
    (i + 1) as real * 300.0
  }

  /** Consecutive panels are created 300 apart in depth. */
  lemma InitialDepthsApart(i: nat)
    ensures InitialDepth(i + 1) - InitialDepth(i) == 300.0
  { }

  /** A `THREE.Mesh`: a material fixed at creation and a depth the
      per-frame step rewrites. */
  class Mesh {
    const material: Material
    var z: real

    constructor (material: Material, z: real)
      ensures this.material == material && this.z == z
    {
      this.material := material;
      this.z := z;
    }
  }

  /** A `THREE.Group`: an x position, a rotation about x and y, and its
      children in the order they were added. */
  class Group {
    var x: real
    var rotX: real
    var rotY: real
    var children: seq<Mesh>

    /** A new group sits at the origin, unrotated and empty. */
    constructor ()
      ensures x == 0.0 && rotX == 0.0 && rotY == 0.0 && children == []
    {
      x, rotX, rotY, children := 0.0, 0.0, 0.0, [];
    }

    ghost function ChildSet(): set<Mesh>
      reads this`children
    {
      set m | m in children
    }

    /** No panel appears twice among the children. */
    ghost predicate DistinctChildren()
      reads this`children
    {
      forall i, j :: 0 <= i < j < |children| ==> children[i] != children[j]
    }

    /** The inner loop of the per-frame step: child `i` goes to depth
        `(i + 1) * 100 - osc * 200`. Only the children's depths change. */
    method PlaceLayers(osc: real)
      requires DistinctChildren()
      modifies ChildSet()`z
      ensures forall i :: 0 <= i < |children| ==> children[i].z == LayerDepth(i, osc)
    {
      var i := 0;
      while i < |children|
        invariant 0 <= i <= |children|
        invariant forall i' :: 0 <= i' < i ==> children[i'].z == LayerDepth(i', osc)
      {
        children[i].z := LayerDepth(i, osc);
        i := i + 1;
      }
    }

    /** One step of the `groups.forEach` of the per-frame step: set the
        rotation, then place the children. Nothing but the rotation and
        the children's depths changes. */
    method Pose(rx: real, ry: real, osc: real)
      requires DistinctChildren()
      modifies this`rotX, this`rotY, ChildSet()`z
      ensures rotX == rx && rotY == ry
      ensures forall i :: 0 <= i < |children| ==> children[i].z == LayerDepth(i, osc)
    {
      rotX := rx;
      rotY := ry;
      PlaceLayers(osc);
    }

    /** `group.add(mesh)`. */
    method Add(m: Mesh)
      modifies this`children
      ensures children == old(children) + [m]
    {
      children := children + [m];
    }
  }
}
