/** The example's block palette (example/src/atlas.ts): which atlas layer each face of each voxel
    is drawn with, and which voxels are transparent. A `throw` is `None`. */
module Atlas {
  import opened Data

  /** The `Voxel` enum: the values stored in a chunk's voxel array. */
  const Air := 0
  const Dirt := 1
  const Glass := 2
  const Noise := 3
  const Digital := 4

  /** The `Texture` enum: the layers of the atlas, six of them. */
  const DirtTexture := 0
  const GrassTop := 1
  const GrassSide := 2
  const GlassTexture := 3
  const NoiseTexture := 4
  const DigitalTexture := 5
  const TextureCount := 6

  /** `getTexture(voxel, face, isTop)`: a dirt block with nothing above it is grass on top and on
      its sides; any voxel outside the enum, air included, throws. */
  function GetTexture(voxel: int, face: VoxelFace, isTop: bool): (r: Option<int>)
    ensures r.Some? <==> Dirt <= voxel <= Digital
    ensures r.Some? ==> 0 <= r.value < TextureCount
  {
    if voxel == Dirt then
      if isTop && face == Top then Some(GrassTop)
      else if isTop && face != Bottom then Some(GrassSide)
      else Some(DirtTexture)
    else if voxel == Glass then Some(GlassTexture)
    else if voxel == Noise then Some(NoiseTexture)
    else if voxel == Digital then Some(DigitalTexture)
    else None
  }

  /** `getTransparent(voxel)`. */
  function GetTransparent(voxel: int): (r: bool)
    ensures r <==> voxel == Glass
  {
    match voxel
    case 2 => true
    case _ => false
  }

  /** A dirt face is grass on top of an exposed block, grass on its four sides, and dirt otherwise
      (the bottom, or a block with something above it). */
  lemma DirtFaces(face: VoxelFace, isTop: bool)
    ensures GetTexture(Dirt, face, isTop) == Some(GrassTop) <==> isTop && face == Top
    ensures GetTexture(Dirt, face, isTop) == Some(GrassSide) <==> isTop && face != Top && face != Bottom
    ensures GetTexture(Dirt, face, isTop) == Some(DirtTexture) <==> !isTop || face == Bottom
  {
  }

  /** Glass, noise and digital blocks have one texture each, whatever the face and whatever is above. */
  lemma UniformFaces(voxel: int, face: VoxelFace, isTop: bool, face': VoxelFace, isTop': bool)
    requires voxel == Glass || voxel == Noise || voxel == Digital
    ensures GetTexture(voxel, face, isTop) == GetTexture(voxel, face', isTop')
    ensures GetTexture(voxel, face, isTop) == Some(voxel + 1)
  {
  }

  /** The one transparent voxel is drawn with the glass layer on every face. */
  lemma TransparentIsGlass(voxel: int, face: VoxelFace, isTop: bool)
    requires GetTransparent(voxel)
    ensures GetTexture(voxel, face, isTop) == Some(GlassTexture)
  {
  }

  /** Different voxels never share a texture layer, on any faces. */
  lemma TexturesDistinct(v: int, face: VoxelFace, isTop: bool, w: int, face': VoxelFace, isTop': bool)
    requires GetTexture(v, face, isTop).Some? && GetTexture(v, face, isTop) == GetTexture(w, face', isTop')
    ensures v == w
  {
  }
}
