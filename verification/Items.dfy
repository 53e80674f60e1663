/**
  The records the demo is built from: textures as the loader delivers them,
  the textured plane ("item") made for each of them, and the faults that abort
  a callback. The constructor `NewMeshItem` is the mesh factory of
  src/meshItems.js with its geometry and shader programs left out.
*/
module Items {
  import opened Wrappers

  datatype Vec2 = Vec2(x: real, y: real)
  datatype Vec3 = Vec3(x: real, y: real, z: real)

  /** Decoded pixel dimensions of an image. */
  datatype Image = Image(width: real, height: real)

  /** A loaded texture; `image` is absent when the decoder produced none. */
  datatype Texture = Texture(source: string, image: Option<Image>)

  /** A progress animation requested on an item: the value it runs to and its length in seconds. */
  datatype Tween = Tween(target: real, duration: real)

  /**
    One textured plane. `width`/`height` are the plane geometry; `progress`,
    `size`, `textureSize`, `planeResolution` and `texture` are the shader
    uniforms; `tween` is the last progress animation started on it, if any.
  */
  datatype Item = Item(
    width: real,
    height: real,
    position: Vec3,
    texture: Option<Texture>,
    progress: real,
    size: Vec2,
    textureSize: Vec2,
    planeResolution: Vec2,
    tween: Option<Tween>)

  /** Why a callback of the demo aborted with an exception. */
  datatype Fault =
    | MissingImage(index: nat)   // a fallback item read `width` of an absent image
    | NoItem(section: int)       // a section was entered that has no item

  /** A fresh plane of the given size, untextured, at the origin, not yet revealed. */
  function NewMeshItem(w: real, h: real): (m: Item)
    ensures m.width == w && m.height == h
    ensures m.progress == 0.0 && m.tween == None
    ensures m.size == m.planeResolution == Vec2(w, h)
    ensures m.textureSize == Vec2(1.0, 1.0)
    ensures m.texture == None && m.position == Vec3(0.0, 0.0, 0.0)
  {
    Item(w, h, Vec3(0.0, 0.0, 0.0), None, 0.0, Vec2(w, h), Vec2(1.0, 1.0), Vec2(w, h), None)
  }
}
