/** The six face directions of a cube (models/core/face.rs). */
module Faces {

  datatype Face = Top | Bottom | Left | Right | Front | Back

  /** The order in which a mesh vertex lists its six texture rows. */
  const MeshFaceOrder: seq<Face> := [Front, Right, Back, Bottom, Left, Top]
}
