/**
  The vocabulary of the scene script in main.cpp: the vector and Transformation
  records it builds, the parameter lists it hands to the renderer, and one
  constructor per renderer call it issues. Every renderer call is opaque; the
  model only records which call was made and with which arguments.
 */
module Commands {

  datatype Option<T> = None | Some(value: T)

  /** A pbrt::Vector3f. Components are mathematical reals: no float rounding. */
  datatype Vec3 = Vec3(x: real, y: real, z: real)
  {
    /** Component-wise multiplication by a scalar (Vector3f's operator*=). */
    function Times(s: real): Vec3
    {
      Vec3(x * s, y * s, z * s)
    }
  }

  /** The Transformation struct: a translation, a scale, and one rotation of
      `deg` degrees about the axis `rotate`. */
  datatype Transformation = Transformation(translate: Vec3, scale: Vec3, deg: real, rotate: Vec3)

  /** A default-constructed Transformation: no translation, unit scale, a
      rotation of 0 degrees about the x axis. */
  const DefaultTransformation := Transformation(Vec3(0.0, 0.0, 0.0), Vec3(1.0, 1.0, 1.0), 0.0, Vec3(1.0, 0.0, 0.0))

  /** The values one pbrt::ParamSet entry carries: the Add* call that made it
      and the values passed. */
  datatype ParamValue =
    | Floats(floats: seq<real>)
    | Ints(ints: seq<int>)
    | Strings(strings: seq<string>)
    | TextureRef(texture: string)

  datatype Param = Param(name: string, value: ParamValue)

  /** One call into the renderer API. */
  datatype Command =
    | Init
    | LookAt(eye: Vec3, look: Vec3, up: Vec3)
    | Camera(cameraKind: string, cameraParams: seq<Param>)
    | Film(filmKind: string, filmParams: seq<Param>)
    | Sampler(samplerKind: string, samplerParams: seq<Param>)
    | Integrator(integratorKind: string, integratorParams: seq<Param>)
    | TransformTimes(start: real, end: real)
    | WorldBegin
    | WorldEnd
    | AttributeBegin
    | AttributeEnd
    | ObjectBegin(objectName: string)
    | ObjectEnd
    | Translate(delta: Vec3)
    | Scale(factors: Vec3)
    | Rotate(angle: real, axis: Vec3)
    | NamedMaterial(materialName: string)
    | ParseFile(path: string)
    | ObjectInstance(instanceName: string)
    | Texture(textureName: string, textureType: string, textureClass: string, textureParams: seq<Param>)
    | MakeNamedMaterial(newMaterial: string, materialParams: seq<Param>)
    | LightSource(lightKind: string, lightParams: seq<Param>)
    | Cleanup
}
