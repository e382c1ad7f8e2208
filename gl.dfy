/**
 * The slice of the WebGL 1.0 API the demo calls, as values: enumerants, opaque
 * object handles, and one record per call. Operations of the model that talk to
 * the graphics context return the list of calls they would issue, in order,
 * instead of performing them.
 */
module Gl {

  /** A GLenum value. */
  type GlEnum = int

  /** A vertex attribute location, as returned by getAttribLocation (-1 when absent). */
  type AttribLocation = int

  // Enumerant values as the WebGL 1.0 / OpenGL ES 2.0 headers define them.
  const TRIANGLE_FAN: GlEnum := 0x0006
  const FLOAT: GlEnum := 0x1406
  const ARRAY_BUFFER: GlEnum := 0x8892
  const TEXTURE_2D: GlEnum := 0x0DE1
  const TEXTURE_MAG_FILTER: GlEnum := 0x2800
  const TEXTURE_MIN_FILTER: GlEnum := 0x2801
  const TEXTURE_WRAP_S: GlEnum := 0x2802
  const TEXTURE_WRAP_T: GlEnum := 0x2803
  const LINEAR: GlEnum := 0x2601
  const CLAMP_TO_EDGE: GlEnum := 0x812F
  const TEXTURE0: GlEnum := 0x84C0
  const TEXTURE1: GlEnum := 0x84C1
  const TEXTURE2: GlEnum := 0x84C2
  const TEXTURE3: GlEnum := 0x84C3
  const TEXTURE4: GlEnum := 0x84C4
  const TEXTURE5: GlEnum := 0x84C5
  const TEXTURE6: GlEnum := 0x84C6
  const TEXTURE7: GlEnum := 0x84C7

  /** Opaque handles handed out by createBuffer and createTexture. */
  datatype BufferHandle = BufferHandle(bufferId: nat)
  datatype TextureHandle = TextureHandle(textureId: nat)

  /** The uniform locations the sprite's draw uploads to. */
  datatype Uniform = ModelMatrix | FrameInfo

  /** One call into the graphics context. Matrix contents are not modelled. */
  datatype GlCall =
    | BindBuffer(target: GlEnum, buffer: BufferHandle)
    | VertexAttribPointer(index: AttribLocation, size: nat, componentType: GlEnum,
                          normalized: bool, stride: nat, offset: nat)
    | EnableVertexAttribArray(index: AttribLocation)
    | DrawArrays(mode: GlEnum, first: nat, count: nat)
    | ActiveTexture(textureUnit: GlEnum)
    | BindTexture(target: GlEnum, texture: TextureHandle)
    | GenerateMipmap(target: GlEnum)
    | TexParameteri(target: GlEnum, pname: GlEnum, param: GlEnum)
    | UniformMatrix4fv(location: Uniform)
    | Uniform2f(location: Uniform, x: real, y: real)
}
