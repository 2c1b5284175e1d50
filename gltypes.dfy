/** Machine integers, resource handles, sentinels, blend modes and errors shared
    by the OpenGL device model and the context that drives it. */
module GLTypes {

  newtype uint32 = x: int | 0 <= x < 0x1_0000_0000
  newtype int32 = x: int | -0x8000_0000 <= x < 0x8000_0000
  newtype byte = x: int | 0 <= x < 0x100

  const TwoTo32: int := 0x1_0000_0000

  /** Go's conversion `int32(x)`: keep the low 32 bits, read them as two's complement. */
  function Int32Of(x: int): (r: int32)
    ensures (r as int - x) % TwoTo32 == 0
    ensures -0x8000_0000 <= x < 0x8000_0000 ==> r as int == x
  {
    var m := x % TwoTo32;
    if m < 0x8000_0000 then m as int32 else (m - TwoTo32) as int32
  }

  /** Go's conversion `uint32(x)` (and `Framebuffer(f)` of an `int32`): keep the low 32 bits. */
  function Uint32Of(x: int): (r: uint32)
    ensures (r as int - x) % TwoTo32 == 0
    ensures 0 <= x < TwoTo32 ==> r as int == x
  {
    (x % TwoTo32) as uint32
  }

  /** A GL name read back through the signed `glGetIntegerv` and converted to an unsigned
      handle again is the name itself. */
  lemma Uint32OfInt32RoundTrip(x: uint32)
    ensures Uint32Of(Int32Of(x as int) as int) == x
  {
    var m := Int32Of(x as int) as int;
    assert m == x as int || m == x as int - TwoTo32;
  }

  // The handle kinds; each is a distinct type over the device's unsigned names.
  newtype Texture = x: uint32 | true
  newtype Framebuffer = x: uint32 | true
  newtype Shader = x: uint32 | true
  newtype Program = x: uint32 | true

  /** The invalid texture: zero is never a texture name. */
  const InvalidTexture: Texture := 0
  /** The invalid framebuffer is all ones, because zero names the default framebuffer. */
  const InvalidFramebuffer: Framebuffer := 0xFFFF_FFFF

  // Enumerants of the OpenGL API that the core compares against.
  const GL_FALSE: int32 := 0
  const GL_NO_ERROR: uint32 := 0
  const GL_FRAMEBUFFER_COMPLETE: uint32 := 0x8CD5

  /** The engine's composite modes. Only the two that this core names are spelled out;
      the rest of the graphics package's modes are told apart by an ordinal. */
  datatype CompositeMode = Unknown | SourceOver | Other(ordinal: nat)

  datatype ShaderType = VertexShader | FragmentShader

  datatype Option<T> = None | Some(value: T)

  /** The error values the core returns, one per `fmt.Errorf`/`errors.New` site. */
  datatype Error =
    | InitializingError
    | CreatingTextureFailed
    | CreatingFramebufferFailed
    | FramebufferStatus(status: uint32)
    | FramebufferGLError(code: uint32)
    | FramebufferUnknownError
    | ReadPixelsFailed(code: uint32)
    | CreateShaderFailed(shaderType: ShaderType)
    | ShaderCompileFailed(log: seq<byte>)
    | CreateProgramFailed
    | ProgramLinkFailed
}
