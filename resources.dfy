/** The creation protocols of the resource manager as sequences of device calls, the
    framebuffer error fallback, and the location checks. */
module Resources {
  import opened GLTypes
  import opened GLDevice

  /** The error `NewFramebuffer` reports for a status other than complete: the status word
      when it is nonzero, else the pending `glGetError` code when there is one, else an
      unknown error. `code` is consulted only when `status` is zero. */
  function IncompleteFramebufferError(status: uint32, code: uint32): (e: Error)
    requires status != GL_FRAMEBUFFER_COMPLETE
    ensures e.FramebufferStatus? <==> status != 0
    ensures e.FramebufferGLError? <==> status == 0 && code != GL_NO_ERROR
    ensures e.FramebufferUnknownError? <==> status == 0 && code == GL_NO_ERROR
    ensures e.FramebufferStatus? ==> e.status == status
    ensures e.FramebufferGLError? ==> e.code == code
  {
    if status != 0 then FramebufferStatus(status)
    else if code != GL_NO_ERROR then FramebufferGLError(code)
    else FramebufferUnknownError
  }

  /** The device binds an opaque bind routine may issue: none, or the one bind `c`. */
  function MaybeBind(issued: bool, c: Call): (calls: seq<Call>)
    ensures |calls| <= 1
  {
    if issued then [c] else []
  }

  /** The calls of `NewTexture(width, height)` when `glGenTextures` yields `name`. */
  function TextureCalls(name: uint32, width: int, height: int, bound: bool): seq<Call> {
    [Call.GenTextures(name)] +
    if name == 0 then []
    else
      [Call.PixelStorei] + MaybeBind(bound, Call.BindTexture(name)) +
      [Call.TexParameters, Call.TexImage2D(Int32Of(width), Int32Of(height))]
  }

  /** The calls of `NewFramebuffer(texture)` when `glGenFramebuffersEXT` yields `name`, the
      completeness check answers `status` and, if it is read, `glGetError` answers `code`. */
  function FramebufferCalls(name: uint32, texture: Texture, bound: bool, status: uint32, code: uint32): seq<Call> {
    [Call.GenFramebuffers(name)] +
    if name == 0 then []
    else
      MaybeBind(bound, Call.BindFramebuffer(name)) + CompletenessCalls(texture, status, code)
  }

  /** The calls of `NewFramebuffer`'s second unit of work: attach `texture`, check completeness
      and, for the zero status, read the pending error. */
  function CompletenessCalls(texture: Texture, status: uint32, code: uint32): seq<Call> {
    [Call.FramebufferTexture2D(texture as uint32), Call.CheckFramebufferStatus(status)] +
    (if status == 0 then [Call.GetError(code)] else [])
  }

  /** The calls of `FramebufferPixels(f, width, height)` when the read yields `data` and
      `glGetError` then answers `code`. */
  function PixelsCalls(f: Framebuffer, width: int, height: int, bound: bool, data: seq<byte>, code: uint32): seq<Call> {
    [Call.Flush] + MaybeBind(bound, Call.BindFramebuffer(f as uint32)) +
    [Call.ReadPixels(Int32Of(width), Int32Of(height), data), Call.GetError(code)]
  }

  /** The source text handed to the driver: NUL-terminated. */
  function CSource(source: string): (s: string)
    ensures |s| == |source| + 1 && s[..|source|] == source && s[|source|] == 0 as char
  {
    source + [0 as char]
  }

  /** The calls of `newShader(shaderType, source)` when `glCreateShader` yields `name`, the
      compile status is `status`, the reported info-log length is `logLength` and the log
      read back is `log`. */
  function ShaderCalls(shaderType: ShaderType, source: string, name: uint32, status: int32,
                       logLength: int32, log: seq<byte>): seq<Call> {
    [Call.CreateShader(shaderType, name)] +
    if name == 0 then []
    else
      [Call.ShaderSource(name, CSource(source)), Call.CompileShader(name), Call.GetCompileStatus(name, status)] +
      if status != GL_FALSE then [] else InfoLogCalls(name, logLength, log)
  }

  /** The calls that fetch a failed compilation's info log: the length query answering
      `logLength` and, for a nonzero length, the read that yields `log`. */
  function InfoLogCalls(name: uint32, logLength: int32, log: seq<byte>): seq<Call> {
    [Call.GetInfoLogLength(name, logLength)] +
    if logLength != 0 then [Call.GetShaderInfoLog(name, logLength, log)] else []
  }

  /** The info log is fetched only for a failed compilation whose reported length is nonzero. */
  lemma InfoLogFetchedOnlyWhenReported(shaderType: ShaderType, source: string, name: uint32, status: int32,
                                       logLength: int32, log: seq<byte>)
    ensures (exists c :: c in ShaderCalls(shaderType, source, name, status, logLength, log) && c.GetShaderInfoLog?)
        <==> name != 0 && status == GL_FALSE && logLength != 0
  {
    var calls := ShaderCalls(shaderType, source, name, status, logLength, log);
    if name != 0 && status == GL_FALSE && logLength != 0 {
      assert calls[|calls| - 1] == Call.GetShaderInfoLog(name, logLength, log);
    }
  }

  /** One `glAttachShader(program, s)` per shader. */
  function AttachCalls(program: uint32, shaders: seq<Shader>): (calls: seq<Call>)
    ensures |calls| == |shaders|
    decreases |shaders|
  {
    if shaders == [] then []
    else
      AttachCalls(program, shaders[..|shaders| - 1]) +
      [Call.AttachShader(program, shaders[|shaders| - 1] as uint32)]
  }

  /** The i-th attach call attaches the i-th shader: the order given is the order issued. */
  lemma {:induction false} AttachCallsInOrder(program: uint32, shaders: seq<Shader>, i: nat)
    requires i < |shaders|
    ensures AttachCalls(program, shaders)[i] == Call.AttachShader(program, shaders[i] as uint32)
    decreases |shaders|
  {
    if i < |shaders| - 1 {
      AttachCallsInOrder(program, shaders[..|shaders| - 1], i);
    }
  }

  /** The calls of `newProgram(shaders)` when `glCreateProgram` yields `name` and the link
      status is `status`. */
  function ProgramCalls(name: uint32, shaders: seq<Shader>, status: int32): seq<Call> {
    [Call.CreateProgram(name)] +
    if name == 0 then []
    else AttachCalls(name, shaders) + [Call.LinkProgram(name), Call.GetLinkStatus(name, status)]
  }

  /** Every given shader is attached, in order, after the program is created and before it is linked. */
  lemma AttachesPrecedeLink(name: uint32, shaders: seq<Shader>, status: int32)
    requires name != 0
    ensures |ProgramCalls(name, shaders, status)| == |shaders| + 3
    ensures ProgramCalls(name, shaders, status)[0] == Call.CreateProgram(name)
    ensures forall i | 0 <= i < |shaders| ::
              ProgramCalls(name, shaders, status)[i + 1] == Call.AttachShader(name, shaders[i] as uint32)
    ensures ProgramCalls(name, shaders, status)[|shaders| + 1] == Call.LinkProgram(name)
  {
    var attaches := AttachCalls(name, shaders);
    var calls := ProgramCalls(name, shaders, status);
    assert calls == [Call.CreateProgram(name)] + attaches + [Call.LinkProgram(name), Call.GetLinkStatus(name, status)];
    forall i | 0 <= i < |shaders|
      ensures calls[i + 1] == Call.AttachShader(name, shaders[i] as uint32)
    {
      assert calls[i + 1] == attaches[i];
      AttachCallsInOrder(name, shaders, i);
    }
  }

  /** A location lookup: the location, or the panic that ends the program. */
  datatype Lookup = Location(value: int32) | Panic(message: string)

  /** The panic messages of `getUniformLocationImpl` and `getAttribLocationImpl`; the name follows. */
  const UniformPanicPrefix: string := "opengl: invalid uniform location: "
  const AttribPanicPrefix: string := "opengl: invalid attrib location: "

  /** A location lookup on the driver's answer `raw`: -1 is fatal, never returned, and the
      panic message is `prefix` followed by the name looked up. */
  function LocationOrPanic(prefix: string, name: string, raw: int32): (r: Lookup)
    ensures r.Location? <==> raw != -1
    ensures r.Location? ==> r.value == raw
    ensures r.Panic? ==> r.message == prefix + name
  {
    if raw == -1 then Panic(prefix + name) else Location(raw)
  }
}
