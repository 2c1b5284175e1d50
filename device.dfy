/** The graphics device as the context sees it: the live names of each resource kind,
    the framebuffer binding, the blend enable bit, and the log of every call made to it.
    Results the real driver decides (allocated names, status words, error codes, log
    text, pixel data, locations) are chosen nondeterministically, and each is recorded in
    the log entry of the call that produced it. */
module GLDevice {
  import opened GLTypes

  /** One call into the GL bindings, with the arguments that matter to the core and the
      answer the driver gave. */
  datatype Call =
    | Init(succeeded: bool)
    | EnableBlend
    | BlendFunc(mode: CompositeMode)
    | GetFramebufferBinding
    | GenTextures(texture: uint32)
    | PixelStorei
    | BindTexture(texture: uint32)
    | TexParameters
    | TexImage2D(width: int32, height: int32)
    | IsTexture(texture: uint32)
    | DeleteTextures(texture: uint32)
    | GenFramebuffers(framebuffer: uint32)
    | BindFramebuffer(framebuffer: uint32)
    | FramebufferTexture2D(texture: uint32)
    | CheckFramebufferStatus(completeness: uint32)
    | GetError(code: uint32)
    | IsFramebuffer(framebuffer: uint32)
    | DeleteFramebuffers(framebuffer: uint32)
    | Viewport(width: int32, height: int32)
    | Flush
    | ReadPixels(width: int32, height: int32, pixels: seq<byte>)
    | CreateShader(shaderType: ShaderType, shader: uint32)
    | ShaderSource(shader: uint32, source: string)
    | CompileShader(shader: uint32)
    | GetCompileStatus(shader: uint32, status: int32)
    | GetInfoLogLength(shader: uint32, length: int32)
    | GetShaderInfoLog(shader: uint32, length: int32, log: seq<byte>)
    | DeleteShader(shader: uint32)
    | CreateProgram(program: uint32)
    | AttachShader(program: uint32, shader: uint32)
    | LinkProgram(program: uint32)
    | GetLinkStatus(program: uint32, status: int32)
    | IsProgram(program: uint32)
    | DeleteProgram(program: uint32)
    | GetUniformLocation(program: uint32, name: string, location: int32)
    | GetAttribLocation(program: uint32, name: string, location: int32)

  /** How many calls in the log initialised the GL library successfully. */
  function InitSuccesses(calls: seq<Call>): nat {
    if calls == [] then 0
    else InitSuccesses(calls[..|calls| - 1]) + (if calls[|calls| - 1] == Init(true) then 1 else 0)
  }

  lemma InitSuccessesAppend(calls: seq<Call>, c: Call)
    ensures InitSuccesses(calls + [c]) == InitSuccesses(calls) + (if c == Init(true) then 1 else 0)
  {
    assert (calls + [c])[..|calls|] == calls;
  }

  class Device {
    var textures: set<uint32>
    var framebuffers: set<uint32>
    var shaders: set<uint32>
    var programs: set<uint32>
    /** The framebuffer currently bound; the windowing layer's surface until someone binds. */
    var boundFramebuffer: uint32
    var blendEnabled: bool
    var calls: seq<Call>
    /** How many `gl.Init` calls have succeeded; only `Init` changes it. */
    ghost var initSuccesses: nat

    constructor (screen: uint32)
      ensures textures == {} && framebuffers == {} && shaders == {} && programs == {}
      ensures boundFramebuffer == screen && !blendEnabled && calls == [] && initSuccesses == 0
    {
      textures, framebuffers, shaders, programs := {}, {}, {}, {};
      boundFramebuffer := screen;
      blendEnabled := false;
      calls := [];
      initSuccesses := 0;
    }

    /** Appends a call to the log. */
    method Record(c: Call)
      modifies this`calls
      ensures calls == old(calls) + [c]
    {
      calls := calls + [c];
    }

    /** `gl.Init`: loads the bindings; the driver decides whether that works. */
    method Init() returns (ok: bool)
      modifies this`calls, this`initSuccesses
      ensures calls == old(calls) + [Call.Init(ok)]
      ensures initSuccesses == old(initSuccesses) + (if ok then 1 else 0)
    {
      ok :| true;
      calls := calls + [Call.Init(ok)];
      if ok { initSuccesses := initSuccesses + 1; }
    }

    method EnableBlend()
      modifies this`calls, this`blendEnabled
      ensures calls == old(calls) + [Call.EnableBlend] && blendEnabled
    {
      Record(Call.EnableBlend);
      blendEnabled := true;
    }

    /** `gl.BlendFunc` with the factor pair of `mode`; that pair is resolved outside the core. */
    method BlendFunc(mode: CompositeMode)
      modifies this`calls
      ensures calls == old(calls) + [Call.BlendFunc(mode)]
    {
      Record(Call.BlendFunc(mode));
    }

    /** `glGetIntegerv(GL_FRAMEBUFFER_BINDING)`: the bound name, read as a signed integer. */
    method GetFramebufferBinding() returns (f: int32)
      modifies this`calls
      ensures calls == old(calls) + [Call.GetFramebufferBinding]
      ensures f == Int32Of(boundFramebuffer as int)
    {
      Record(Call.GetFramebufferBinding);
      f := Int32Of(boundFramebuffer as int);
    }

    /** `glGenTextures(1, &t)`: zero on failure, otherwise a name not in use, now live. */
    method GenTextures() returns (t: uint32)
      modifies this`calls, this`textures
      ensures calls == old(calls) + [Call.GenTextures(t)]
      ensures t != 0 ==> t !in old(textures) && textures == old(textures) + {t}
      ensures t == 0 ==> textures == old(textures)
    {
      t :| t == 0 || t !in textures;
      Record(Call.GenTextures(t));
      if t != 0 { textures := textures + {t}; }
    }

    method PixelStorei()
      modifies this`calls
      ensures calls == old(calls) + [Call.PixelStorei]
    {
      Record(Call.PixelStorei);
    }

    method BindTexture(t: uint32)
      modifies this`calls
      ensures calls == old(calls) + [Call.BindTexture(t)]
    {
      Record(Call.BindTexture(t));
    }

    /** The four fixed sampling parameters: nearest filtering, clamping at the edges. */
    method TexParameters()
      modifies this`calls
      ensures calls == old(calls) + [Call.TexParameters]
    {
      Record(Call.TexParameters);
    }

    /** Storage for the bound texture, with no initial pixels. */
    method TexImage2D(width: int32, height: int32)
      modifies this`calls
      ensures calls == old(calls) + [Call.TexImage2D(width, height)]
    {
      Record(Call.TexImage2D(width, height));
    }

    method IsTexture(t: uint32) returns (live: bool)
      modifies this`calls
      ensures calls == old(calls) + [Call.IsTexture(t)]
      ensures live == (t in textures)
    {
      Record(Call.IsTexture(t));
      live := t in textures;
    }

    method DeleteTextures(t: uint32)
      modifies this`calls, this`textures
      ensures calls == old(calls) + [Call.DeleteTextures(t)]
      ensures textures == old(textures) - {t}
    {
      Record(Call.DeleteTextures(t));
      textures := textures - {t};
    }

    /** `glGenFramebuffersEXT(1, &f)`: zero on failure, otherwise a name not in use, now live. */
    method GenFramebuffers() returns (f: uint32)
      modifies this`calls, this`framebuffers
      ensures calls == old(calls) + [Call.GenFramebuffers(f)]
      ensures f != 0 ==> f !in old(framebuffers) && framebuffers == old(framebuffers) + {f}
      ensures f == 0 ==> framebuffers == old(framebuffers)
    {
      f :| f == 0 || f !in framebuffers;
      Record(Call.GenFramebuffers(f));
      if f != 0 { framebuffers := framebuffers + {f}; }
    }

    method BindFramebuffer(f: uint32)
      modifies this`calls, this`boundFramebuffer
      ensures calls == old(calls) + [Call.BindFramebuffer(f)]
      ensures boundFramebuffer == f
    {
      Record(Call.BindFramebuffer(f));
      boundFramebuffer := f;
    }

    method FramebufferTexture2D(t: uint32)
      modifies this`calls
      ensures calls == old(calls) + [Call.FramebufferTexture2D(t)]
    {
      Record(Call.FramebufferTexture2D(t));
    }

    /** `glCheckFramebufferStatusEXT`: the driver's verdict on the bound framebuffer. */
    method CheckFramebufferStatus() returns (status: uint32)
      modifies this`calls
      ensures calls == old(calls) + [Call.CheckFramebufferStatus(status)]
    {
      status :| true;
      Record(Call.CheckFramebufferStatus(status));
    }

    /** `glGetError`: the driver's pending error code, `GL_NO_ERROR` when there is none. */
    method GetError() returns (code: uint32)
      modifies this`calls
      ensures calls == old(calls) + [Call.GetError(code)]
    {
      code :| true;
      Record(Call.GetError(code));
    }

    method IsFramebuffer(f: uint32) returns (live: bool)
      modifies this`calls
      ensures calls == old(calls) + [Call.IsFramebuffer(f)]
      ensures live == (f in framebuffers)
    {
      Record(Call.IsFramebuffer(f));
      live := f in framebuffers;
    }

    /** Deleting the bound framebuffer reverts the binding to the default framebuffer, zero. */
    method DeleteFramebuffers(f: uint32)
      modifies this`calls, this`framebuffers, this`boundFramebuffer
      ensures calls == old(calls) + [Call.DeleteFramebuffers(f)]
      ensures framebuffers == old(framebuffers) - {f}
      ensures boundFramebuffer == if old(boundFramebuffer) == f then 0 else old(boundFramebuffer)
    {
      Record(Call.DeleteFramebuffers(f));
      framebuffers := framebuffers - {f};
      if boundFramebuffer == f { boundFramebuffer := 0; }
    }

    method Viewport(width: int32, height: int32)
      modifies this`calls
      ensures calls == old(calls) + [Call.Viewport(width, height)]
    {
      Record(Call.Viewport(width, height));
    }

    method Flush()
      modifies this`calls
      ensures calls == old(calls) + [Call.Flush]
    {
      Record(Call.Flush);
    }

    /** `glReadPixels` into a buffer of `size` bytes; the bytes are the device's. */
    method ReadPixels(width: int32, height: int32, size: nat) returns (pixels: seq<byte>)
      modifies this`calls
      ensures calls == old(calls) + [Call.ReadPixels(width, height, pixels)]
      ensures |pixels| == size
    {
      assert |seq(size, _ => 0 as byte)| == size;
      pixels :| |pixels| == size;
      Record(Call.ReadPixels(width, height, pixels));
    }

    /** `glCreateShader`: zero on failure, otherwise a name not in use, now live. */
    method CreateShader(shaderType: ShaderType) returns (s: uint32)
      modifies this`calls, this`shaders
      ensures calls == old(calls) + [Call.CreateShader(shaderType, s)]
      ensures s != 0 ==> s !in old(shaders) && shaders == old(shaders) + {s}
      ensures s == 0 ==> shaders == old(shaders)
    {
      s :| s == 0 || s !in shaders;
      Record(Call.CreateShader(shaderType, s));
      if s != 0 { shaders := shaders + {s}; }
    }

    method ShaderSource(s: uint32, source: string)
      modifies this`calls
      ensures calls == old(calls) + [Call.ShaderSource(s, source)]
    {
      Record(Call.ShaderSource(s, source));
    }

    method CompileShader(s: uint32)
      modifies this`calls
      ensures calls == old(calls) + [Call.CompileShader(s)]
    {
      Record(Call.CompileShader(s));
    }

    /** `glGetShaderiv(GL_COMPILE_STATUS)`: `GL_FALSE` when compilation failed. */
    method GetCompileStatus(s: uint32) returns (status: int32)
      modifies this`calls
      ensures calls == old(calls) + [Call.GetCompileStatus(s, status)]
    {
      status :| true;
      Record(Call.GetCompileStatus(s, status));
    }

    /** `glGetShaderiv(GL_INFO_LOG_LENGTH)`: never negative. */
    method GetInfoLogLength(s: uint32) returns (length: int32)
      modifies this`calls
      ensures calls == old(calls) + [Call.GetInfoLogLength(s, length)]
      ensures length >= 0
    {
      length :| length >= 0;
      Record(Call.GetInfoLogLength(s, length));
    }

    /** `glGetShaderInfoLog` into a buffer of `length` bytes. */
    method GetShaderInfoLog(s: uint32, length: int32) returns (log: seq<byte>)
      requires length >= 0
      modifies this`calls
      ensures calls == old(calls) + [Call.GetShaderInfoLog(s, length, log)]
      ensures |log| == length as int
    {
      assert |seq(length as int, _ => 0 as byte)| == length as int;
      log :| |log| == length as int;
      Record(Call.GetShaderInfoLog(s, length, log));
    }

    method DeleteShader(s: uint32)
      modifies this`calls, this`shaders
      ensures calls == old(calls) + [Call.DeleteShader(s)]
      ensures shaders == old(shaders) - {s}
    {
      Record(Call.DeleteShader(s));
      shaders := shaders - {s};
    }

    /** `glCreateProgram`: zero on failure, otherwise a name not in use, now live. */
    method CreateProgram() returns (p: uint32)
      modifies this`calls, this`programs
      ensures calls == old(calls) + [Call.CreateProgram(p)]
      ensures p != 0 ==> p !in old(programs) && programs == old(programs) + {p}
      ensures p == 0 ==> programs == old(programs)
    {
      p :| p == 0 || p !in programs;
      Record(Call.CreateProgram(p));
      if p != 0 { programs := programs + {p}; }
    }

    method AttachShader(p: uint32, s: uint32)
      modifies this`calls
      ensures calls == old(calls) + [Call.AttachShader(p, s)]
    {
      Record(Call.AttachShader(p, s));
    }

    method LinkProgram(p: uint32)
      modifies this`calls
      ensures calls == old(calls) + [Call.LinkProgram(p)]
    {
      Record(Call.LinkProgram(p));
    }

    /** `glGetProgramiv(GL_LINK_STATUS)`: `GL_FALSE` when linking failed. */
    method GetLinkStatus(p: uint32) returns (status: int32)
      modifies this`calls
      ensures calls == old(calls) + [Call.GetLinkStatus(p, status)]
    {
      status :| true;
      Record(Call.GetLinkStatus(p, status));
    }

    method IsProgram(p: uint32) returns (live: bool)
      modifies this`calls
      ensures calls == old(calls) + [Call.IsProgram(p)]
      ensures live == (p in programs)
    {
      Record(Call.IsProgram(p));
      live := p in programs;
    }

    method DeleteProgram(p: uint32)
      modifies this`calls, this`programs
      ensures calls == old(calls) + [Call.DeleteProgram(p)]
      ensures programs == old(programs) - {p}
    {
      Record(Call.DeleteProgram(p));
      programs := programs - {p};
    }

    /** `glGetUniformLocation`: -1 when the program has no such uniform. */
    method GetUniformLocation(p: uint32, name: string) returns (location: int32)
      modifies this`calls
      ensures calls == old(calls) + [Call.GetUniformLocation(p, name, location)]
    {
      location :| true;
      Record(Call.GetUniformLocation(p, name, location));
    }

    /** `glGetAttribLocation`: -1 when the program has no such attribute. */
    method GetAttribLocation(p: uint32, name: string) returns (location: int32)
      modifies this`calls
      ensures calls == old(calls) + [Call.GetAttribLocation(p, name, location)]
    {
      location :| true;
      Record(Call.GetAttribLocation(p, name, location));
    }
  }
}
