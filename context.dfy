/** The desktop OpenGL context: the cache of device state it mirrors, and the operations
    that consult and update that cache while driving the device. Work the Go code hands to
    the main thread runs here as a direct call; the error such a unit returns is what the
    operation returns. */
module OpenGL {
  import opened GLTypes
  import opened GLDevice
  import opened StateCache
  import opened Resources

  class Context {
    const device: Device
    var init: bool
    var lastTexture: Texture
    var lastFramebuffer: Framebuffer
    var lastViewportWidth: int
    var lastViewportHeight: int
    var lastCompositeMode: CompositeMode
    var screenFramebuffer: Framebuffer

    /** Zero is never a live name of a kind the context allocates, and `init` records whether
        the one successful `gl.Init` in the device's history has happened: there is never a second. */
    ghost predicate Valid()
      reads this, device
    {
      0 !in device.textures && 0 !in device.framebuffers && 0 !in device.shaders && 0 !in device.programs &&
      device.initSuccesses <= 1 && (init <==> device.initSuccesses == 1)
    }

    /** `Init`: a zero-valued context on a device whose library is not yet initialised. The zero
        value of the graphics package's composite mode is not part of this model. */
    constructor (d: Device)
      requires 0 !in d.textures && 0 !in d.framebuffers && 0 !in d.shaders && 0 !in d.programs
      requires d.initSuccesses == 0
      ensures Valid() && device == d
      ensures !init && lastTexture == 0 && lastFramebuffer == 0 && screenFramebuffer == 0
      ensures lastViewportWidth == 0 && lastViewportHeight == 0
    {
      device := d;
      init := false;
      lastTexture, lastFramebuffer, screenFramebuffer := 0, 0, 0;
      lastViewportWidth, lastViewportHeight := 0, 0;
      var zero: CompositeMode :| true;
      lastCompositeMode := zero;
    }

    /** The first unit of work of `reset`: `gl.Init`, unless an earlier `reset` succeeded at it. */
    method InitOnce() returns (err: Option<Error>)
      requires Valid()
      modifies this`init, device`calls, device`initSuccesses
      ensures Valid()
      ensures device.calls == old(device.calls) + InitGuardCalls(old(init), err.None?)
      ensures old(init) ==> err.None?
      ensures err.Some? ==> err.value == InitializingError && !init
      ensures err.None? ==> init
    {
      if init {
        return None;
      }
      var ok := device.Init();
      if !ok {
        return Some(InitializingError);
      }
      init := true;
      err := None;
    }

    /** `reset`: initialise the library once, then reset the cache to its sentinels, enable
        blending, apply source-over through the short-circuiting path, and record the screen
        framebuffer. A failed initialisation returns before anything else changes. */
    method Reset() returns (err: Option<Error>)
      requires Valid()
      modifies this, device`calls, device`initSuccesses, device`blendEnabled
      ensures Valid()
      ensures device.calls == old(device.calls) + InitGuardCalls(old(init), err.None?) +
                              (if err.None? then ResetCalls() else [])
      ensures old(init) ==> err.None?
      ensures err.Some? ==> err.value == InitializingError && !init && unchanged(this)
      ensures err.Some? ==> device.blendEnabled == old(device.blendEnabled)
      ensures err.None? ==> init && device.blendEnabled
      ensures err.None? ==> lastTexture == InvalidTexture && lastFramebuffer == InvalidFramebuffer
      ensures err.None? ==> lastViewportWidth == 0 && lastViewportHeight == 0
      ensures err.None? ==> lastCompositeMode == SourceOver
      ensures err.None? ==> screenFramebuffer as uint32 == device.boundFramebuffer
    {
      err := InitOnce();
      if err.Some? {
        return;
      }
      ResetCache();
    }

    /** The rest of `reset` once the library is initialised: sentinels, blending, source-over,
        and the screen framebuffer read back from the current binding. */
    method ResetCache()
      requires Valid()
      modifies this`lastTexture, this`lastFramebuffer, this`lastViewportWidth, this`lastViewportHeight
      modifies this`lastCompositeMode, this`screenFramebuffer, device`calls, device`blendEnabled
      ensures Valid() && device.blendEnabled
      ensures device.calls == old(device.calls) + ResetCalls()
      ensures lastTexture == InvalidTexture && lastFramebuffer == InvalidFramebuffer
      ensures lastViewportWidth == 0 && lastViewportHeight == 0
      ensures lastCompositeMode == SourceOver
      ensures screenFramebuffer as uint32 == device.boundFramebuffer
    {
      ClearCache();
      device.EnableBlend();
      BlendFunc(SourceOver);
      var f := device.GetFramebufferBinding();
      Uint32OfInt32RoundTrip(device.boundFramebuffer);
      screenFramebuffer := Uint32Of(f as int) as Framebuffer;
    }

    /** The sentinel values `reset` stores before touching the device. */
    method ClearCache()
      modifies this`lastTexture, this`lastFramebuffer, this`lastViewportWidth, this`lastViewportHeight
      modifies this`lastCompositeMode
      ensures lastTexture == InvalidTexture && lastFramebuffer == InvalidFramebuffer
      ensures lastViewportWidth == 0 && lastViewportHeight == 0
      ensures lastCompositeMode == Unknown
    {
      lastTexture := InvalidTexture;
      lastFramebuffer := InvalidFramebuffer;
      lastViewportWidth := 0;
      lastViewportHeight := 0;
      lastCompositeMode := Unknown;
    }

    /** `BlendFunc`: the device is told only when the mode differs from the cached one. */
    method BlendFunc(mode: CompositeMode)
      requires Valid()
      modifies this`lastCompositeMode, device`calls
      ensures Valid() && lastCompositeMode == mode
      ensures device.calls == old(device.calls) + BlendCalls(old(lastCompositeMode), mode)
    {
      if lastCompositeMode == mode {
        return;
      }
      lastCompositeMode := mode;
      device.BlendFunc(mode);
    }

    method BindTextureImpl(t: Texture)
      requires Valid()
      modifies device`calls
      ensures Valid() && device.calls == old(device.calls) + [Call.BindTexture(t as uint32)]
    {
      device.BindTexture(t as uint32);
    }

    method BindFramebufferImpl(f: Framebuffer)
      requires Valid()
      modifies device`calls, device`boundFramebuffer
      ensures Valid() && device.calls == old(device.calls) + [Call.BindFramebuffer(f as uint32)]
      ensures device.boundFramebuffer == f as uint32
    {
      device.BindFramebuffer(f as uint32);
    }

    method SetViewportImpl(width: int, height: int)
      requires Valid()
      modifies device`calls
      ensures Valid()
      ensures device.calls == old(device.calls) + [Call.Viewport(Int32Of(width), Int32Of(height))]
    {
      device.Viewport(Int32Of(width), Int32Of(height));
    }

    /** `BindTexture` is the shared context's, outside this file. Only its footprint is kept:
        at most the one device bind of `t`, and an unknown cached texture afterwards. */
    method BindTexture(t: Texture) returns (ghost issued: bool)
      requires Valid()
      modifies this`lastTexture, device`calls
      ensures Valid()
      ensures device.calls == old(device.calls) + MaybeBind(issued, Call.BindTexture(t as uint32))
    {
      var issue: bool :| true;
      issued := issue;
      if issue {
        BindTextureImpl(t);
      }
      var cached: Texture :| true;
      lastTexture := cached;
    }

    /** `bindFramebuffer` is the shared context's, outside this file. Only its footprint is kept:
        at most the one device bind of `f`, and an unknown cached framebuffer and viewport. */
    method BindFramebuffer(f: Framebuffer) returns (ghost issued: bool)
      requires Valid()
      modifies this`lastFramebuffer, this`lastViewportWidth, this`lastViewportHeight
      modifies device`calls, device`boundFramebuffer
      ensures Valid()
      ensures device.calls == old(device.calls) + MaybeBind(issued, Call.BindFramebuffer(f as uint32))
      ensures device.boundFramebuffer == if issued then f as uint32 else old(device.boundFramebuffer)
    {
      var issue: bool :| true;
      issued := issue;
      if issue {
        BindFramebufferImpl(f);
      }
      var cached: Framebuffer :| true;
      var width: int :| true;
      var height: int :| true;
      lastFramebuffer, lastViewportWidth, lastViewportHeight := cached, width, height;
    }

    /** `NewTexture`: a fresh live name and no error, or handle 0 with an error and no further
        device call when allocation yields zero. */
    method NewTexture(width: int, height: int) returns (t: Texture, err: Option<Error>, ghost name: uint32, ghost bound: bool)
      requires Valid()
      modifies this`lastTexture, device`calls, device`textures
      ensures Valid()
      ensures device.calls == old(device.calls) + TextureCalls(name, width, height, bound)
      ensures err.Some? <==> name == 0
      ensures err.Some? ==> err.value == CreatingTextureFailed && t == 0
      ensures err.Some? ==> unchanged(this) && device.textures == old(device.textures)
      ensures err.None? ==> t as uint32 == name && t != InvalidTexture
      ensures err.None? ==> name !in old(device.textures) && device.textures == old(device.textures) + {name}
    {
      ghost var before := device.calls;
      var n := device.GenTextures();
      name, bound := n, false;
      if n <= 0 {
        assert TextureCalls(name, width, height, bound) == [Call.GenTextures(name)];
        return 0, Some(CreatingTextureFailed), name, bound;
      }
      device.PixelStorei();
      t := n as Texture;
      bound := BindTexture(t);
      ghost var bindCalls := MaybeBind(bound, Call.BindTexture(n));
      device.TexParameters();
      device.TexImage2D(Int32Of(width), Int32Of(height));
      assert device.calls == before + ([Call.GenTextures(n), Call.PixelStorei] + bindCalls +
                                       [Call.TexParameters, Call.TexImage2D(Int32Of(width), Int32Of(height))]);
      err := None;
    }

    /** `DeleteTexture`: nothing but the liveness query for a dead name; for a live one, the
        name is deleted and a cache entry naming it is reset, so a later bind is not skipped. */
    method DeleteTexture(t: Texture)
      requires Valid()
      modifies this`lastTexture, device`calls, device`textures
      ensures Valid()
      ensures device.textures == old(device.textures) - {t as uint32}
      ensures t as uint32 !in old(device.textures) ==>
                device.calls == old(device.calls) + [Call.IsTexture(t as uint32)] && unchanged(this)
      ensures t as uint32 in old(device.textures) ==>
                device.calls == old(device.calls) + [Call.IsTexture(t as uint32), Call.DeleteTextures(t as uint32)]
      ensures t as uint32 in old(device.textures) ==>
                lastTexture == (if old(lastTexture) == t then InvalidTexture else old(lastTexture)) &&
                lastTexture != t
    {
      var live := device.IsTexture(t as uint32);
      if !live {
        return;
      }
      if lastTexture == t {
        lastTexture := InvalidTexture;
      }
      device.DeleteTextures(t as uint32);
    }

    /** `IsTexture`: whether the name is a live texture. */
    method IsTexture(t: Texture) returns (live: bool)
      requires Valid()
      modifies device`calls
      ensures Valid() && device.calls == old(device.calls) + [Call.IsTexture(t as uint32)]
      ensures live <==> t as uint32 in device.textures
    {
      live := device.IsTexture(t as uint32);
    }

    /** `BindScreenFramebuffer`: bind the framebuffer `reset` recorded as the screen's. */
    method BindScreenFramebuffer() returns (ghost issued: bool)
      requires Valid()
      modifies this`lastFramebuffer, this`lastViewportWidth, this`lastViewportHeight
      modifies device`calls, device`boundFramebuffer
      ensures Valid()
      ensures device.calls == old(device.calls) + MaybeBind(issued, Call.BindFramebuffer(screenFramebuffer as uint32))
      ensures device.boundFramebuffer == if issued then screenFramebuffer as uint32 else old(device.boundFramebuffer)
    {
      issued := BindFramebuffer(screenFramebuffer);
    }

    /** `NewFramebuffer`: allocate, bind, attach `texture`, check completeness. Only a complete
        framebuffer's name is returned; every failure returns handle 0 with its error. */
    method NewFramebuffer(texture: Texture)
      returns (f: Framebuffer, err: Option<Error>, ghost name: uint32, ghost bound: bool, ghost status: uint32, ghost code: uint32)
      requires Valid()
      modifies this`lastFramebuffer, this`lastViewportWidth, this`lastViewportHeight
      modifies device`calls, device`framebuffers, device`boundFramebuffer
      ensures Valid()
      ensures device.calls == old(device.calls) + FramebufferCalls(name, texture, bound, status, code)
      ensures err.Some? ==> f == 0
      ensures name == 0 ==> err == Some(CreatingFramebufferFailed) && unchanged(this)
      ensures name == 0 ==> device.framebuffers == old(device.framebuffers)
      ensures name == 0 ==> device.boundFramebuffer == old(device.boundFramebuffer)
      ensures name != 0 ==> device.boundFramebuffer == if bound then name else old(device.boundFramebuffer)
      ensures name != 0 ==> name !in old(device.framebuffers) && device.framebuffers == old(device.framebuffers) + {name}
      ensures name != 0 && status != GL_FRAMEBUFFER_COMPLETE ==> err == Some(IncompleteFramebufferError(status, code))
      ensures name != 0 && status == GL_FRAMEBUFFER_COMPLETE ==> err.None? && f as uint32 == name
    {
      var n := device.GenFramebuffers();
      name, bound, status, code := n, false, 0, GL_NO_ERROR;
      if n <= 0 {
        return 0, Some(CreatingFramebufferFailed), name, bound, status, code;
      }
      bound := BindFramebuffer(n as Framebuffer);
      err, status, code := AttachAndCheck(texture);
      f := if err.None? then n as Framebuffer else 0;
    }

    /** The second unit of work of `NewFramebuffer`: attach `texture` to the bound framebuffer
        and check completeness; an incomplete one is reported by the three-tier fallback. */
    method AttachAndCheck(texture: Texture) returns (err: Option<Error>, ghost status: uint32, ghost code: uint32)
      requires Valid()
      modifies device`calls
      ensures Valid()
      ensures device.calls == old(device.calls) + CompletenessCalls(texture, status, code)
      ensures err.None? <==> status == GL_FRAMEBUFFER_COMPLETE
      ensures err.Some? ==> err.value == IncompleteFramebufferError(status, code)
    {
      device.FramebufferTexture2D(texture as uint32);
      var s := device.CheckFramebufferStatus();
      status, code := s, GL_NO_ERROR;
      if s != GL_FRAMEBUFFER_COMPLETE {
        if s != 0 {
          return Some(FramebufferStatus(s)), status, code;
        }
        var e := device.GetError();
        code := e;
        if e != GL_NO_ERROR {
          return Some(FramebufferGLError(e)), status, code;
        }
        return Some(FramebufferUnknownError), status, code;
      }
      err := None;
    }

    /** `DeleteFramebuffer`: nothing but the liveness query for a dead name; deleting the cached
        framebuffer also forgets the viewport, so the next bind re-applies it. */
    method DeleteFramebuffer(f: Framebuffer)
      requires Valid()
      modifies this`lastFramebuffer, this`lastViewportWidth, this`lastViewportHeight
      modifies device`calls, device`framebuffers, device`boundFramebuffer
      ensures Valid()
      ensures device.framebuffers == old(device.framebuffers) - {f as uint32}
      ensures f as uint32 !in old(device.framebuffers) ==>
                device.calls == old(device.calls) + [Call.IsFramebuffer(f as uint32)] &&
                unchanged(this) && device.boundFramebuffer == old(device.boundFramebuffer)
      ensures f as uint32 in old(device.framebuffers) ==>
                device.calls == old(device.calls) + [Call.IsFramebuffer(f as uint32), Call.DeleteFramebuffers(f as uint32)]
      ensures f as uint32 in old(device.framebuffers) ==>
                device.boundFramebuffer == if old(device.boundFramebuffer) == f as uint32 then 0 else old(device.boundFramebuffer)
      ensures f as uint32 in old(device.framebuffers) && old(lastFramebuffer) == f ==>
                lastFramebuffer == InvalidFramebuffer && lastViewportWidth == 0 && lastViewportHeight == 0
      ensures f as uint32 in old(device.framebuffers) && old(lastFramebuffer) != f ==> unchanged(this)
    {
      var live := device.IsFramebuffer(f as uint32);
      if !live {
        return;
      }
      if lastFramebuffer == f {
        lastFramebuffer := InvalidFramebuffer;
        lastViewportWidth := 0;
        lastViewportHeight := 0;
      }
      device.DeleteFramebuffers(f as uint32);
    }

    /** `FramebufferPixels`: flush, bind `f`, read `4 * width * height` bytes; a pending GL
        error after the read discards them and is returned. Go's `make` panics on a negative
        length, which the precondition rules out. */
    method FramebufferPixels(f: Framebuffer, width: int, height: int)
      returns (pixels: seq<byte>, err: Option<Error>, ghost bound: bool, ghost data: seq<byte>, ghost code: uint32)
      requires Valid() && 4 * width * height >= 0
      modifies this`lastFramebuffer, this`lastViewportWidth, this`lastViewportHeight
      modifies device`calls, device`boundFramebuffer
      ensures Valid()
      ensures device.calls == old(device.calls) + PixelsCalls(f, width, height, bound, data, code)
      ensures device.boundFramebuffer == if bound then f as uint32 else old(device.boundFramebuffer)
      ensures err.Some? <==> code != GL_NO_ERROR
      ensures err.Some? ==> pixels == [] && err.value == ReadPixelsFailed(code)
      ensures |data| == 4 * width * height
      ensures err.None? ==> pixels == data
    {
      device.Flush();
      bound := BindFramebuffer(f);
      var size: nat := 4 * width * height;
      pixels := device.ReadPixels(Int32Of(width), Int32Of(height), size);
      data := pixels;
      var e := device.GetError();
      code := e;
      if e != GL_NO_ERROR {
        return [], Some(ReadPixelsFailed(e)), bound, data, code;
      }
      err := None;
    }

    /** `newShader`: create, upload the NUL-terminated source, compile. A zero name or a false
        compile status gives handle 0 and an error; the compile error carries the info log,
        fetched only when its reported length is nonzero. */
    method NewShader(shaderType: ShaderType, source: string)
      returns (s: Shader, err: Option<Error>, ghost name: uint32, ghost status: int32, ghost logLength: int32,
               ghost infoLog: seq<byte>)
      requires Valid()
      modifies device`calls, device`shaders
      ensures Valid()
      ensures device.calls == old(device.calls) + ShaderCalls(shaderType, source, name, status, logLength, infoLog)
      ensures err.Some? ==> s == 0
      ensures name == 0 ==> err == Some(CreateShaderFailed(shaderType)) && device.shaders == old(device.shaders)
      ensures name != 0 ==> name !in old(device.shaders) && device.shaders == old(device.shaders) + {name}
      ensures name != 0 && status == GL_FALSE ==>
                err == Some(ShaderCompileFailed(infoLog)) && |infoLog| == logLength as int
      ensures name != 0 && status != GL_FALSE ==> err.None? && s as uint32 == name
    {
      ghost var before := device.calls;
      var n := device.CreateShader(shaderType);
      name, status, logLength, infoLog := n, GL_FALSE, 0, [];
      if n == 0 {
        assert ShaderCalls(shaderType, source, name, status, logLength, infoLog) == [Call.CreateShader(shaderType, n)];
        return 0, Some(CreateShaderFailed(shaderType)), name, status, logLength, infoLog;
      }
      device.ShaderSource(n, CSource(source));
      device.CompileShader(n);
      var v := device.GetCompileStatus(n);
      status := v;
      ghost var compiled := [Call.CreateShader(shaderType, n), Call.ShaderSource(n, CSource(source)),
                             Call.CompileShader(n), Call.GetCompileStatus(n, v)];
      assert device.calls == before + compiled;
      if v == GL_FALSE {
        var log;
        log, logLength := InfoLog(n);
        infoLog := log;
        return 0, Some(ShaderCompileFailed(log)), name, status, logLength, infoLog;
      }
      assert ShaderCalls(shaderType, source, name, status, logLength, infoLog) == compiled;
      s := n as Shader;
      err := None;
    }

    /** The info log of shader `n` after a failed compilation: empty when the reported length
        is zero, else that many bytes read back from the driver. */
    method InfoLog(n: uint32) returns (log: seq<byte>, ghost logLength: int32)
      requires Valid()
      modifies device`calls
      ensures Valid()
      ensures device.calls == old(device.calls) + InfoLogCalls(n, logLength, log)
      ensures |log| == logLength as int
    {
      var length := device.GetInfoLogLength(n);
      logLength := length;
      log := [];
      if length != 0 {
        log := device.GetShaderInfoLog(n, length);
      }
    }

    /** `deleteShader`: unconditional. */
    method DeleteShader(s: Shader)
      requires Valid()
      modifies device`calls, device`shaders
      ensures Valid()
      ensures device.calls == old(device.calls) + [Call.DeleteShader(s as uint32)]
      ensures device.shaders == old(device.shaders) - {s as uint32}
    {
      device.DeleteShader(s as uint32);
    }

    /** The attach loop of `newProgram`: one `glAttachShader` per shader, in order. */
    method AttachShaders(p: uint32, shaders: seq<Shader>)
      requires Valid()
      modifies device`calls
      ensures Valid()
      ensures device.calls == old(device.calls) + AttachCalls(p, shaders)
    {
      for i := 0 to |shaders|
        invariant device.calls == old(device.calls) + AttachCalls(p, shaders[..i])
      {
        assert shaders[..i + 1][..i] == shaders[..i];
        device.AttachShader(p, shaders[i] as uint32);
      }
      assert shaders[..|shaders|] == shaders;
    }

    /** `newProgram`: create, attach every shader in order, link. A zero name or a false link
        status gives handle 0 and an error. */
    method NewProgram(shaders: seq<Shader>) returns (p: Program, err: Option<Error>, ghost name: uint32, ghost status: int32)
      requires Valid()
      modifies device`calls, device`programs
      ensures Valid()
      ensures device.calls == old(device.calls) + ProgramCalls(name, shaders, status)
      ensures err.Some? ==> p == 0
      ensures name == 0 ==> err == Some(CreateProgramFailed) && device.programs == old(device.programs)
      ensures name != 0 ==> name !in old(device.programs) && device.programs == old(device.programs) + {name}
      ensures name != 0 && status == GL_FALSE ==> err == Some(ProgramLinkFailed)
      ensures name != 0 && status != GL_FALSE ==> err.None? && p as uint32 == name
    {
      ghost var before := device.calls;
      var n := device.CreateProgram();
      name, status := n, GL_FALSE;
      if n == 0 {
        assert ProgramCalls(name, shaders, status) == [Call.CreateProgram(n)];
        return 0, Some(CreateProgramFailed), name, status;
      }
      AttachShaders(n, shaders);
      device.LinkProgram(n);
      var v := device.GetLinkStatus(n);
      status := v;
      assert device.calls == before + ([Call.CreateProgram(n)] + AttachCalls(n, shaders) +
                                       [Call.LinkProgram(n), Call.GetLinkStatus(n, v)]);
      if v == GL_FALSE {
        return 0, Some(ProgramLinkFailed), name, status;
      }
      p := n as Program;
      err := None;
    }

    /** `deleteProgram`: nothing but the liveness query for a dead name. */
    method DeleteProgram(p: Program)
      requires Valid()
      modifies device`calls, device`programs
      ensures Valid()
      ensures device.programs == old(device.programs) - {p as uint32}
      ensures p as uint32 !in old(device.programs) ==> device.calls == old(device.calls) + [Call.IsProgram(p as uint32)]
      ensures p as uint32 in old(device.programs) ==>
                device.calls == old(device.calls) + [Call.IsProgram(p as uint32), Call.DeleteProgram(p as uint32)]
    {
      var live := device.IsProgram(p as uint32);
      if !live {
        return;
      }
      device.DeleteProgram(p as uint32);
    }

    /** `getUniformLocationImpl`: one query with the NUL-terminated name; the not-found answer is a panic, not a location. */
    method GetUniformLocationImpl(p: Program, name: string) returns (r: Lookup, ghost raw: int32)
      requires Valid()
      modifies device`calls
      ensures Valid()
      ensures device.calls == old(device.calls) + [Call.GetUniformLocation(p as uint32, CSource(name), raw)]
      ensures r == LocationOrPanic(UniformPanicPrefix, name, raw)
      ensures r.Location? ==> r.value != -1
    {
      var l := device.GetUniformLocation(p as uint32, CSource(name));
      raw := l;
      if l == -1 {
        return Panic(UniformPanicPrefix + name), raw;
      }
      r := Location(l);
    }

    /** `getAttribLocationImpl`: one query with the NUL-terminated name; the not-found answer is a panic, not a location. */
    method GetAttribLocationImpl(p: Program, name: string) returns (r: Lookup, ghost raw: int32)
      requires Valid()
      modifies device`calls
      ensures Valid()
      ensures device.calls == old(device.calls) + [Call.GetAttribLocation(p as uint32, CSource(name), raw)]
      ensures r == LocationOrPanic(AttribPanicPrefix, name, raw)
      ensures r.Location? ==> r.value != -1
    {
      var l := device.GetAttribLocation(p as uint32, CSource(name));
      raw := l;
      if l == -1 {
        return Panic(AttribPanicPrefix + name), raw;
      }
      r := Location(l);
    }
  }
}
