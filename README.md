# Desktop OpenGL context of ebiten, modelled in Dafny

ebiten's desktop OpenGL `Context` puts a small cache of device state in front of the GL
driver. The cache holds:
- whether the library has been initialised;
- the last bound texture and framebuffer;
- the last viewport size;
- the last composite (blend) mode;
- the framebuffer that belongs to the screen.

The context consults the cache to skip redundant driver calls and resets entries when
resources are deleted. It also runs the creation protocols for textures, framebuffers,
shaders and programs. Each protocol allocates a name, checks the driver's verdict, and
returns either a handle or an error, never both.

This project models that cache and those protocols as imperative Dafny:

- `GLTypes` (`gltypes.dfy`) holds the shared values:
  - the 32-bit machine integers;
  - Go's wrapping conversions `int32(x)` and `uint32(x)`;
  - the handle kinds;
  - the two sentinels, `InvalidTexture` = 0 and `InvalidFramebuffer` = 2^32 - 1;
  - the GL enumerants compared against;
  - the composite modes and the error values.
- `GLDevice` (`device.dfy`) is the graphics driver as the context sees it. It is a class
  holding:
  - the set of live names of each resource kind;
  - the bound framebuffer;
  - the blend enable bit;
  - a count of successful initialisations;
  - the log of every call made to it.

  Whatever the driver decides is chosen nondeterministically. That covers allocated names,
  status words, error codes, info logs, pixel bytes and locations. Each answer is recorded
  in the log entry of the call that produced it. So, when a contract states the log, it
  also ties every status, code or location it speaks of to what the driver actually said.
  A generated name counts as live
  from the moment it is generated; "Left out" says how this differs from GL.
- `StateCache` (`statecache.dfy`) holds pure functions for the calls the cache lets through:
  - the blend short-circuit;
  - the initialisation guard;
  - the tail of `reset`.

  It also holds the lemmas about runs of those calls: one blend call per change of mode,
  and at most one successful initialisation however many times `reset` runs.
- `Resources` (`resources.dfy`) holds the call sequence of each creation protocol as a
  function of the driver's answers. It also holds the framebuffer error fallback and the
  location checks.
- `OpenGL` (`context.dfy`) is the `Context` class itself. Its fields are the cache, and
  its methods are the operations. Every method states:
  - exactly which driver calls it appends to the log;
  - what it returns;
  - what the cache and the live-name sets are afterwards.

  Each Go closure handed to the main thread is a direct call here; its error is the
  operation's error. The larger closures have methods of their own: `InitOnce`,
  `ResetCache`, `AttachAndCheck`, `InfoLog` and `AttachShaders`.
- `Scenarios` (`scenarios.dfy`) composes several operations only through their contracts:
  - the first `reset` of a context built on a fresh device;
  - a texture's lifetime;
  - `reset` twice;
  - a whole run of `BlendFunc` calls;
  - the same blend mode twice.

`Context.Valid` is the invariant every operation keeps. It has two parts:
- zero is never a live name of a kind the context allocates;
- `init` is true exactly when the driver's one successful `gl.Init` has happened, and
  there is never a second.

## Model

| member | source | states |
|---|---|---|
| OpenGL.Context.constructor | internal/opengl/context_desktop.go:81-85 | a fresh context on an uninitialised device is valid, uninitialised, and its handle and viewport fields are zero |
| OpenGL.Context.InitOnce | internal/opengl/context_desktop.go:92-104 | `gl.Init` is called only while `init` is false; once `init` is true the guard succeeds with no driver call; a failed `gl.Init` returns the initialising error and leaves `init` false; a successful one sets `init` |
| OpenGL.Context.Reset | internal/opengl/context_desktop.go:91-123 | the log grows by the guard's call, then, on success, by exactly enable blend, one `BlendFunc(SourceOver)` and the framebuffer-binding query; an already-initialised context cannot fail; on failure the error is the initialising error and no cache field and no blend state changes; on success the cache holds the sentinels, a 0×0 viewport and source-over, blending is enabled, and `screenFramebuffer` is the device's bound framebuffer |
| OpenGL.Context.ResetCache | internal/opengl/context_desktop.go:105-121 | the work after the guard sets the sentinels, the empty viewport and source-over; it issues exactly enable blend, one blend call and the binding query; the screen framebuffer read back through the signed query equals the bound name |
| OpenGL.Context.ClearCache | internal/opengl/context_desktop.go:106-110 | the cache holds the sentinels `InvalidTexture` (0) and `InvalidFramebuffer` (2^32 - 1), a 0×0 viewport and the unknown mode |
| OpenGL.Context.BlendFunc | internal/opengl/context_desktop.go:125-136 | afterwards the cached mode is `mode`; the driver receives `BlendFunc(mode)` once when the cached mode differs and nothing when it equals `mode` |
| OpenGL.Context.BindTextureImpl | internal/opengl/context_desktop.go:193-198 | exactly one driver bind of `t` |
| OpenGL.Context.BindFramebufferImpl | internal/opengl/context_desktop.go:165-170 | exactly one driver bind of `f`, after which `f` is the bound framebuffer |
| OpenGL.Context.SetViewportImpl | internal/opengl/context_desktop.go:268-273 | exactly one viewport call with the sizes wrapped to 32 bits |
| OpenGL.Context.NewTexture | internal/opengl/context_desktop.go:138-163 | an error exactly when allocation yields zero; then the handle is 0, the error is the creation error, the only driver call is the allocation and nothing else changes; otherwise the handle is the freshly allocated name, it was not live before, it is now the only new live texture, and the protocol calls follow in order |
| OpenGL.Context.DeleteTexture | internal/opengl/context_desktop.go:200-212 | the name is no longer live; for a dead name only the liveness query is issued and the cache is untouched; for a live one the delete follows, a cached entry naming it becomes `InvalidTexture`, any other cached texture stays, and the cache no longer names it |
| OpenGL.Context.IsTexture | internal/opengl/context_desktop.go:214-221 | the answer is true exactly when the name is a live texture; one query is issued |
| OpenGL.Context.BindScreenFramebuffer | internal/opengl/context_desktop.go:230-232 | at most one driver bind, and of the recorded screen framebuffer; the device's binding is the screen framebuffer when the bind was issued and unchanged otherwise |
| OpenGL.Context.NewFramebuffer | internal/opengl/context_desktop.go:234-266 | every failure returns handle 0; a zero allocation returns the creation error with no further call, and leaves the cache, the live framebuffers and the device's binding unchanged; an allocated name was not live before and is now, and the binding is that name when the opaque bind issued a call and unchanged otherwise; the status and error code are the driver's answers as logged; an incomplete status returns the three-tier error of `IncompleteFramebufferError` on them; a complete one returns the allocated name with no error |
| OpenGL.Context.AttachAndCheck | internal/opengl/context_desktop.go:248-264 | attaches the texture and checks completeness; reads `glGetError` only for the zero status; the status and code are the logged driver answers; no error exactly when the status is complete; otherwise the error of the three-tier fallback on that status and error code |
| Resources.IncompleteFramebufferError | internal/opengl/context_desktop.go:251-258 | for a status other than complete: the status error exactly when the status is nonzero, carrying the status; otherwise the `glGetError` error exactly when the code is not `GL_NO_ERROR`, carrying the code; otherwise the unknown error |
| OpenGL.Context.DeleteFramebuffer | internal/opengl/context_desktop.go:275-289 | the name is no longer live; for a dead name only the liveness query is issued and neither the cache nor the binding changes; for a live one the delete follows, and deleting the bound framebuffer reverts the device's binding to 0 while any other binding stays; when it is the cached framebuffer the cache becomes `InvalidFramebuffer` and a 0×0 viewport, otherwise the cache is untouched |
| OpenGL.Context.FramebufferPixels | internal/opengl/context_desktop.go:172-191 | flush, bind, read, error query in that order; the device's binding is `f` when the bind was issued and unchanged otherwise; the read yields exactly `4 * width * height` bytes; an error exactly when the logged `glGetError` answer is not `GL_NO_ERROR`, with no pixels and the error carrying that code; otherwise the pixels returned are exactly the bytes the read yielded |
| OpenGL.Context.NewShader | internal/opengl/context_desktop.go:291-320 | every failure returns handle 0; a zero name returns the create error naming the shader type and changes no live set; an allocated name was not live before and is now; a false logged compile status returns the compile error carrying exactly the info log the driver returned, of the reported length; otherwise the allocated name with no error; the driver receives the NUL-terminated source |
| OpenGL.Context.InfoLog | internal/opengl/context_desktop.go:306-311 | queries the log length, fetches the log only when the logged length is nonzero, and returns exactly the bytes that fetch logged (none for zero) |
| Resources.InfoLogFetchedOnlyWhenReported | internal/opengl/context_desktop.go:303-311 | the info log is fetched in a shader creation exactly when the name is nonzero, the compile status is false and the reported length is nonzero |
| OpenGL.Context.DeleteShader | internal/opengl/context_desktop.go:322-327 | one delete call; the name is no longer live |
| OpenGL.Context.AttachShaders | internal/opengl/context_desktop.go:337-339 | one attach call per shader, in the order given |
| Resources.AttachCallsInOrder | internal/opengl/context_desktop.go:337-339 | the i-th attach call attaches the i-th shader to the program |
| OpenGL.Context.NewProgram | internal/opengl/context_desktop.go:329-352 | every failure returns handle 0; a zero name returns the create error and changes no live set; an allocated name was not live before and is now; a false logged link status returns the link error; any other returns the allocated name with no error |
| Resources.AttachesPrecedeLink | internal/opengl/context_desktop.go:332-340 | a successful creation issues create, then every shader's attach in order, then the link: `|shaders| + 3` calls with the link at position `|shaders| + 1` |
| OpenGL.Context.DeleteProgram | internal/opengl/context_desktop.go:361-369 | the name is no longer live; for a dead name only the liveness query is issued; for a live one the delete follows |
| OpenGL.Context.GetUniformLocationImpl | internal/opengl/context_desktop.go:371-379 | one query with the NUL-terminated name, whose logged answer decides the result: that location, or the panic "opengl: invalid uniform location: " plus the name when the driver answers -1; a returned location is never -1 |
| OpenGL.Context.GetAttribLocationImpl | internal/opengl/context_desktop.go:414-422 | one query with the NUL-terminated name, whose logged answer decides the result: that location, or the panic "opengl: invalid attrib location: " plus the name when the driver answers -1; a returned location is never -1 |
| Resources.LocationOrPanic | internal/opengl/context_desktop.go:375-377 | a location exactly when the driver's answer is not -1, equal to the answer; otherwise the panic whose message is the lookup's prefix followed by the name |
| StateCache.BlendCalls | internal/opengl/context_desktop.go:127-134 | no driver call exactly when the cached mode equals the requested one, else the single blend call for the requested mode |
| StateCache.BlendRunCountsChanges | internal/opengl/context_desktop.go:125-136 | over any run of `BlendFunc` calls, the number of driver blend calls equals the number of positions whose mode differs from the one cached before it, and each is a blend call for a mode of the run |
| StateCache.RepeatedModeIssuesOnce | internal/opengl/context_desktop.go:127-129 | setting the same mode n > 0 times in a row sends what one call would send: one blend call at most |
| StateCache.RepeatedModeIssuesNothing | internal/opengl/context_desktop.go:127-129 | setting the cached mode again, any number of times, sends nothing |
| StateCache.InitGuardCalls | internal/opengl/context_desktop.go:93-95 | no `gl.Init` once initialised, one `gl.Init` otherwise |
| StateCache.NoInitOnceInitialised | internal/opengl/context_desktop.go:93-95 | once `init` is true, no number of further `reset`s calls `gl.Init` |
| StateCache.InitSucceedsAtMostOnce | internal/opengl/context_desktop.go:92-104 | over any run of `reset`s starting uninitialised, `gl.Init` succeeds exactly once if some attempt succeeds and never otherwise |
| StateCache.ResetCalls | internal/opengl/context_desktop.go:111-121 | three calls, of which exactly one is a blend call, `BlendFunc(SourceOver)`, issued because the mode was just cleared to unknown |
| Resources.CSource | internal/opengl/context_desktop.go:298 | the source followed by one NUL and nothing else |
| GLTypes.Int32Of | internal/opengl/context_desktop.go:118 | Go's `int32(x)`: congruent to `x` modulo 2^32 and equal to it when it fits |
| GLTypes.Uint32Of | internal/opengl/context_desktop.go:119 | Go's `uint32(x)`: congruent to `x` modulo 2^32 and equal to it when it fits |
| GLTypes.Uint32OfInt32RoundTrip | internal/opengl/context_desktop.go:117-119 | a framebuffer name read back through the signed binding query and converted to a handle is the name itself |
| Scenarios.FreshReset | internal/opengl/context_desktop.go:81-123 | a context built on a fresh device is valid; its first `reset` logs one `gl.Init` and, on success, the reset tail; a failure leaves `init` false; a success sets `init` and records the device's initial binding as the screen framebuffer |
| Scenarios.TextureLifetime | internal/opengl/context_desktop.go:138-221 | a created texture is live after creation and dead after deletion, and the set of live textures ends where it began |
| Scenarios.ResetTwice | internal/opengl/context_desktop.go:91-123 | after a successful `reset` a second cannot fail and adds no `gl.Init` call, only the three calls of the reset tail |
| Scenarios.BlendSequence | internal/opengl/context_desktop.go:125-136 | calling `BlendFunc` over any run of modes appends exactly `BlendRun`'s calls, so the number of driver calls is the number of changes of mode; the cache ends on the last mode |
| Scenarios.BlendTwice | internal/opengl/context_desktop.go:125-136 | setting the same mode twice sends what setting it once sends |

## Left out

- The main-thread dispatcher (`runOnMainThread`, `runOnContextThread`, the package `Init`) is modelled as direct sequential calls. It exists to hand work to one thread, and that concurrency is not modelled.
- OpenGL.Context.BindTexture: `BindTexture` is defined in another file, which is not part of this model. Only its footprint is stated: at most one driver bind of the given texture, and an unknown cached texture afterwards. Any short-circuit it performs is not modelled.
- OpenGL.Context.BindFramebuffer: `bindFramebuffer` is defined in another file, which is not part of this model. It is stated only as at most one driver bind of the given framebuffer, with the cached framebuffer and viewport unknown afterwards. Its short-circuit is not modelled. Any viewport reconciliation it performs is assumed to issue no driver call, so the exact call logs stated for `NewFramebuffer`, `FramebufferPixels` and `BindScreenFramebuffer` hold only under that assumption.
- GLDevice.Device.GenTextures and GLDevice.Device.GenFramebuffers: a generated name is live at once, and `IsTexture`/`IsFramebuffer` answer from that set. In GL, `glIsTexture` and `glIsFramebufferEXT` report a generated name only once it has been bound, and the bind here is opaque and may be skipped. The model does not capture that gap; `Scenarios.TextureLifetime`'s live-after-create answer depends on this choice.
- The location cache is defined in another file, which is not part of this model. `reset`'s replacement of it is not modelled. The uniform setters (`uniformInt`, `uniformFloat`, `uniformFloats`) and the vertex-attribute wrappers read through that cache, so they are left out too; so is `uniformFloats`'s panic on a length other than 2, 4 or 16.
- `CompositeMode.Operations` and `convertOperation` belong to other packages. The driver log records the composite mode, not the factor pair it maps to.
- The platform constant mapping in `init()` (lines 57-74) is glue between GL enumerants and the engine's own types.
- The thin wrappers with no cache or bookkeeping are left out: `TexSubImage2D`, the buffer functions, `DrawElements`, `Flush`, `maxTextureSizeImpl` and `useProgram`.
- The texture parameters and pixel formats are fixed GL arguments that the core does not decide. The calls do not carry them.
- InitializingError: does not carry the error `gl.Init` returned, which Go formats into the message. That error is driver text; the log records only whether `gl.Init` succeeded.
- The zero value of the engine's composite-mode type is defined elsewhere. A fresh context's cached mode is left unspecified.
- OpenGL.Context.FramebufferPixels: requires `4 * width * height >= 0`. Go's `make` panics on a negative length, and that panic is not modelled.
- OpenGL.Context.NewShader: the info-log length is taken to be non-negative, as the GL API guarantees. A negative one would make Go's `make` panic, and that is not modelled.
- Panics in the location lookups are returned as a `Lookup.Panic` value carrying the message, because unwinding is not modelled.
- Integer widths: `int` sizes are unbounded here and are wrapped to 32 bits exactly where Go converts them (`int32(width)`, `Framebuffer(f)`).

## Notes on the code

- When a framebuffer, shader or program is allocated but then fails its completeness, compile or link check, the code returns 0 without deleting the allocated name, so the name stays live in the driver. The model follows the code: in those cases the name is in the live set afterwards.
- `NewFramebuffer` returns the handle 0 on every failure, not the `invalidFramebuffer` sentinel. Zero is also the default framebuffer's name. The model follows the code.
- The framebuffer allocation test `f <= 0` on an unsigned name is the test `f == 0`.
