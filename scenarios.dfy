/** Runs of several context operations, composed from their contracts alone. */
module Scenarios {
  import opened GLTypes
  import opened GLDevice
  import opened StateCache
  import opened Resources
  import opened OpenGL

  /** The first `reset` of a context built on a fresh device: one `gl.Init`, and on success
      the reset tail, with the device's initial binding recorded as the screen framebuffer. */
  method FreshReset(screen: uint32) returns (c: Context, err: Option<Error>)
    ensures fresh(c) && c.Valid()
    ensures c.device.calls == [Call.Init(err.None?)] + (if err.None? then ResetCalls() else [])
    ensures err.Some? ==> !c.init
    ensures err.None? ==> c.init && c.screenFramebuffer as uint32 == screen
  {
    var d := new Device(screen);
    c := new Context(d);
    err := c.Reset();
  }

  /** A texture `NewTexture` hands out is live until `DeleteTexture`, and dead afterwards. */
  method TextureLifetime(c: Context, width: int, height: int)
    returns (created: bool, liveAfterCreate: bool, liveAfterDelete: bool)
    requires c.Valid()
    modifies c`lastTexture, c.device`calls, c.device`textures
    ensures c.Valid()
    ensures created ==> liveAfterCreate && !liveAfterDelete
    ensures c.device.textures == old(c.device.textures)
  {
    var t, err, name, bound := c.NewTexture(width, height);
    created := err.None?;
    if !created {
      return false, false, false;
    }
    liveAfterCreate := c.IsTexture(t);
    c.DeleteTexture(t);
    liveAfterDelete := c.IsTexture(t);
  }

  /** A second `reset` after a successful one does not call `gl.Init` again and cannot fail. */
  method ResetTwice(c: Context) returns (first: Option<Error>, second: Option<Error>)
    requires c.Valid()
    modifies c, c.device`calls, c.device`initSuccesses, c.device`blendEnabled
    ensures c.Valid()
    ensures first.None? ==> second.None?
    ensures first.None? ==>
              c.device.calls == old(c.device.calls) + InitGuardCalls(old(c.init), true) + ResetCalls() + ResetCalls()
  {
    first := c.Reset();
    second := c.Reset();
  }

  /** `BlendFunc` over a run of modes: the device sees exactly the calls of `BlendRun`, one per
      change of mode, and the cache ends on the last mode. */
  method BlendSequence(c: Context, modes: seq<CompositeMode>)
    requires c.Valid()
    modifies c`lastCompositeMode, c.device`calls
    ensures c.Valid()
    ensures c.lastCompositeMode == FinalMode(old(c.lastCompositeMode), modes)
    ensures c.device.calls == old(c.device.calls) + BlendRun(old(c.lastCompositeMode), modes)
    ensures |c.device.calls| == |old(c.device.calls)| + Changes(old(c.lastCompositeMode), modes)
  {
    ghost var last := c.lastCompositeMode;
    for i := 0 to |modes|
      invariant c.Valid()
      invariant c.lastCompositeMode == FinalMode(last, modes[..i])
      invariant c.device.calls == old(c.device.calls) + BlendRun(last, modes[..i])
    {
      BlendRunSnoc(last, modes[..i], modes[i]);
      assert modes[..i + 1] == modes[..i] + [modes[i]];
      c.BlendFunc(modes[i]);
    }
    assert modes[..|modes|] == modes;
    BlendRunCountsChanges(last, modes);
  }

  /** Setting the same blend mode twice reaches the device at most once. */
  method BlendTwice(c: Context, mode: CompositeMode)
    requires c.Valid()
    modifies c`lastCompositeMode, c.device`calls
    ensures c.Valid() && c.lastCompositeMode == mode
    ensures c.device.calls == old(c.device.calls) + BlendCalls(old(c.lastCompositeMode), mode)
  {
    c.BlendFunc(mode);
    c.BlendFunc(mode);
  }
}
