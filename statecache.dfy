/** The device calls the state cache lets through, as functions of the cached values,
    and what they add up to over a run of calls. */
module StateCache {
  import opened GLTypes
  import opened GLDevice

  /** What `BlendFunc(mode)` sends to the device when `last` is the cached mode. */
  function BlendCalls(last: CompositeMode, mode: CompositeMode): (calls: seq<Call>)
    ensures calls == [] <==> last == mode
    ensures calls != [] ==> calls == [Call.BlendFunc(mode)]
  {
    if last == mode then [] else [Call.BlendFunc(mode)]
  }

  /** The device calls of `BlendFunc(modes[0])`, ..., `BlendFunc(modes[|modes| - 1])` in turn. */
  function BlendRun(last: CompositeMode, modes: seq<CompositeMode>): seq<Call>
    decreases |modes|
  {
    if modes == [] then [] else BlendCalls(last, modes[0]) + BlendRun(modes[0], modes[1..])
  }

  /** The mode cached after the run. */
  function FinalMode(last: CompositeMode, modes: seq<CompositeMode>): CompositeMode {
    if modes == [] then last else modes[|modes| - 1]
  }

  /** Reference count: the positions whose mode differs from the one cached just before. */
  function Changes(last: CompositeMode, modes: seq<CompositeMode>): nat
    decreases |modes|
  {
    if modes == [] then 0
    else
      var init := modes[..|modes| - 1];
      Changes(last, init) + (if modes[|modes| - 1] != FinalMode(last, init) then 1 else 0)
  }

  lemma {:induction false} BlendRunSnoc(last: CompositeMode, modes: seq<CompositeMode>, m: CompositeMode)
    ensures BlendRun(last, modes + [m]) == BlendRun(last, modes) + BlendCalls(FinalMode(last, modes), m)
    decreases |modes|
  {
    if modes == [] {
      assert BlendRun(m, []) == [];
    } else {
      assert (modes + [m])[1..] == modes[1..] + [m];
      BlendRunSnoc(modes[0], modes[1..], m);
      assert FinalMode(modes[0], modes[1..]) == FinalMode(last, modes);
    }
  }

  /** The short-circuit lets exactly one device blend call through per change of mode. */
  lemma {:induction false} BlendRunCountsChanges(last: CompositeMode, modes: seq<CompositeMode>)
    ensures |BlendRun(last, modes)| == Changes(last, modes)
    ensures forall c | c in BlendRun(last, modes) :: c.BlendFunc? && c.mode in modes
    decreases |modes|
  {
    if modes != [] {
      var init, m := modes[..|modes| - 1], modes[|modes| - 1];
      assert modes == init + [m];
      BlendRunCountsChanges(last, init);
      BlendRunSnoc(last, init, m);
    }
  }

  /** Setting the same mode any number of times reaches the device no more than once. */
  lemma {:induction false} RepeatedModeIssuesOnce(last: CompositeMode, m: CompositeMode, n: nat)
    requires n > 0
    ensures BlendRun(last, seq(n, _ => m)) == BlendCalls(last, m)
    decreases n
  {
    if n > 1 {
      RepeatedModeIssuesNothing(m, n - 1);
      assert seq(n, _ => m)[1..] == seq(n - 1, _ => m);
    } else {
      assert seq(n, _ => m)[1..] == [];
    }
  }

  lemma {:induction false} RepeatedModeIssuesNothing(m: CompositeMode, n: nat)
    ensures BlendRun(m, seq(n, _ => m)) == []
    decreases n
  {
    if n > 0 {
      RepeatedModeIssuesNothing(m, n - 1);
      assert seq(n, _ => m)[1..] == seq(n - 1, _ => m);
    }
  }

  /** What `reset`'s guard sends to the device: `gl.Init` only while `init` is false. */
  function InitGuardCalls(init: bool, ok: bool): (calls: seq<Call>)
    ensures init ==> calls == []
    ensures !init ==> calls == [Call.Init(ok)]
  {
    if init then [] else [Call.Init(ok)]
  }

  /** The guard's calls over a run of `reset`s; `outcomes[i]` is what `gl.Init` would answer
      in the i-th one. */
  function InitTrace(init: bool, outcomes: seq<bool>): seq<Call>
    decreases |outcomes|
  {
    if outcomes == [] then []
    else InitGuardCalls(init, outcomes[0]) + InitTrace(init || outcomes[0], outcomes[1..])
  }

  lemma {:induction false} InitSuccessesConcat(a: seq<Call>, b: seq<Call>)
    ensures InitSuccesses(a + b) == InitSuccesses(a) + InitSuccesses(b)
    decreases |b|
  {
    if b == [] {
      assert a + b == a;
    } else {
      var b', c := b[..|b| - 1], b[|b| - 1];
      assert a + b == (a + b') + [c];
      assert b == b' + [c];
      InitSuccessesConcat(a, b');
      InitSuccessesAppend(a + b', c);
      InitSuccessesAppend(b', c);
    }
  }

  /** Once initialised, no later `reset` calls `gl.Init`. */
  lemma {:induction false} NoInitOnceInitialised(outcomes: seq<bool>)
    ensures InitTrace(true, outcomes) == []
    decreases |outcomes|
  {
    if outcomes != [] {
      NoInitOnceInitialised(outcomes[1..]);
    }
  }

  /** However many `reset`s run, `gl.Init` succeeds at most once, and exactly once when some
      attempt would succeed. */
  lemma {:induction false} InitSucceedsAtMostOnce(outcomes: seq<bool>)
    ensures InitSuccesses(InitTrace(false, outcomes)) == if true in outcomes then 1 else 0
    decreases |outcomes|
  {
    if outcomes != [] {
      var ok, rest := outcomes[0], outcomes[1..];
      assert outcomes == [ok] + rest;
      InitSuccessesConcat([Call.Init(ok)], InitTrace(ok, rest));
      InitSuccessesAppend([], Call.Init(ok));
      if ok {
        NoInitOnceInitialised(rest);
      } else {
        InitSucceedsAtMostOnce(rest);
      }
    }
  }

  /** The calls `reset` makes after its guard passes: enable blending, then `BlendFunc(SourceOver)`
      from the freshly cleared mode, then read the framebuffer binding. */
  function ResetCalls(): (calls: seq<Call>)
    ensures |calls| == 3 && calls[1] == Call.BlendFunc(SourceOver)
    ensures forall i | 0 <= i < |calls| && calls[i].BlendFunc? :: i == 1
  {
    [Call.EnableBlend] + BlendCalls(Unknown, SourceOver) + [Call.GetFramebufferBinding]
  }
}
