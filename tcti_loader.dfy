/**
 * The TCTI plugin loader: the process-wide `handle` and `info` statics and
 * the functions `tpm2_tcti_ldr_load`, `tpm2_tcti_ldr_unload`,
 * `tpm2_tcti_ldr_getinfo` and `tpm2_tcti_ldr_dlopen`.
 *
 * `dlopen`, `dlsym` and the plugin's entry points are not executed: what they
 * answer is given by a `LoaderEnv` (which paths hold a plugin, and how that
 * plugin's entry points respond), and what the loader asks them is recorded
 * in the `Host` trace.  The pure functions `AfterLoad` and `AfterUnload` say
 * what one call does; the class `Loader` performs it step by step on the
 * statics, and its methods are proved to agree with the functions.
 */
module TctiLoader {
  import opened Platform

  /** Size of the buffer the formatted library name is written into. */
  const PATH_MAX: nat := 4096

  const TPM2_RC_SUCCESS: nat := 0

  /** Name of the info entry point every TCTI plugin exports. */
  const TSS2_TCTI_INFO_SYMBOL: string := "Tss2_Tcti_Info"

  /** How a plugin answers: whether it exports the info symbol, the status
      and size its `init` reports when probed with a NULL context, and the
      status of the second, real `init`. */
  datatype Plugin = Plugin(exportsInfo: bool, probeRc: nat, size: nat, initRc: nat)

  /** What the loader's foreign calls answer: the plugin found at each path
      `dlopen` can open, and whether `calloc` succeeds. */
  datatype LoaderEnv = LoaderEnv(libs: map<string, Plugin>, callocOk: bool)

  /** The statics `handle` and `info`; `info` is the info structure of the
      library it names. */
  datatype LoaderState = LoaderState(handle: Option<Handle>, info: Option<Handle>)

  const Empty: LoaderState := LoaderState(None, None)

  /** `info`, when set, describes the library that `handle` holds. */
  predicate Consistent(s: LoaderState) {
    s.info.Some? ==> s.info == s.handle
  }

  function PluginAt(env: LoaderEnv, h: Handle): Plugin
    requires h.path in env.libs
  {
    env.libs[h.path]
  }

  /** Every step after `dlopen` succeeds for plugin `p`. */
  predicate Accepts(p: Plugin, callocOk: bool) {
    p.exportsInfo && p.probeRc == TPM2_RC_SUCCESS && callocOk && p.initRc == TPM2_RC_SUCCESS
  }

  /** `TSS2_TCTI_SO_FORMAT` ("libtss2-tcti-%s.so.0") applied to `name`. */
  function SoName(name: string): (r: string)
    ensures |r| == |name| + 18
    ensures r[13..13 + |name|] == name
  {
    "libtss2-tcti-" + name + ".so.0"
  }

  /** `snprintf` into the `PATH_MAX` buffer did not truncate: it reports the
      length it wanted to write, and the code rejects `size >= PATH_MAX`. */
  function Fits(name: string): (r: bool)
    ensures r <==> |name| < PATH_MAX - 18
  {
    |SoName(name)| < PATH_MAX
  }

  datatype Opening = Opening(handle: Option<Handle>, calls: seq<Call>)

  /** `tpm2_tcti_ldr_dlopen(name)`: open the conventionally named library,
      unless its name does not fit in `PATH_MAX`. */
  function FormattedOpen(env: LoaderEnv, name: string): (r: Opening)
    ensures r.handle.Some? <==> Fits(name) && SoName(name) in env.libs
    ensures r.handle.Some? ==> r.handle.value == Handle(SoName(name))
    ensures !Fits(name) ==> r.calls == []
    ensures Fits(name) ==> r.calls == [DlOpen(SoName(name))]
  {
    if !Fits(name) then Opening(None, [])
    else if SoName(name) in env.libs then Opening(Some(Handle(SoName(name))), [DlOpen(SoName(name))])
    else Opening(None, [DlOpen(SoName(name))])
  }

  /** The library a load from an empty loader ends up holding: the path as
      given if it opens, otherwise the formatted name. */
  function Opened(env: LoaderEnv, path: string): (r: Option<Handle>)
    ensures r.Some? ==> r.value.path in env.libs
    ensures r.Some? ==> r.value.path == path || r.value.path == SoName(path)
    ensures path in env.libs ==> r == Some(Handle(path))
    // NULL exactly when neither the path nor a formatted name that fits opens
    ensures r.None? <==> path !in env.libs && !(Fits(path) && SoName(path) in env.libs)
    ensures path !in env.libs && Fits(path) && SoName(path) in env.libs ==> r == Some(Handle(SoName(path)))
  {
    if path in env.libs then Some(Handle(path)) else FormattedOpen(env, path).handle
  }

  datatype LoadResult = LoadResult(state: LoaderState, ctx: Option<TctiContext>, calls: seq<Call>)

  /** `tpm2_tcti_ldr_load(path)` from state `s`: the new statics, the context
      returned (None for NULL) and the foreign calls made, in order. */
  function AfterLoad(s: LoaderState, env: LoaderEnv, path: string): (r: LoadResult)
    // a plugin already held: rejected, and nothing is touched
    ensures s.handle.Some? ==> r == LoadResult(s, None, [])
    // neither name opens: NULL, handle still NULL, info unchanged
    ensures s.handle.None? && Opened(env, path).None? ==> r.ctx.None? && r.state == s
    // the handle that was opened is kept, whether the load succeeds or not
    ensures s.handle.None? ==> r.state.handle == Opened(env, path)
    ensures Consistent(s) ==> Consistent(r.state)
    // a context exactly when every step succeeds, of the size the probe asked for
    ensures r.ctx.Some? <==>
              s.handle.None? && Opened(env, path).Some? &&
              Accepts(PluginAt(env, Opened(env, path).value), env.callocOk)
    ensures r.ctx.Some? ==>
              var h := r.state.handle.value;
              r.ctx.value == TctiContext(h, PluginAt(env, h).size) && r.state.info == Some(h)
  {
    if s.handle.Some? then LoadResult(s, None, [])
    else
      var first := [DlOpen(path)];
      var opening :=
        if path in env.libs then Opening(Some(Handle(path)), first)
        else var f := FormattedOpen(env, path); Opening(f.handle, first + f.calls);
      if opening.handle.None? then LoadResult(LoaderState(None, s.info), None, opening.calls)
      else
        var h := opening.handle.value;
        var p := PluginAt(env, h);
        var resolve := opening.calls + [DlSym(h, TSS2_TCTI_INFO_SYMBOL)];
        if !p.exportsInfo then
          LoadResult(LoaderState(Some(h), s.info), None, resolve + [DlClose(h)])
        else
          var held := LoaderState(Some(h), Some(h));
          var probe := resolve + [GetTctiInfo(h)] + [ProbeTctiSize(h)];
          if p.probeRc != TPM2_RC_SUCCESS then
            LoadResult(held, None, probe + [DlClose(h)])
          else if !env.callocOk then
            LoadResult(held, None, probe + [Calloc(p.size)] + [DlClose(h)])
          else
            var ctx := TctiContext(h, p.size);
            var init := probe + [Calloc(p.size)] + [InitTcti(h, p.size)];
            if p.initRc != TPM2_RC_SUCCESS then
              LoadResult(held, None, init + [Free(TctiBlock(ctx))] + [DlClose(h)])
            else
              LoadResult(held, Some(ctx), init)
  }

  /** `tpm2_tcti_ldr_unload()`: forget the held plugin.  With `DISABLE_DLCLOSE`
      defined, the library itself stays mapped: no foreign call is made. */
  function AfterUnload(s: LoaderState): (r: LoaderState)
    ensures r.handle.None?
    ensures s.handle.None? ==> r == s
    ensures s.handle.Some? ==> r == Empty
  {
    if s.handle.Some? then LoaderState(None, None) else s
  }

  /** The calls one load makes, in order: the path as given is tried first,
      then the formatted name; a success ends by allocating and initialising
      the context; every failure after the library opened ends by closing
      it, and a failed second init frees the block it was given first. */
  lemma AfterLoadTrace(s: LoaderState, env: LoaderEnv, path: string)
    requires s.handle.None?
    ensures var r := AfterLoad(s, env, path);
            && |r.calls| >= 1 && r.calls[0] == DlOpen(path)
            && (path !in env.libs && Fits(path) ==> |r.calls| >= 2 && r.calls[1] == DlOpen(SoName(path)))
            && (r.ctx.Some? ==>
                  var n := r.ctx.value.size;
                  && |r.calls| >= 2
                  && r.calls[|r.calls| - 2] == Calloc(n)
                  && r.calls[|r.calls| - 1] == InitTcti(r.ctx.value.lib, n))
            && (Opened(env, path).Some? && r.ctx.None? ==>
                  |r.calls| >= 1 && r.calls[|r.calls| - 1] == DlClose(Opened(env, path).value))
    ensures Opened(env, path).Some? ==>
              var r := AfterLoad(s, env, path);
              var h := Opened(env, path).value;
              var p := PluginAt(env, h);
              p.exportsInfo && p.probeRc == TPM2_RC_SUCCESS && env.callocOk && p.initRc != TPM2_RC_SUCCESS ==>
                && |r.calls| >= 4
                && r.calls[|r.calls| - 4] == Calloc(p.size)
                && r.calls[|r.calls| - 3] == InitTcti(h, p.size)
                && r.calls[|r.calls| - 2] == Free(TctiBlock(TctiContext(h, p.size)))
  {
  }

  /** A load that returns a context keeps everything it acquired: it neither
      closes the library nor frees a block. */
  lemma SuccessfulLoadReleasesNothing(s: LoaderState, env: LoaderEnv, path: string, i: nat)
    requires AfterLoad(s, env, path).ctx.Some? && i < |AfterLoad(s, env, path).calls|
    ensures !AfterLoad(s, env, path).calls[i].DlClose? && !AfterLoad(s, env, path).calls[i].Free?
  {
  }

  /** A load never frees a system block and never finalizes a transport;
      it frees a transport block only when it fails. */
  lemma LoadReleasesOnlyOwnBlock(s: LoaderState, env: LoaderEnv, path: string, n: nat, t: TctiContext)
    ensures Free(SysBlock(n)) !in AfterLoad(s, env, path).calls
    ensures TctiFinalize(t) !in AfterLoad(s, env, path).calls
    ensures AfterLoad(s, env, path).ctx.Some? ==> Free(TctiBlock(t)) !in AfterLoad(s, env, path).calls
  {
  }

  lemma UnloadIdempotent(s: LoaderState)
    ensures AfterUnload(AfterUnload(s)) == AfterUnload(s)
  {
  }

  /** From a consistent state, unloading always returns the loader to its
      initial state, so the next load behaves as the first one. */
  lemma UnloadThenLoadIsFresh(s: LoaderState, env: LoaderEnv, path: string)
    requires Consistent(s)
    ensures AfterUnload(s) == Empty
    ensures AfterLoad(AfterUnload(s), env, path) == AfterLoad(Empty, env, path)
  {
  }

  /** A sequence of calls into the loader. */
  datatype LoaderOp = LoadOp(env: LoaderEnv, path: string) | UnloadOp

  /** Effect of one call: the new state and the context returned (None for
      NULL; `tpm2_tcti_ldr_unload` returns nothing). */
  function Step(s: LoaderState, op: LoaderOp): (LoaderState, Option<TctiContext>) {
    match op
    case LoadOp(env, path) => var r := AfterLoad(s, env, path); (r.state, r.ctx)
    case UnloadOp => (AfterUnload(s), None)
  }

  /** Run `ops` in order from `s`: the final state and one result per call. */
  function Run(s: LoaderState, ops: seq<LoaderOp>): (r: (LoaderState, seq<Option<TctiContext>>))
    ensures |r.1| == |ops|
    decreases |ops|
  {
    if ops == [] then (s, [])
    else
      var (s1, out) := Step(s, ops[0]);
      var rest := Run(s1, ops[1..]);
      (rest.0, [out] + rest.1)
  }

  predicate NoUnload(ops: seq<LoaderOp>) {
    forall i :: 0 <= i < |ops| ==> ops[i].LoadOp?
  }

  /** While a plugin is held, every load is rejected and the statics stay as
      they are, however many loads are attempted. */
  lemma {:induction false} HeldPluginRejectsLoads(s: LoaderState, ops: seq<LoaderOp>)
    requires s.handle.Some?
    requires NoUnload(ops)
    ensures Run(s, ops).0 == s
    ensures forall i :: 0 <= i < |ops| ==> Run(s, ops).1[i].None?
    decreases |ops|
  {
    if ops != [] {
      assert NoUnload(ops[1..]) by {
        forall i | 0 <= i < |ops[1..]| ensures ops[1..][i].LoadOp? {
          assert ops[1..][i] == ops[i + 1];
        }
      }
      HeldPluginRejectsLoads(s, ops[1..]);
      var rest := Run(s, ops[1..]);
      assert Step(s, ops[0]) == (s, None);
      assert Run(s, ops) == (rest.0, [None] + rest.1);
      forall i | 0 <= i < |ops| ensures Run(s, ops).1[i].None? {
        if i > 0 { assert Run(s, ops).1[i] == rest.1[i - 1]; }
      }
    }
  }

  /** A load that opens a library but then fails closes the library without
      clearing `handle`; from then on every load fails until an unload. */
  lemma FailedLoadBlocksLaterLoads(env: LoaderEnv, path: string, ops: seq<LoaderOp>)
    requires Opened(env, path).Some?
    requires !Accepts(PluginAt(env, Opened(env, path).value), env.callocOk)
    requires NoUnload(ops)
    ensures AfterLoad(Empty, env, path).ctx.None?
    ensures AfterLoad(Empty, env, path).state.handle == Opened(env, path)
    ensures forall i :: 0 <= i < |ops| ==> Run(AfterLoad(Empty, env, path).state, ops).1[i].None?
  {
    HeldPluginRejectsLoads(AfterLoad(Empty, env, path).state, ops);
  }

  /** Every sequence of loads and unloads keeps `info` describing the held
      library. */
  lemma {:induction false} RunKeepsConsistent(s: LoaderState, ops: seq<LoaderOp>)
    requires Consistent(s)
    ensures Consistent(Run(s, ops).0)
    decreases |ops|
  {
    if ops != [] {
      var (s1, _) := Step(s, ops[0]);
      assert Consistent(s1);
      RunKeepsConsistent(s1, ops[1..]);
    }
  }

  /** The plugin of the TPM access broker, as the factory loads it. */
  const TabrmdLib: string := "libtss2-tcti-tabrmd.so.0"

  /** A second `init` that fails leaves the loader holding the closed
      library: a retry with a working plugin at the same place is rejected,
      and only after an unload does it succeed. */
  lemma RetryAfterInitFailureNeedsUnload()
    ensures var broken := LoaderEnv(map[TabrmdLib := Plugin(true, 0, 64, 1)], true);
            var working := LoaderEnv(map[TabrmdLib := Plugin(true, 0, 64, 0)], true);
            var afterFailure := AfterLoad(Empty, broken, "tabrmd").state;
            && AfterLoad(Empty, broken, "tabrmd").ctx.None?
            && afterFailure.handle == Some(Handle(TabrmdLib))
            && AfterLoad(afterFailure, working, "tabrmd").ctx.None?
            && AfterLoad(AfterUnload(afterFailure), working, "tabrmd").ctx ==
                 Some(TctiContext(Handle(TabrmdLib), 64))
  {
    assert SoName("tabrmd") == TabrmdLib;
  }

  /** `tpm2_tcti_ldr_load` as it would be if every failure after `dlopen`
      also did `handle = NULL; info = NULL;` once the library is closed, as
      `tpm2_tcti_ldr_unload` does: the same calls and the same result, but a
      failed load leaves no plugin held. */
  function AfterLoadCorrected(s: LoaderState, env: LoaderEnv, path: string): (r: LoadResult)
    ensures r.ctx == AfterLoad(s, env, path).ctx && r.calls == AfterLoad(s, env, path).calls
    ensures r.ctx.Some? || s.handle.Some? ==> r.state == AfterLoad(s, env, path).state
    ensures s.handle.None? && r.ctx.None? ==> r.state.handle.None?
    ensures Consistent(s) ==> Consistent(r.state)
  {
    var r := AfterLoad(s, env, path);
    if s.handle.None? && Opened(env, path).Some? && r.ctx.None? then LoadResult(Empty, None, r.calls)
    else r
  }

  /** With the corrected failure paths, a failed load does not block the
      next one: a retry that finds an accepting plugin returns its context,
      whatever the failed attempt met. */
  lemma CorrectedRetrySucceeds(s: LoaderState, failed: LoaderEnv, path: string, env: LoaderEnv, retry: string)
    requires s.handle.None?
    requires AfterLoadCorrected(s, failed, path).ctx.None?
    requires Opened(env, retry).Some? && Accepts(PluginAt(env, Opened(env, retry).value), env.callocOk)
    ensures AfterLoadCorrected(AfterLoadCorrected(s, failed, path).state, env, retry).ctx ==
              Some(TctiContext(Opened(env, retry).value, PluginAt(env, Opened(env, retry).value).size))
  {
    var s1 := AfterLoadCorrected(s, failed, path).state;
    assert s1.handle.None?;
    assert AfterLoad(s1, env, retry).state.handle == Opened(env, retry);
  }

  /** A run of loads through the corrected loader, from an empty handle: as
      long as each fails, the handle stays NULL, so the first load that
      meets an accepting plugin returns a context. */
  function RunCorrected(s: LoaderState, loads: seq<(LoaderEnv, string)>): (r: LoaderState)
    decreases |loads|
  {
    if loads == [] then s
    else RunCorrected(AfterLoadCorrected(s, loads[0].0, loads[0].1).state, loads[1..])
  }

  lemma {:induction false} CorrectedFailuresKeepLoaderEmpty(s: LoaderState, loads: seq<(LoaderEnv, string)>)
    requires s.handle.None?
    requires forall i :: 0 <= i < |loads| ==>
               !(Opened(loads[i].0, loads[i].1).Some? &&
                 Accepts(PluginAt(loads[i].0, Opened(loads[i].0, loads[i].1).value), loads[i].0.callocOk))
    ensures RunCorrected(s, loads).handle.None?
    decreases |loads|
  {
    if loads != [] {
      var s1 := AfterLoadCorrected(s, loads[0].0, loads[0].1).state;
      assert AfterLoad(s, loads[0].0, loads[0].1).ctx.None?;
      assert s1.handle.None?;
      forall i | 0 <= i < |loads[1..]|
        ensures !(Opened(loads[1..][i].0, loads[1..][i].1).Some? &&
                  Accepts(PluginAt(loads[1..][i].0, Opened(loads[1..][i].0, loads[1..][i].1).value),
                          loads[1..][i].0.callocOk))
      {
        assert loads[1..][i] == loads[i + 1];
      }
      CorrectedFailuresKeepLoaderEmpty(s1, loads[1..]);
    }
  }

  /** The scenario of `RetryAfterInitFailureNeedsUnload` with the corrected
      loader: the retry after a failed second `init` succeeds at once. */
  lemma CorrectedRetryAfterInitFailure()
    ensures var broken := LoaderEnv(map[TabrmdLib := Plugin(true, 0, 64, 1)], true);
            var working := LoaderEnv(map[TabrmdLib := Plugin(true, 0, 64, 0)], true);
            var afterFailure := AfterLoadCorrected(Empty, broken, "tabrmd").state;
            && AfterLoadCorrected(Empty, broken, "tabrmd").ctx.None?
            && afterFailure == Empty
            && AfterLoadCorrected(afterFailure, working, "tabrmd").ctx == Some(TctiContext(Handle(TabrmdLib), 64))
  {
    assert SoName("tabrmd") == TabrmdLib;
  }

  /** The statics `handle`, `info` and `tcti` of the source file. */
  class Loader {
    var handle: Option<Handle>
    var info: Option<Handle>
    /** The transport context the factory constructor last stored. */
    var tcti: Option<TctiContext>

    function State(): LoaderState
      reads this
    {
      LoaderState(handle, info)
    }

    ghost predicate Valid()
      reads this
    {
      Consistent(State())
    }

    /** The statics before anything ran: all NULL. */
    constructor ()
      ensures State() == Empty && tcti.None? && Valid()
    {
      handle, info, tcti := None, None, None;
    }

    /** `tpm2_tcti_ldr_getinfo()`: the cached info pointer, which always
        describes the held plugin. */
    function GetInfo(): (r: Option<Handle>)
      reads this
      requires Valid()
      ensures r.Some? ==> r == handle
      ensures handle.None? ==> r.None?
    {
      info
    }

    /** `tpm2_tcti_ldr_unload()`.  It makes no foreign call: `host` is not
        even in its frame, so `dlclose` cannot happen. */
    method Unload()
      modifies this
      ensures State() == AfterUnload(old(State()))
      ensures tcti == old(tcti)
      ensures old(Valid()) ==> Valid()
    {
      if handle.Some? {
        handle := None;
        info := None;
      }
    }

    /** `tpm2_tcti_ldr_load(path)`. */
    method Load(host: Host, env: LoaderEnv, path: string) returns (ctx: Option<TctiContext>)
      modifies this, host
      ensures var r := AfterLoad(old(State()), env, path);
              State() == r.state && ctx == r.ctx && host.calls == old(host.calls) + r.calls
      ensures tcti == old(tcti) && host.mutexesIssued == old(host.mutexesIssued)
      ensures old(Valid()) ==> Valid()
    {
      if handle.Some? {
        return None;
      }
      ghost var before := host.calls;
      host.Record(DlOpen(path));
      ghost var done := [DlOpen(path)];
      handle := if path in env.libs then Some(Handle(path)) else None;
      if handle.None? {
        handle := DlopenFormatted(host, env, path);
        AppendAssoc(before, done, FormattedOpen(env, path).calls);
        done := done + FormattedOpen(env, path).calls;
        if handle.None? {
          return None;
        }
      }
      var lib := handle.value;
      var p := env.libs[lib.path];
      host.Record(DlSym(lib, TSS2_TCTI_INFO_SYMBOL));
      AppendAssoc(before, done, [DlSym(lib, TSS2_TCTI_INFO_SYMBOL)]);
      done := done + [DlSym(lib, TSS2_TCTI_INFO_SYMBOL)];
      if !p.exportsInfo {
        // free(tcti_ctx) on NULL does nothing
        host.Record(DlClose(lib));
        AppendAssoc(before, done, [DlClose(lib)]);
        return None;
      }
      host.Record(GetTctiInfo(lib));
      AppendAssoc(before, done, [GetTctiInfo(lib)]);
      done := done + [GetTctiInfo(lib)];
      info := handle;
      host.Record(ProbeTctiSize(lib));
      AppendAssoc(before, done, [ProbeTctiSize(lib)]);
      done := done + [ProbeTctiSize(lib)];
      if p.probeRc != TPM2_RC_SUCCESS {
        host.Record(DlClose(lib));
        AppendAssoc(before, done, [DlClose(lib)]);
        return None;
      }
      host.Record(Calloc(p.size));
      AppendAssoc(before, done, [Calloc(p.size)]);
      done := done + [Calloc(p.size)];
      if !env.callocOk {
        host.Record(DlClose(lib));
        AppendAssoc(before, done, [DlClose(lib)]);
        return None;
      }
      // calloc hands out a zeroed block of exactly the probed size
      var block := TctiContext(lib, p.size);
      host.Record(InitTcti(lib, p.size));
      AppendAssoc(before, done, [InitTcti(lib, p.size)]);
      done := done + [InitTcti(lib, p.size)];
      if p.initRc != TPM2_RC_SUCCESS {
        host.Record(Free(TctiBlock(block)));
        AppendAssoc(before, done, [Free(TctiBlock(block))]);
        done := done + [Free(TctiBlock(block))];
        host.Record(DlClose(lib));
        AppendAssoc(before, done, [DlClose(lib)]);
        return None;
      }
      return Some(block);
    }
  }

  /** `tpm2_tcti_ldr_dlopen(name)`. */
  method DlopenFormatted(host: Host, env: LoaderEnv, name: string) returns (h: Option<Handle>)
    modifies host
    ensures h == FormattedOpen(env, name).handle
    ensures host.calls == old(host.calls) + FormattedOpen(env, name).calls
    ensures host.mutexesIssued == old(host.mutexesIssued)
  {
    var path := SoName(name);
    if |path| >= PATH_MAX {
      return None;
    }
    host.Record(DlOpen(path));
    h := if path in env.libs then Some(Handle(path)) else None;
  }
}
