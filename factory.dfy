/**
 * The factory's lifecycle: the constructor, which brings the subsystems up
 * in stages with early returns, the destructor, which tears them down in a
 * fixed order, and the singleton slot behind `i()` and `reset()`.
 *
 * Each stage is a pure function giving the fields it sets and the foreign
 * calls it makes; `Construct` and `Destruct` compose them as the constructor
 * and destructor do.  The classes perform the same steps on the fields and
 * statics and are proved to agree with those functions.
 *
 * Members the constructor does not assign on an early return (`context`,
 * `eg`, `rng`) are taken to start as NULL.
 */
module Factory {
  import opened Platform
  import opened TctiLoader
  import opened LockBridge
  import Dispatch

  const TSS2_RC_SUCCESS: nat := 0

  /** The TCTI the constructor asks for. */
  const TctiName: string := "tabrmd"

  /** What the constructor's foreign calls answer. */
  datatype Env = Env(
    numLocks: uint32,                                      // CRYPTO_num_locks()
    fipsMode: bool, fipsModeSetOk: bool,                   // FIPS_mode(), FIPS_mode_set(1)
    rdrandFound: bool, rdrandInitOk: bool, rdrandDefaultOk: bool,
    tcti: LoaderEnv,                                       // what loading the TCTI meets
    sysSize: nat, sysCallocOk: bool, sysInitRc: nat,       // Tss2_Sys_GetContextSize, calloc, Tss2_Sys_Initialize
    gostFound: bool, gostInitOk: bool, gostDigestOk: bool, gostAsn1Ok: bool, gostParamsOk: bool)

  // ------------------------------------------------------------ FIPS entry

  datatype FipsResult = FipsResult(proceed: bool, status: bool, calls: seq<Call>)

  /** Lines 234-249: enter FIPS mode unless already in it. `status` is the
      static `FipsSelfTestStatus` before the stage. */
  function FipsEntry(build: Build, env: Env, status: bool): (r: FipsResult)
    ensures !build.fips ==> r == FipsResult(true, status, [])
    ensures build.fips ==> (r.proceed <==> env.fipsMode || env.fipsModeSetOk)
    ensures build.fips ==> r.status == r.proceed
    ensures build.fips ==> |r.calls| == 1 && (r.calls[0] == FipsModeSet <==> !env.fipsMode)
  {
    if !build.fips then FipsResult(true, status, [])
    else if !env.fipsMode then
      FipsResult(env.fipsModeSetOk, env.fipsModeSetOk, [FipsModeSet])
    else
      FipsResult(true, true, [RandInitFips])
  }

  // ------------------------------------------- OpenSSL and the RDRAND engine

  datatype RdrandResult = RdrandResult(engine: bool, calls: seq<Call>)

  /** Lines 251-271: initialise OpenSSL and try the RDRAND engine.  Every
      failure here is only a warning. */
  function RdrandSetup(env: Env): (r: RdrandResult)
    ensures r.engine <==> env.rdrandFound
  {
    var base := [AddAllAlgorithms] + [LoadRdrandEngine] + [EngineById(Rdrand)];
    if !env.rdrandFound then RdrandResult(false, base)
    else if !env.rdrandInitOk then RdrandResult(true, base + [EngineInit(Rdrand)])
    else RdrandResult(true, base + [EngineInit(Rdrand)] + [EngineSetDefaultRand(Rdrand)])
  }

  /** OpenSSL is initialised and the engine looked up first; the engine is
      initialised when found, and made the default when that succeeds. */
  lemma RdrandSetupTrace(env: Env)
    ensures var c := RdrandSetup(env).calls;
            && |c| == 3 + (if env.rdrandFound then 1 else 0) + (if env.rdrandFound && env.rdrandInitOk then 1 else 0)
            && c[..3] == [AddAllAlgorithms, LoadRdrandEngine, EngineById(Rdrand)]
            && (env.rdrandFound ==> c[3] == EngineInit(Rdrand))
            && (env.rdrandFound && env.rdrandInitOk ==> c[4] == EngineSetDefaultRand(Rdrand))
  {
  }

  /** The RDRAND engine is never finished or freed: the reference taken by
      `ENGINE_by_id` is kept for the life of the process. */
  lemma RdrandEngineNeverReleased(env: Env, i: nat)
    requires i < |RdrandSetup(env).calls|
    ensures !RdrandSetup(env).calls[i].EngineFree? && !RdrandSetup(env).calls[i].EngineFinish?
  {
  }

  // --------------------------------------------------------- TPM bring-up

  datatype TpmResult = TpmResult(loader: LoaderState, tcti: Option<TctiContext>, context: SysRef, calls: seq<Call>)

  /** Lines 276-304: load the TCTI, then allocate and initialise the system
      context on top of it.  When the initialisation fails the block is freed
      but `context` keeps pointing at it. */
  function TpmBringUp(loader: LoaderState, env: Env): (r: TpmResult)
    ensures r.loader == AfterLoad(loader, env.tcti, TctiName).state
    ensures r.tcti == AfterLoad(loader, env.tcti, TctiName).ctx
    ensures r.tcti.None? ==> r.context == SysNull
    ensures r.context.SysLive? <==> r.tcti.Some? && env.sysCallocOk && env.sysInitRc == TSS2_RC_SUCCESS
    ensures r.context.SysLive? ==> r.context == SysLive(env.sysSize, r.tcti.value)
    ensures r.context.SysFreed? <==> r.tcti.Some? && env.sysCallocOk && env.sysInitRc != TSS2_RC_SUCCESS
    ensures r.context.SysFreed? ==> r.context.size == env.sysSize
  {
    var load := AfterLoad(loader, env.tcti, TctiName);
    if load.ctx.None? then TpmResult(load.state, None, SysNull, load.calls)
    else
      var t := load.ctx.value;
      var alloc := load.calls + [Calloc(env.sysSize)];
      if !env.sysCallocOk then TpmResult(load.state, Some(t), SysNull, alloc)
      else
        var init := alloc + [SysInitialize(env.sysSize, t)];
        if env.sysInitRc != TSS2_RC_SUCCESS then
          TpmResult(load.state, Some(t), SysFreed(env.sysSize), init + [Free(SysBlock(env.sysSize))])
        else
          TpmResult(load.state, Some(t), SysLive(env.sysSize, t), init)
  }

  /** The TCTI is loaded before anything else; without a transport the
      stage stops there, and a failed `Tss2_Sys_Initialize` ends by freeing
      the block. */
  lemma TpmBringUpTrace(loader: LoaderState, env: Env)
    ensures var r := TpmBringUp(loader, env);
            var load := AfterLoad(loader, env.tcti, TctiName).calls;
            && |r.calls| >= |load|
            && r.calls[..|load|] == load
            && (r.tcti.None? ==> r.calls == load)
            && (r.context.SysFreed? ==> r.calls[|r.calls| - 1] == Free(SysBlock(env.sysSize)))
  {
  }

  // -------------------------------------------------------- GOST engine

  datatype GostResult = GostResult(engine: bool, calls: seq<Call>)

  /** Lines 306-361: load the built-in engines and set up the GOST engine;
      a failure after `ENGINE_init` finishes and frees the engine, a failure
      of `ENGINE_init` itself only frees it. */
  function GostSetup(build: Build, env: Env): (r: GostResult)
    ensures !build.gost ==> r == GostResult(false, [])
    ensures r.engine <==>
              build.gost && env.gostFound && env.gostInitOk && env.gostDigestOk && env.gostAsn1Ok && env.gostParamsOk
  {
    if !build.gost then GostResult(false, [])
    else
      var load := [if LegacyOpenSsl(build) then LoadBuiltinEngines else InitCryptoEngines] + [EngineById(Gost)];
      if !env.gostFound then GostResult(false, load)
      else
        var init := load + [EngineInit(Gost)];
        if !env.gostInitOk then GostResult(false, init + [EngineFree(Gost)])
        else
          var unwind := [EngineFinish(Gost)] + [EngineFree(Gost)];
          var digest := init + [EngineGetGostDigest(Gost)];
          if !env.gostDigestOk then GostResult(false, digest + unwind)
          else
            var asn1 := digest + [EngineRegisterAsn1(Gost)];
            if !env.gostAsn1Ok then GostResult(false, asn1 + unwind)
            else
              var params := asn1 + [EngineSetCryptParams(Gost)];
              if !env.gostParamsOk then GostResult(false, params + unwind)
              else GostResult(true, params)
  }

  /** The engines are loaded and GOST looked up first; an engine that was
      found but is not kept is freed by the last call, and finished by the
      one before exactly when its init had succeeded. */
  lemma GostSetupTrace(build: Build, env: Env)
    requires build.gost
    ensures var c := GostSetup(build, env).calls;
            && |c| >= 2
            && c[0] == (if LegacyOpenSsl(build) then LoadBuiltinEngines else InitCryptoEngines)
            && c[1] == EngineById(Gost)
            && (env.gostFound && !GostSetup(build, env).engine ==>
                  && |c| >= 4
                  && c[|c| - 1] == EngineFree(Gost)
                  && (c[|c| - 2] == EngineFinish(Gost) <==> env.gostInitOk))
  {
  }

  /** An engine that is kept, or was never found, is neither finished nor
      freed during setup. */
  lemma GostReleasesOnlyDiscardedEngine(build: Build, env: Env, i: nat)
    requires !(build.gost && env.gostFound && !GostSetup(build, env).engine)
    requires i < |GostSetup(build, env).calls|
    ensures !GostSetup(build, env).calls[i].EngineFree? && !GostSetup(build, env).calls[i].EngineFinish?
  {
  }

  // ------------------------------------------------------ the constructor

  /** What construction leaves behind: the instance's fields, the statics
      and OpenSSL's callback slot, and the calls made after the lock pool was
      filled. */
  datatype Construction = Construction(
    callback: Callback, setLockingCallback: bool, fipsStatus: bool,
    rdrand: bool, rng: bool,
    loader: LoaderState, tcti: Option<TctiContext>, context: SysRef, eg: bool,
    calls: seq<Call>)

  /** Locking-callback installation, done only for an OpenSSL without
      built-in locking. */
  function LockingSetup(build: Build, cb: Callback): (r: (Callback, bool))
    ensures r.1 <==> LegacyOpenSsl(build) && cb == NoCallback
    ensures Uninstall(r.0, r.1) == cb
  {
    if LegacyOpenSsl(build) then Install(cb) else (cb, false)
  }

  /** What the constructor does once FIPS mode is settled (lines 251-361):
      OpenSSL and RDRAND, the RNG, the TPM, then GOST, which is reached
      only after a complete TPM bring-up. */
  datatype BringUpResult = BringUpResult(
    rdrand: bool, loader: LoaderState, tcti: Option<TctiContext>, context: SysRef, eg: bool,
    calls: seq<Call>)

  function BringUp(build: Build, env: Env, loader: LoaderState): (r: BringUpResult)
    ensures r.rdrand == RdrandSetup(env).engine
    ensures r.loader == TpmBringUp(loader, env).loader && r.tcti == TpmBringUp(loader, env).tcti
    ensures r.context == TpmBringUp(loader, env).context
    ensures r.eg <==> r.context.SysLive? && GostSetup(build, env).engine
    // an incomplete TPM bring-up returns before any GOST call is made
    ensures !TpmBringUp(loader, env).context.SysLive? ==>
              r.calls == RdrandSetup(env).calls + [NewRng] + TpmBringUp(loader, env).calls
    ensures TpmBringUp(loader, env).context.SysLive? ==>
              r.calls == RdrandSetup(env).calls + [NewRng] + TpmBringUp(loader, env).calls + GostSetup(build, env).calls
  {
    var rd := RdrandSetup(env);
    var withRng := rd.calls + [NewRng];
    var tpm := TpmBringUp(loader, env);
    if !tpm.context.SysLive? then
      BringUpResult(rd.engine, tpm.loader, tpm.tcti, tpm.context, false, withRng + tpm.calls)
    else
      var gost := GostSetup(build, env);
      BringUpResult(rd.engine, tpm.loader, tpm.tcti, tpm.context, gost.engine, withRng + tpm.calls + gost.calls)
  }

  /** The RNG is made after RDRAND is set up and before the TPM is touched. */
  lemma BringUpTrace(build: Build, env: Env, loader: LoaderState)
    ensures var r := BringUp(build, env, loader);
            var rd := RdrandSetup(env).calls;
            && |r.calls| > |rd|
            && r.calls[..|rd|] == rd
            && r.calls[|rd|] == NewRng
            && r.calls[|rd| + 1..|rd| + 1 + |TpmBringUp(loader, env).calls|] == TpmBringUp(loader, env).calls
  {
    var rd := RdrandSetup(env).calls;
    var tpm := TpmBringUp(loader, env).calls;
    var r := BringUp(build, env, loader);
    var rest := if TpmBringUp(loader, env).context.SysLive? then GostSetup(build, env).calls else [];
    assert r.calls == rd + [NewRng] + tpm + rest;
    assert (rd + [NewRng] + tpm + rest)[|rd| + 1..|rd| + 1 + |tpm|] == tpm;
  }

  function LockCalls(installed: bool): seq<Call> {
    if installed then [SetLockingCallback(OurCallback)] else []
  }

  /** What the constructor sets from FIPS entry on (lines 234-361). */
  datatype Services = Services(
    fipsStatus: bool, rdrand: bool, rng: bool,
    loader: LoaderState, tcti: Option<TctiContext>, context: SysRef, eg: bool,
    calls: seq<Call>)

  /** Lines 234-361, from the static `FipsSelfTestStatus`, the loader
      statics and the static `tcti`; a failed FIPS entry returns at once. */
  function Configured(build: Build, env: Env, fipsStatus: bool,
                      loader: LoaderState, tcti: Option<TctiContext>): (s: Services)
    ensures s.rng <==> FipsEntry(build, env, fipsStatus).proceed
    ensures !s.rng ==> s == Services(FipsEntry(build, env, fipsStatus).status, false, false, loader, tcti, SysNull,
                                     false, FipsEntry(build, env, fipsStatus).calls)
  {
    var fips := FipsEntry(build, env, fipsStatus);
    if !fips.proceed then
      Services(fips.status, false, false, loader, tcti, SysNull, false, fips.calls)
    else
      var b := BringUp(build, env, loader);
      Services(fips.status, b.rdrand, true, b.loader, b.tcti, b.context, b.eg, fips.calls + b.calls)
  }

  /** The constructor after its lock pool is filled (lines 225-361), from the
      callback slot `cb`, the static `FipsSelfTestStatus`, the loader statics
      and the static `tcti`. */
  function Construct(build: Build, env: Env, cb: Callback, fipsStatus: bool,
                     loader: LoaderState, tcti: Option<TctiContext>): (c: Construction)
    ensures c.setLockingCallback <==> LegacyOpenSsl(build) && cb == NoCallback
    ensures Uninstall(c.callback, c.setLockingCallback) == cb
    // a failed FIPS entry skips everything after it, the RNG included
    ensures !FipsEntry(build, env, fipsStatus).proceed ==>
              && !c.rng && !c.rdrand && !c.eg && c.context == SysNull
              && c.loader == loader && c.tcti == tcti
    ensures c.rng <==> FipsEntry(build, env, fipsStatus).proceed
    ensures c.fipsStatus == FipsEntry(build, env, fipsStatus).status
    // the TPM stage is reached whenever the RNG was made
    ensures c.rng ==> c.tcti == AfterLoad(loader, env.tcti, TctiName).ctx
    // GOST is set up only after a complete TPM bring-up
    ensures c.eg <==> c.rng && c.context.SysLive? && GostSetup(build, env).engine
    ensures c.context.SysLive? ==>
              c.tcti == Some(c.context.tcti) && c.loader.handle == Some(c.context.tcti.lib)
  {
    var (cb1, installed) := LockingSetup(build, cb);
    var s := Configured(build, env, fipsStatus, loader, tcti);
    Construction(cb1, installed, s.fipsStatus, s.rdrand, s.rng, s.loader, s.tcti, s.context, s.eg,
                 LockCalls(installed) + s.calls)
  }

  // ------------------------------------------------------- the destructor

  /** `Tss2_Sys_GetTctiContext(context, &tcti_ctx)`: the transport a live
      context was initialised with, when the call succeeds.  A NULL context
      is rejected by the call; for a dangling one the model takes the call
      as failed. */
  function NestedTcti(context: SysRef, getTctiOk: bool): (r: Option<TctiContext>)
    ensures r.Some? <==> context.SysLive? && getTctiOk
    ensures r.Some? ==> r.value == context.tcti
  {
    if context.SysLive? && getTctiOk then Some(context.tcti) else None
  }

  /** Lines 367-385: the TPM part of the destructor. */
  function TpmTeardown(context: SysRef, getTctiOk: bool, loader: LoaderState): (r: (LoaderState, seq<Call>))
    ensures r.0 == AfterUnload(loader)
    // the nested transport is fetched before the outer context is finalized
    ensures |r.1| >= 3 && r.1[0] == SysGetTctiContext(context) && r.1[1] == SysFinalize(context)
    // the outer block is freed whenever the pointer is not NULL, dangling or not
    ensures context.SysNull? ==> |r.1| == 3
    ensures !context.SysNull? ==> |r.1| >= 4 && r.1[2] == Free(SysBlock(context.size))
    // the nested transport is finalized and freed only if it was retrieved
    ensures NestedTcti(context, getTctiOk).None? ==> |r.1| == (if context.SysNull? then 3 else 4)
    ensures NestedTcti(context, getTctiOk).Some? ==>
              var t := NestedTcti(context, getTctiOk).value;
              && |r.1| == 6
              && r.1[3] == TctiFinalize(t)
              && r.1[4] == Free(TctiBlock(t))
    // and the loader is unloaded last
    ensures r.1[|r.1| - 1] == TctiLdrUnload
  {
    var nested := NestedTcti(context, getTctiOk);
    var fetch := [SysGetTctiContext(context)] + [SysFinalize(context)];
    var outer := if context.SysNull? then fetch else fetch + [Free(SysBlock(context.size))];
    var all := if nested.Some? then outer + [TctiFinalize(nested.value)] + [Free(TctiBlock(nested.value))] else outer;
    (AfterUnload(loader), all + [TctiLdrUnload])
  }

  /** The TPM teardown never closes a library.  This follows from how
      `TpmTeardown` is written; what reflects `DISABLE_DLCLOSE` (line 92) is
      that `Loader.Unload` has no `Host` in its frame, so the unload at line
      384 cannot record a `dlclose`. */
  lemma TpmTeardownClosesNoLibrary(context: SysRef, getTctiOk: bool, loader: LoaderState, i: nat)
    requires i < |TpmTeardown(context, getTctiOk, loader).1|
    ensures !TpmTeardown(context, getTctiOk, loader).1[i].DlClose?
  {
  }

  datatype Teardown = Teardown(loader: LoaderState, callback: Callback, calls: seq<Call>)

  /** Lines 387-410: the rest of the destructor, in its order: the GOST
      engine, the RNG, the locking callback (only if this instance installed
      it), then every mutex of the pool. */
  function Epilogue(build: Build, eg: bool, rng: bool, setLockingCallback: bool, locks: seq<Mutex>): seq<Call> {
    (if eg then [EngineFinish(Gost)] + [EngineFree(Gost)] else []) +
    (if rng then [DeleteRng] else []) +
    (if LegacyOpenSsl(build) && setLockingCallback then [SetLockingCallback(NoCallback)] else []) +
    RecycleCalls(locks)
  }

  /** After the TPM part, the destructor only releases the GOST engine and
      the RNG, clears the callback and recycles mutexes. */
  lemma EpilogueReleasesOnly(build: Build, eg: bool, rng: bool, setLockingCallback: bool, locks: seq<Mutex>, j: nat)
    requires j < |Epilogue(build, eg, rng, setLockingCallback, locks)|
    ensures var c := Epilogue(build, eg, rng, setLockingCallback, locks)[j];
            c.EngineFinish? || c.EngineFree? || c.DeleteRng? || c.SetLockingCallback? || c.RecycleMutex?
  {
    var head := (if eg then [EngineFinish(Gost)] + [EngineFree(Gost)] else []) +
                (if rng then [DeleteRng] else []) +
                (if LegacyOpenSsl(build) && setLockingCallback then [SetLockingCallback(NoCallback)] else []);
    if j >= |head| {
      assert Epilogue(build, eg, rng, setLockingCallback, locks)[j] == RecycleCalls(locks)[j - |head|];
    }
  }

  /** Lines 365-412: the whole destructor, from the instance's fields, the
      loader statics, OpenSSL's callback slot and the lock pool. */
  function Destruct(build: Build, context: SysRef, getTctiOk: bool, eg: bool, rng: bool,
                    setLockingCallback: bool, cb: Callback, locks: seq<Mutex>,
                    loader: LoaderState): (t: Teardown)
    ensures t.loader == AfterUnload(loader)
    ensures t.callback == (if LegacyOpenSsl(build) then Uninstall(cb, setLockingCallback) else cb)
  {
    var tpm := TpmTeardown(context, getTctiOk, loader);
    var cb1 := if LegacyOpenSsl(build) then Uninstall(cb, setLockingCallback) else cb;
    Teardown(tpm.0, cb1, tpm.1 + Epilogue(build, eg, rng, setLockingCallback, locks))
  }

  /** The epilogue's order: GOST, then the RNG, then the callback, then the
      lock pool in index order. */
  lemma EpilogueOrder(build: Build, eg: bool, rng: bool, setLockingCallback: bool, locks: seq<Mutex>)
    ensures var e := Epilogue(build, eg, rng, setLockingCallback, locks);
            var n := if eg then 2 else 0;
            var l := n + (if rng then 1 else 0);
            var m := l + (if LegacyOpenSsl(build) && setLockingCallback then 1 else 0);
            && |e| == m + |locks|
            && (eg ==> e[0] == EngineFinish(Gost) && e[1] == EngineFree(Gost))
            && (rng ==> e[n] == DeleteRng)
            && (m > l ==> e[l] == SetLockingCallback(NoCallback))
            && e[m..] == RecycleCalls(locks)
  {
    var gost := if eg then [EngineFinish(Gost)] + [EngineFree(Gost)] else [];
    var rngCalls := if rng then [DeleteRng] else [];
    var clear := if LegacyOpenSsl(build) && setLockingCallback then [SetLockingCallback(NoCallback)] else [];
    var head := gost + rngCalls + clear;
    assert Epilogue(build, eg, rng, setLockingCallback, locks) == head + RecycleCalls(locks);
    assert (head + RecycleCalls(locks))[|head|..] == RecycleCalls(locks);
  }

  /** The destructor's order: the whole TPM part first, then the epilogue. */
  lemma DestructOrder(build: Build, context: SysRef, getTctiOk: bool, eg: bool, rng: bool,
                      setLockingCallback: bool, cb: Callback, locks: seq<Mutex>, loader: LoaderState)
    ensures var t := Destruct(build, context, getTctiOk, eg, rng, setLockingCallback, cb, locks, loader);
            var g := |TpmTeardown(context, getTctiOk, loader).1|;
            && |t.calls| == g + |Epilogue(build, eg, rng, setLockingCallback, locks)|
            && t.calls[..g] == TpmTeardown(context, getTctiOk, loader).1
            && t.calls[g..] == Epilogue(build, eg, rng, setLockingCallback, locks)
  {
    var tpm := TpmTeardown(context, getTctiOk, loader).1;
    var e := Epilogue(build, eg, rng, setLockingCallback, locks);
    assert (tpm + e)[..|tpm|] == tpm;
    assert (tpm + e)[|tpm|..] == e;
  }

  // --------------------------------------------------- lifecycle lemmas

  /** Construction followed by destruction gives OpenSSL's callback slot
      back as it was. */
  lemma TeardownRestoresCallback(build: Build, env: Env, cb: Callback, fipsStatus: bool,
                                 loader: LoaderState, tcti: Option<TctiContext>,
                                 getTctiOk: bool, locks: seq<Mutex>)
    ensures var c := Construct(build, env, cb, fipsStatus, loader, tcti);
            Destruct(build, c.context, getTctiOk, c.eg, c.rng, c.setLockingCallback, c.callback,
                     locks, c.loader).callback == cb
  {
  }

  /** With the system context live and its transport retrieved,
      destruction finalizes the nested transport only after the system
      context, frees each block once, and leaves the loader empty. */
  lemma BoundContextTeardownOrder(build: Build, size: nat, tcti: TctiContext, eg: bool, rng: bool,
                                  setLockingCallback: bool, cb: Callback, locks: seq<Mutex>,
                                  loader: LoaderState)
    requires loader.handle.Some?
    ensures var live := SysLive(size, tcti);
            var t := Destruct(build, live, true, eg, rng, setLockingCallback, cb, locks, loader);
            && t.loader == Empty
            && t.calls[..6] == [SysGetTctiContext(live), SysFinalize(live), Free(SysBlock(size)),
                                TctiFinalize(tcti), Free(TctiBlock(tcti)), TctiLdrUnload]
  {
    var live := SysLive(size, tcti);
    var tpm := TpmTeardown(live, true, loader).1;
    assert tpm == [SysGetTctiContext(live), SysFinalize(live), Free(SysBlock(size)),
                   TctiFinalize(tcti), Free(TctiBlock(tcti)), TctiLdrUnload];
    assert (tpm + Epilogue(build, eg, rng, setLockingCallback, locks))[..6] == tpm;
  }

  /** After the TPM part, the destructor only releases the GOST engine and
      the RNG, clears the callback and recycles mutexes. */
  lemma DestructAfterTpm(build: Build, context: SysRef, getTctiOk: bool, eg: bool, rng: bool,
                         setLockingCallback: bool, cb: Callback, locks: seq<Mutex>,
                         loader: LoaderState, k: nat)
    requires |TpmTeardown(context, getTctiOk, loader).1| <= k <
             |Destruct(build, context, getTctiOk, eg, rng, setLockingCallback, cb, locks, loader).calls|
    ensures var c := Destruct(build, context, getTctiOk, eg, rng, setLockingCallback, cb, locks, loader).calls[k];
            c.EngineFinish? || c.EngineFree? || c.DeleteRng? || c.SetLockingCallback? || c.RecycleMutex?
  {
    var tpm := TpmTeardown(context, getTctiOk, loader).1;
    var e := Epilogue(build, eg, rng, setLockingCallback, locks);
    assert (tpm + e)[k] == e[k - |tpm|];
    EpilogueReleasesOnly(build, eg, rng, setLockingCallback, locks, k - |tpm|);
  }

  /** When `Tss2_Sys_Initialize` fails, the constructor frees the system
      context but keeps the pointer to it. */
  lemma SysInitFailureLeavesDanglingContext(build: Build, env: Env, cb: Callback, fipsStatus: bool,
                                            loader: LoaderState, tcti: Option<TctiContext>)
    requires FipsEntry(build, env, fipsStatus).proceed
    requires AfterLoad(loader, env.tcti, TctiName).ctx.Some?
    requires env.sysCallocOk && env.sysInitRc != TSS2_RC_SUCCESS
    ensures var c := Construct(build, env, cb, fipsStatus, loader, tcti);
            && c.context == SysFreed(env.sysSize)
            && c.calls[|c.calls| - 1] == Free(SysBlock(env.sysSize))
  {
    var tpm := TpmBringUp(loader, env);
    TpmBringUpTrace(loader, env);
    assert tpm.context == SysFreed(env.sysSize);
    var c := Construct(build, env, cb, fipsStatus, loader, tcti);
    ConstructCalls(build, env, cb, fipsStatus, loader, tcti);
    LastOfConcat(RdrandSetup(env).calls + [NewRng], tpm.calls);
    LastOfConcat(LockCalls(c.setLockingCallback) + FipsEntry(build, env, fipsStatus).calls,
                 BringUp(build, env, loader).calls);
  }

  /** Past a successful FIPS entry, the constructor's calls are the
      callback installation, the FIPS entry and the bring-up, in order. */
  lemma ConstructCalls(build: Build, env: Env, cb: Callback, fipsStatus: bool,
                       loader: LoaderState, tcti: Option<TctiContext>)
    requires FipsEntry(build, env, fipsStatus).proceed
    ensures var c := Construct(build, env, cb, fipsStatus, loader, tcti);
            c.calls == LockCalls(c.setLockingCallback) + FipsEntry(build, env, fipsStatus).calls +
                       BringUp(build, env, loader).calls
  {
    var c := Construct(build, env, cb, fipsStatus, loader, tcti);
    var s := Configured(build, env, fipsStatus, loader, tcti);
    assert s.calls == FipsEntry(build, env, fipsStatus).calls + BringUp(build, env, loader).calls;
    assert c.calls == LockCalls(c.setLockingCallback) + s.calls;
    AppendAssoc(LockCalls(c.setLockingCallback), FipsEntry(build, env, fipsStatus).calls,
                BringUp(build, env, loader).calls);
  }

  lemma LastOfConcat(a: seq<Call>, b: seq<Call>)
    requires |b| > 0
    ensures (a + b)[|a + b| - 1] == b[|b| - 1]
  {
  }

  /** The destructor frees a dangling system context a second time, and
      never finalizes a transport it could not retrieve from it. */
  lemma DestructFreesDanglingContextAgain(build: Build, size: nat, getTctiOk: bool, eg: bool, rng: bool,
                                          setLockingCallback: bool, cb: Callback, locks: seq<Mutex>,
                                          loader: LoaderState)
    ensures var t := Destruct(build, SysFreed(size), getTctiOk, eg, rng, setLockingCallback, cb, locks, loader);
            && t.calls[2] == Free(SysBlock(size))
            && (forall k :: 0 <= k < |t.calls| ==> !t.calls[k].TctiFinalize?)
  {
    var t := Destruct(build, SysFreed(size), getTctiOk, eg, rng, setLockingCallback, cb, locks, loader);
    var down := TpmTeardown(SysFreed(size), getTctiOk, loader).1;
    var e := Epilogue(build, eg, rng, setLockingCallback, locks);
    assert down == [SysGetTctiContext(SysFreed(size)), SysFinalize(SysFreed(size)), Free(SysBlock(size)),
                    TctiLdrUnload];
    assert t.calls == down + e;
    forall k | 0 <= k < |t.calls| ensures !t.calls[k].TctiFinalize? {
      if k < |down| {
        assert t.calls[k] == down[k];
      } else {
        assert t.calls[k] == e[k - |down|];
        EpilogueReleasesOnly(build, eg, rng, setLockingCallback, locks, k - |down|);
      }
    }
  }

  /** Without a live system context the destructor cannot reach the
      transport: it neither finalizes nor frees a transport context. */
  lemma UnboundTransportNotReleased(build: Build, context: SysRef, getTctiOk: bool, eg: bool, rng: bool,
                                    setLockingCallback: bool, cb: Callback, locks: seq<Mutex>,
                                    loader: LoaderState, k: nat)
    requires !context.SysLive?
    requires k < |Destruct(build, context, getTctiOk, eg, rng, setLockingCallback, cb, locks, loader).calls|
    ensures var c := Destruct(build, context, getTctiOk, eg, rng, setLockingCallback, cb, locks, loader).calls[k];
            !c.TctiFinalize? && !(c.Free? && c.block.TctiBlock?)
  {
    var down := TpmTeardown(context, getTctiOk, loader).1;
    var e := Epilogue(build, eg, rng, setLockingCallback, locks);
    if k < |down| {
      assert (down + e)[k] == down[k];
    } else {
      assert (down + e)[k] == e[k - |down|];
      EpilogueReleasesOnly(build, eg, rng, setLockingCallback, locks, k - |down|);
    }
  }

  /** When the transport loads but the system context cannot be allocated
      or initialised (lines 289-302), the transport context stays in the
      static `tcti` and the destructor never finalizes or frees it.  After
      a failed allocation `context` is NULL and this is the code's own
      behaviour; after a failed initialisation it rests on `NestedTcti`
      taking the query on the freed block as failed, a read that is
      undefined in C. */
  lemma UnboundTransportLeaks(build: Build, env: Env, cb: Callback, fipsStatus: bool,
                              getTctiOk: bool, locks: seq<Mutex>)
    requires FipsEntry(build, env, fipsStatus).proceed
    requires AfterLoad(Empty, env.tcti, TctiName).ctx.Some?
    requires !env.sysCallocOk || env.sysInitRc != TSS2_RC_SUCCESS
    ensures var c := Construct(build, env, cb, fipsStatus, Empty, None);
            var t := Destruct(build, c.context, getTctiOk, c.eg, c.rng, c.setLockingCallback, c.callback,
                              locks, c.loader);
            && c.tcti == AfterLoad(Empty, env.tcti, TctiName).ctx
            && !c.context.SysLive?
            && forall k :: 0 <= k < |t.calls| ==> !t.calls[k].TctiFinalize? && !(t.calls[k].Free? && t.calls[k].block.TctiBlock?)
  {
    var c := Construct(build, env, cb, fipsStatus, Empty, None);
    var t := Destruct(build, c.context, getTctiOk, c.eg, c.rng, c.setLockingCallback, c.callback, locks, c.loader);
    forall k | 0 <= k < |t.calls|
      ensures !t.calls[k].TctiFinalize? && !(t.calls[k].Free? && t.calls[k].block.TctiBlock?)
    {
      UnboundTransportNotReleased(build, c.context, getTctiOk, c.eg, c.rng, c.setLockingCallback, c.callback,
                                  locks, c.loader, k);
    }
  }

  /** Together: after a failed `Tss2_Sys_Initialize` the same block is freed
      by the constructor and again by the destructor.  The loaded transport
      is then never finalized only because `NestedTcti` takes the query on
      the freed block as failed; in C that read is undefined. */
  lemma SysInitFailureFreesContextTwice(build: Build, env: Env, cb: Callback, fipsStatus: bool,
                                        getTctiOk: bool, locks: seq<Mutex>)
    requires FipsEntry(build, env, fipsStatus).proceed
    requires AfterLoad(Empty, env.tcti, TctiName).ctx.Some?
    requires env.sysCallocOk && env.sysInitRc != TSS2_RC_SUCCESS
    ensures var c := Construct(build, env, cb, fipsStatus, Empty, None);
            var t := Destruct(build, c.context, getTctiOk, c.eg, c.rng, c.setLockingCallback, c.callback,
                              locks, c.loader);
            var trace := c.calls + t.calls;
            && trace[|c.calls| - 1] == Free(SysBlock(env.sysSize))
            && trace[|c.calls| + 2] == Free(SysBlock(env.sysSize))
            && (forall k :: 0 <= k < |t.calls| ==> !t.calls[k].TctiFinalize?)
  {
    SysInitFailureLeavesDanglingContext(build, env, cb, fipsStatus, Empty, None);
    var c := Construct(build, env, cb, fipsStatus, Empty, None);
    DestructFreesDanglingContextAgain(build, env.sysSize, getTctiOk, c.eg, c.rng, c.setLockingCallback,
                                      c.callback, locks, c.loader);
  }

  // ------------------------------------------- the corrected release paths

  /** No call in `calls` frees a block or finalizes a transport. */
  predicate ReleasesNothing(calls: seq<Call>) {
    forall c | c in calls :: !c.Free? && !c.TctiFinalize?
  }

  /** Every constructor stage but the TPM one releases no block and
      finalizes no transport. */
  lemma StagesReleaseNothing(build: Build, env: Env, fipsStatus: bool, installed: bool)
    ensures ReleasesNothing(LockCalls(installed))
    ensures ReleasesNothing(FipsEntry(build, env, fipsStatus).calls)
    ensures ReleasesNothing(RdrandSetup(env).calls + [NewRng])
    ensures ReleasesNothing(GostSetup(build, env).calls)
  {
  }

  /** Nor does the destructor after its TPM part. */
  lemma EpilogueReleasesNothing(build: Build, eg: bool, rng: bool, setLockingCallback: bool, locks: seq<Mutex>)
    ensures ReleasesNothing(Epilogue(build, eg, rng, setLockingCallback, locks))
  {
    var e := Epilogue(build, eg, rng, setLockingCallback, locks);
    forall c | c in e ensures !c.Free? && !c.TctiFinalize? {
      var j :| 0 <= j < |e| && e[j] == c;
      EpilogueReleasesOnly(build, eg, rng, setLockingCallback, locks, j);
    }
  }

  /** How often the constructor makes call `x` once FIPS entry succeeded:
      the sum over its stages. */
  lemma ConstructCount(build: Build, env: Env, cb: Callback, fipsStatus: bool,
                       loader: LoaderState, tcti: Option<TctiContext>, x: Call)
    requires FipsEntry(build, env, fipsStatus).proceed
    ensures var c := Construct(build, env, cb, fipsStatus, loader, tcti);
            var tpm := TpmBringUp(loader, env);
            multiset(c.calls)[x] ==
              multiset(LockCalls(c.setLockingCallback))[x] + multiset(FipsEntry(build, env, fipsStatus).calls)[x] +
              multiset(RdrandSetup(env).calls + [NewRng])[x] + multiset(tpm.calls)[x] +
              (if tpm.context.SysLive? then multiset(GostSetup(build, env).calls)[x] else 0)
  {
  }

  /** The constructor as it would be with `context = NULL;` after the
      `free(context)` at line 301, so that no pointer to a freed block is
      left behind.  Nothing else changes. */
  function ConstructCorrected(build: Build, env: Env, cb: Callback, fipsStatus: bool,
                              loader: LoaderState, tcti: Option<TctiContext>): (c: Construction)
    ensures !c.context.SysFreed?
    ensures Construct(build, env, cb, fipsStatus, loader, tcti).context.SysFreed? ==> c.context == SysNull
    ensures !Construct(build, env, cb, fipsStatus, loader, tcti).context.SysFreed? ==>
              c == Construct(build, env, cb, fipsStatus, loader, tcti)
    ensures c.(context := SysNull) == Construct(build, env, cb, fipsStatus, loader, tcti).(context := SysNull)
  {
    var c := Construct(build, env, cb, fipsStatus, loader, tcti);
    if c.context.SysFreed? then c.(context := SysNull) else c
  }

  /** The TPM bring-up frees a system block only when it leaves `context`
      dangling, and then only that one. */
  lemma TpmBringUpSysFrees(loader: LoaderState, env: Env, n: nat)
    ensures var tpm := TpmBringUp(loader, env);
            multiset(tpm.calls)[Free(SysBlock(n))] == (if tpm.context == SysFreed(n) then 1 else 0)
  {
    var x := Free(SysBlock(n));
    var load := AfterLoad(loader, env.tcti, TctiName);
    LoadReleasesOnlyOwnBlock(loader, env.tcti, TctiName, n, TctiContext(Handle([]), 0));
    CountOfAbsent(load.calls, x);
    if load.ctx.Some? {
      var alloc := load.calls + [Calloc(env.sysSize)];
      CountOfConcat(load.calls, [Calloc(env.sysSize)], x);
      if env.sysCallocOk {
        var init := alloc + [SysInitialize(env.sysSize, load.ctx.value)];
        CountOfConcat(alloc, [SysInitialize(env.sysSize, load.ctx.value)], x);
        if env.sysInitRc != TSS2_RC_SUCCESS {
          CountOfConcat(init, [Free(SysBlock(env.sysSize))], x);
        }
      }
    }
  }

  /** The destructor frees the system block `context` points to, if any,
      and no other system block. */
  lemma DestructSysFrees(build: Build, context: SysRef, getTctiOk: bool, eg: bool, rng: bool,
                         setLockingCallback: bool, cb: Callback, locks: seq<Mutex>,
                         loader: LoaderState, n: nat)
    ensures var t := Destruct(build, context, getTctiOk, eg, rng, setLockingCallback, cb, locks, loader);
            multiset(t.calls)[Free(SysBlock(n))] == (if !context.SysNull? && context.size == n then 1 else 0)
  {
    var down := TpmTeardown(context, getTctiOk, loader).1;
    var e := Epilogue(build, eg, rng, setLockingCallback, locks);
    EpilogueReleasesNothing(build, eg, rng, setLockingCallback, locks);
    TpmTeardownSysFrees(context, getTctiOk, loader, n);
    assert Destruct(build, context, getTctiOk, eg, rng, setLockingCallback, cb, locks, loader).calls == down + e;
    ReleaseCountIgnoresTail(down, e, Free(SysBlock(n)));
  }

  /** The TPM part of the destructor frees the outer block once, when the
      pointer is not NULL. */
  lemma TpmTeardownSysFrees(context: SysRef, getTctiOk: bool, loader: LoaderState, n: nat)
    ensures multiset(TpmTeardown(context, getTctiOk, loader).1)[Free(SysBlock(n))] ==
            (if !context.SysNull? && context.size == n then 1 else 0)
  {
  }

  lemma ReleaseCountIgnoresTail(calls: seq<Call>, tail: seq<Call>, x: Call)
    requires ReleasesNothing(tail)
    requires x.Free? || x.TctiFinalize?
    ensures multiset(calls + tail)[x] == multiset(calls)[x]
  {
    CountOfAbsent(tail, x);
    CountOfConcat(calls, tail, x);
  }

  /** With the pointer cleared, a construction followed by a destruction
      frees the system context's block at most once. */
  lemma CorrectedBringUpFreesSystemBlockOnce(build: Build, env: Env, cb: Callback, fipsStatus: bool,
                                             loader: LoaderState, tcti: Option<TctiContext>,
                                             getTctiOk: bool, locks: seq<Mutex>, n: nat)
    ensures var c := ConstructCorrected(build, env, cb, fipsStatus, loader, tcti);
            var t := Destruct(build, c.context, getTctiOk, c.eg, c.rng, c.setLockingCallback, c.callback,
                              locks, c.loader);
            multiset(c.calls + t.calls)[Free(SysBlock(n))] <= 1
  {
    var x := Free(SysBlock(n));
    var c := ConstructCorrected(build, env, cb, fipsStatus, loader, tcti);
    DestructSysFrees(build, c.context, getTctiOk, c.eg, c.rng, c.setLockingCallback, c.callback, locks, c.loader, n);
    StagesReleaseNothing(build, env, fipsStatus, c.setLockingCallback);
    CountOfAbsent(LockCalls(c.setLockingCallback), x);
    CountOfAbsent(FipsEntry(build, env, fipsStatus).calls, x);
    if FipsEntry(build, env, fipsStatus).proceed {
      ConstructCount(build, env, cb, fipsStatus, loader, tcti, x);
      TpmBringUpSysFrees(loader, env, n);
      CountOfAbsent(RdrandSetup(env).calls + [NewRng], x);
      CountOfAbsent(GostSetup(build, env).calls, x);
    }
  }

  /** The TPM part of the destructor as it would be if, when no transport
      can be fetched from `context`, it finalized and freed the one the
      static `tcti` holds, and in any case set `tcti` to NULL, before
      unloading the plugin.  The result is the loader, the new static
      `tcti` and the calls. */
  function TpmTeardownCorrected(context: SysRef, getTctiOk: bool, loader: LoaderState,
                                tcti: Option<TctiContext>): (r: (LoaderState, Option<TctiContext>, seq<Call>))
    ensures r.0 == AfterUnload(loader)
    // no later teardown can reach the released transport through the static
    ensures r.1 == None
    ensures NestedTcti(context, getTctiOk).Some? ==> (r.0, r.2) == TpmTeardown(context, getTctiOk, loader)
    ensures |r.2| >= 3 && r.2[0] == SysGetTctiContext(context) && r.2[1] == SysFinalize(context)
    ensures r.2[|r.2| - 1] == TctiLdrUnload
  {
    var nested := NestedTcti(context, getTctiOk);
    var released := if nested.Some? then nested else tcti;
    var fetch := [SysGetTctiContext(context)] + [SysFinalize(context)];
    var outer := if context.SysNull? then fetch else fetch + [Free(SysBlock(context.size))];
    var all := if released.Some? then outer + [TctiFinalize(released.value)] + [Free(TctiBlock(released.value))] else outer;
    (AfterUnload(loader), None, all + [TctiLdrUnload])
  }

  /** The corrected TPM teardown releases exactly one transport: the one
      fetched from `context`, or else the one in the static `tcti`. */
  lemma TpmTeardownCorrectedReleasesOnce(context: SysRef, getTctiOk: bool, loader: LoaderState,
                                         tcti: Option<TctiContext>, x: TctiContext)
    ensures var r := TpmTeardownCorrected(context, getTctiOk, loader, tcti).2;
            var released := if NestedTcti(context, getTctiOk).Some? then NestedTcti(context, getTctiOk) else tcti;
            && multiset(r)[TctiFinalize(x)] == (if released == Some(x) then 1 else 0)
            && multiset(r)[Free(TctiBlock(x))] == (if released == Some(x) then 1 else 0)
  {
  }

  /** What the corrected destructor leaves: the loader statics, the static
      `tcti`, OpenSSL's callback slot, and its calls. */
  datatype CorrectedTeardown = CorrectedTeardown(
    loader: LoaderState, tcti: Option<TctiContext>, callback: Callback, calls: seq<Call>)

  /** The destructor with the corrected TPM part; `tcti` is the static. */
  function DestructCorrected(build: Build, context: SysRef, getTctiOk: bool, eg: bool, rng: bool,
                             setLockingCallback: bool, cb: Callback, locks: seq<Mutex>,
                             loader: LoaderState, tcti: Option<TctiContext>): (t: CorrectedTeardown)
    ensures t.loader == AfterUnload(loader)
    ensures t.tcti == None
    ensures t.callback == Destruct(build, context, getTctiOk, eg, rng, setLockingCallback, cb, locks, loader).callback
    ensures NestedTcti(context, getTctiOk).Some? ==>
              Teardown(t.loader, t.callback, t.calls) ==
              Destruct(build, context, getTctiOk, eg, rng, setLockingCallback, cb, locks, loader)
  {
    var tpm := TpmTeardownCorrected(context, getTctiOk, loader, tcti);
    var cb1 := if LegacyOpenSsl(build) then Uninstall(cb, setLockingCallback) else cb;
    CorrectedTeardown(tpm.0, tpm.1, cb1, tpm.2 + Epilogue(build, eg, rng, setLockingCallback, locks))
  }

  /** A TPM bring-up whose TCTI load succeeds never finalizes or frees a
      transport. */
  lemma TpmBringUpReleasesNoTransport(loader: LoaderState, env: Env, t: TctiContext)
    requires AfterLoad(loader, env.tcti, TctiName).ctx.Some?
    ensures multiset(TpmBringUp(loader, env).calls)[TctiFinalize(t)] == 0
    ensures multiset(TpmBringUp(loader, env).calls)[Free(TctiBlock(t))] == 0
  {
    var load := AfterLoad(loader, env.tcti, TctiName);
    LoadReleasesOnlyOwnBlock(loader, env.tcti, TctiName, 0, t);
    var calls := TpmBringUp(loader, env).calls;
    assert TctiFinalize(t) !in calls && Free(TctiBlock(t)) !in calls by {
      var alloc := load.calls + [Calloc(env.sysSize)];
      var init := alloc + [SysInitialize(env.sysSize, load.ctx.value)];
      assert calls == alloc || calls == init || calls == init + [Free(SysBlock(env.sysSize))];
    }
    CountOfAbsent(calls, TctiFinalize(t));
    CountOfAbsent(calls, Free(TctiBlock(t)));
  }

  /** A construction whose TCTI load succeeds never finalizes or frees a
      transport. */
  lemma TransportNotReleasedDuringConstruction(build: Build, env: Env, cb: Callback, fipsStatus: bool,
                                               loader: LoaderState, tcti: Option<TctiContext>, y: Call)
    requires FipsEntry(build, env, fipsStatus).proceed
    requires AfterLoad(loader, env.tcti, TctiName).ctx.Some?
    requires y.TctiFinalize? || (y.Free? && y.block.TctiBlock?)
    ensures multiset(Construct(build, env, cb, fipsStatus, loader, tcti).calls)[y] == 0
  {
    var c := Construct(build, env, cb, fipsStatus, loader, tcti);
    StagesReleaseNothing(build, env, fipsStatus, c.setLockingCallback);
    ConstructCount(build, env, cb, fipsStatus, loader, tcti, y);
    TpmBringUpReleasesNoTransport(loader, env, if y.TctiFinalize? then y.ctx else y.block.ctx);
    CountOfAbsent(LockCalls(c.setLockingCallback), y);
    CountOfAbsent(FipsEntry(build, env, fipsStatus).calls, y);
    CountOfAbsent(RdrandSetup(env).calls + [NewRng], y);
    CountOfAbsent(GostSetup(build, env).calls, y);
  }

  /** The corrected destructor releases exactly one transport, the one its
      TPM part releases. */
  lemma DestructCorrectedReleasesOnce(build: Build, context: SysRef, getTctiOk: bool, eg: bool, rng: bool,
                                      setLockingCallback: bool, cb: Callback, locks: seq<Mutex>,
                                      loader: LoaderState, tcti: Option<TctiContext>, x: TctiContext)
    ensures var t := DestructCorrected(build, context, getTctiOk, eg, rng, setLockingCallback, cb, locks, loader, tcti);
            var released := if NestedTcti(context, getTctiOk).Some? then NestedTcti(context, getTctiOk) else tcti;
            && multiset(t.calls)[TctiFinalize(x)] == (if released == Some(x) then 1 else 0)
            && multiset(t.calls)[Free(TctiBlock(x))] == (if released == Some(x) then 1 else 0)
  {
    var down := TpmTeardownCorrected(context, getTctiOk, loader, tcti).2;
    var e := Epilogue(build, eg, rng, setLockingCallback, locks);
    EpilogueReleasesNothing(build, eg, rng, setLockingCallback, locks);
    TpmTeardownCorrectedReleasesOnce(context, getTctiOk, loader, tcti, x);
    assert DestructCorrected(build, context, getTctiOk, eg, rng, setLockingCallback, cb, locks, loader, tcti).calls
           == down + e;
    ReleaseCountIgnoresTail(down, e, TctiFinalize(x));
    ReleaseCountIgnoresTail(down, e, Free(TctiBlock(x)));
  }

  /** With the corrected destructor, the transport the constructor loaded
      is finalized exactly once and freed exactly once, whether or not the
      system context came up and whether or not it can be fetched back. */
  lemma CorrectedTeardownReleasesTransportOnce(build: Build, env: Env, cb: Callback, fipsStatus: bool,
                                               loader: LoaderState, tcti: Option<TctiContext>,
                                               getTctiOk: bool, locks: seq<Mutex>)
    requires FipsEntry(build, env, fipsStatus).proceed
    requires AfterLoad(loader, env.tcti, TctiName).ctx.Some?
    ensures var c := Construct(build, env, cb, fipsStatus, loader, tcti);
            var t := DestructCorrected(build, c.context, getTctiOk, c.eg, c.rng, c.setLockingCallback,
                                       c.callback, locks, c.loader, c.tcti);
            var x := AfterLoad(loader, env.tcti, TctiName).ctx.value;
            && c.tcti == Some(x)
            && t.tcti == None
            && multiset(c.calls + t.calls)[TctiFinalize(x)] == 1
            && multiset(c.calls + t.calls)[Free(TctiBlock(x))] == 1
  {
    var c := Construct(build, env, cb, fipsStatus, loader, tcti);
    var t := DestructCorrected(build, c.context, getTctiOk, c.eg, c.rng, c.setLockingCallback,
                               c.callback, locks, c.loader, c.tcti);
    var x := AfterLoad(loader, env.tcti, TctiName).ctx.value;
    ConstructHoldsLoadedTransport(build, env, cb, fipsStatus, loader, tcti, getTctiOk);
    TransportNotReleasedDuringConstruction(build, env, cb, fipsStatus, loader, tcti, TctiFinalize(x));
    TransportNotReleasedDuringConstruction(build, env, cb, fipsStatus, loader, tcti, Free(TctiBlock(x)));
    DestructCorrectedReleasesOnce(build, c.context, getTctiOk, c.eg, c.rng, c.setLockingCallback,
                                  c.callback, locks, c.loader, c.tcti, x);
    CountAfterNone(c.calls, t.calls, TctiFinalize(x));
    CountAfterNone(c.calls, t.calls, Free(TctiBlock(x)));
  }

  /** After a successful load the static `tcti` holds the loaded transport,
      and so does the system context whenever one can be fetched from it. */
  lemma ConstructHoldsLoadedTransport(build: Build, env: Env, cb: Callback, fipsStatus: bool,
                                      loader: LoaderState, tcti: Option<TctiContext>, getTctiOk: bool)
    requires FipsEntry(build, env, fipsStatus).proceed
    requires AfterLoad(loader, env.tcti, TctiName).ctx.Some?
    ensures Construct(build, env, cb, fipsStatus, loader, tcti).tcti == AfterLoad(loader, env.tcti, TctiName).ctx
    ensures var nested := NestedTcti(Construct(build, env, cb, fipsStatus, loader, tcti).context, getTctiOk);
            nested.Some? ==> nested == AfterLoad(loader, env.tcti, TctiName).ctx
  {
  }

  /** A constructor that returns at the failed FIPS entry (line 242) releases
      nothing, and the corrected destructor after it, finding `context` NULL
      and the static `tcti` NULL, releases no transport either. */
  lemma FailedFipsInstanceReleasesNoTransport(build: Build, env: Env, cb: Callback, fipsStatus: bool,
                                              loader: LoaderState, getTctiOk: bool, locks: seq<Mutex>, y: Call)
    requires !FipsEntry(build, env, fipsStatus).proceed
    requires y.TctiFinalize? || (y.Free? && y.block.TctiBlock?)
    ensures var c := Construct(build, env, cb, fipsStatus, loader, None);
            var t := DestructCorrected(build, c.context, getTctiOk, c.eg, c.rng, c.setLockingCallback,
                                       c.callback, locks, c.loader, c.tcti);
            multiset(c.calls + t.calls)[y] == 0
  {
    var c := Construct(build, env, cb, fipsStatus, loader, None);
    var t := DestructCorrected(build, c.context, getTctiOk, c.eg, c.rng, c.setLockingCallback,
                               c.callback, locks, c.loader, c.tcti);
    StagesReleaseNothing(build, env, fipsStatus, c.setLockingCallback);
    assert c.calls == LockCalls(c.setLockingCallback) + FipsEntry(build, env, fipsStatus).calls;
    assert ReleasesNothing(c.calls);
    DestructCorrectedReleasesOnce(build, c.context, getTctiOk, c.eg, c.rng, c.setLockingCallback,
                                  c.callback, locks, c.loader, c.tcti,
                                  if y.TctiFinalize? then y.ctx else y.block.ctx);
    ReleaseCountIgnoresTail([], c.calls, y);
    CountAfterNone(c.calls, t.calls, y);
  }

  /** Two instances in a row, as `i()` and `reset()` make them: the first
      loads transport `x`, the second's constructor returns at the failed
      FIPS entry.  With the corrected destructor, `x` is finalized once and
      freed once over both lifetimes: the first teardown releases it and
      clears the static, so the second finds nothing to release. */
  lemma CorrectedTransportReleasedOnceAcrossInstances(build: Build, env1: Env, env2: Env, cb: Callback,
                                                      fipsStatus1: bool, fipsStatus2: bool,
                                                      loader: LoaderState, tcti: Option<TctiContext>,
                                                      getTctiOk1: bool, getTctiOk2: bool,
                                                      locks1: seq<Mutex>, locks2: seq<Mutex>)
    requires FipsEntry(build, env1, fipsStatus1).proceed
    requires AfterLoad(loader, env1.tcti, TctiName).ctx.Some?
    requires !FipsEntry(build, env2, fipsStatus2).proceed
    ensures var c1 := Construct(build, env1, cb, fipsStatus1, loader, tcti);
            var d1 := DestructCorrected(build, c1.context, getTctiOk1, c1.eg, c1.rng, c1.setLockingCallback,
                                        c1.callback, locks1, c1.loader, c1.tcti);
            var c2 := Construct(build, env2, d1.callback, fipsStatus2, d1.loader, d1.tcti);
            var d2 := DestructCorrected(build, c2.context, getTctiOk2, c2.eg, c2.rng, c2.setLockingCallback,
                                        c2.callback, locks2, c2.loader, c2.tcti);
            var x := AfterLoad(loader, env1.tcti, TctiName).ctx.value;
            && multiset((c1.calls + d1.calls) + (c2.calls + d2.calls))[TctiFinalize(x)] == 1
            && multiset((c1.calls + d1.calls) + (c2.calls + d2.calls))[Free(TctiBlock(x))] == 1
  {
    var c1 := Construct(build, env1, cb, fipsStatus1, loader, tcti);
    var d1 := DestructCorrected(build, c1.context, getTctiOk1, c1.eg, c1.rng, c1.setLockingCallback,
                                c1.callback, locks1, c1.loader, c1.tcti);
    var c2 := Construct(build, env2, d1.callback, fipsStatus2, d1.loader, d1.tcti);
    var d2 := DestructCorrected(build, c2.context, getTctiOk2, c2.eg, c2.rng, c2.setLockingCallback,
                                c2.callback, locks2, c2.loader, c2.tcti);
    var x := AfterLoad(loader, env1.tcti, TctiName).ctx.value;
    CorrectedTeardownReleasesTransportOnce(build, env1, cb, fipsStatus1, loader, tcti, getTctiOk1, locks1);
    assert d1.tcti == None;
    FailedFipsInstanceReleasesNoTransport(build, env2, d1.callback, fipsStatus2, d1.loader, getTctiOk2, locks2,
                                          TctiFinalize(x));
    FailedFipsInstanceReleasesNoTransport(build, env2, d1.callback, fipsStatus2, d1.loader, getTctiOk2, locks2,
                                          Free(TctiBlock(x)));
    CountBeforeNone(c1.calls + d1.calls, c2.calls + d2.calls, TctiFinalize(x));
    CountBeforeNone(c1.calls + d1.calls, c2.calls + d2.calls, Free(TctiBlock(x)));
  }

  lemma CountBeforeNone(a: seq<Call>, b: seq<Call>, x: Call)
    requires multiset(b)[x] == 0
    ensures multiset(a + b)[x] == multiset(a)[x]
  {
    CountOfConcat(a, b, x);
  }

  lemma CountAfterNone(a: seq<Call>, b: seq<Call>, x: Call)
    requires multiset(a)[x] == 0
    ensures multiset(a + b)[x] == multiset(b)[x]
  {
    CountOfConcat(a, b, x);
  }

  // ------------------------------------------------------------ the classes

  /** The factory's one random generator: an opaque object. */
  class Rng {
    constructor ()
    {
    }
  }

  /** An `OSSLCryptoFactory` instance. */
  class CryptoFactory {
    const statics: FactoryStatics
    const build: Build
    const host: Host
    const loader: Loader
    const bridge: Bridge

    var setLockingCallback: bool
    var rdrandEngine: bool
    var rng: Rng?
    var context: SysRef
    var eg: bool

    ghost predicate Wired()
      reads this, statics
    {
      && build == statics.build && host == statics.host
      && loader == statics.loader && bridge == statics.bridge
    }

    /** The instance's fields and the process state it shares agree with `c`. */
    ghost predicate Holds(c: Construction)
      reads this, statics, loader, bridge
    {
      && setLockingCallback == c.setLockingCallback && rdrandEngine == c.rdrand
      && (rng != null) == c.rng && context == c.context && eg == c.eg
      && bridge.callback == c.callback && statics.fipsSelfTestStatus == c.fipsStatus
      && loader.State() == c.loader && loader.tcti == c.tcti
    }

    /** `OSSLCryptoFactory::OSSLCryptoFactory()`. */
    constructor (statics: FactoryStatics, env: Env)
      modifies statics`fipsSelfTestStatus, statics.host, statics.loader, statics.bridge
      ensures this.statics == statics && Wired()
      ensures Holds(Construct(build, env, old(statics.bridge.callback), old(statics.fipsSelfTestStatus),
                              old(statics.loader.State()), old(statics.loader.tcti)))
      ensures bridge.Valid() && fresh(bridge.locks) && bridge.nlocks == env.numLocks
      ensures bridge.locks[..] == IssuedMutexes(old(statics.host.mutexesIssued), env.numLocks as nat)
      ensures host.calls == old(statics.host.calls) + IssueCalls(bridge.locks[..]) +
                Construct(build, env, old(statics.bridge.callback), old(statics.fipsSelfTestStatus),
                          old(statics.loader.State()), old(statics.loader.tcti)).calls
      ensures rng != null ==> fresh(rng)
      ensures old(statics.loader.Valid()) ==> loader.Valid()
    {
      this.statics := statics;
      build, host, loader, bridge := statics.build, statics.host, statics.loader, statics.bridge;
      setLockingCallback, rdrandEngine, rng, context, eg := false, false, null, SysNull, false;
      new;
      ghost var c := Construct(build, env, old(statics.bridge.callback), old(statics.fipsSelfTestStatus),
                               old(statics.loader.State()), old(statics.loader.tcti));
      ghost var start := host.calls;
      SetUpLocking(env);
      ghost var locking := host.calls;
      Configure(env);
      AppendAssoc(start, IssueCalls(bridge.locks[..]), LockCalls(setLockingCallback));
      AppendAssoc(start + IssueCalls(bridge.locks[..]), LockCalls(setLockingCallback), host.calls[|locking|..]);
      assert host.calls == locking + host.calls[|locking|..];
    }

    /** Lines 234-361: FIPS entry, then everything after it. */
    method Configure(env: Env)
      requires Wired() && !rdrandEngine && rng == null && context == SysNull && !eg
      modifies statics`fipsSelfTestStatus, this`rdrandEngine, this`rng, this`context, this`eg, loader, host
      ensures var s := Configured(build, env, old(statics.fipsSelfTestStatus), old(loader.State()), old(loader.tcti));
              && statics.fipsSelfTestStatus == s.fipsStatus && rdrandEngine == s.rdrand
              && (rng != null) == s.rng && context == s.context && eg == s.eg
              && loader.State() == s.loader && loader.tcti == s.tcti
              && host.calls == old(host.calls) + s.calls
      ensures rng != null ==> fresh(rng)
      ensures host.mutexesIssued == old(host.mutexesIssued)
      ensures old(loader.Valid()) ==> loader.Valid()
    {
      ghost var fips := FipsEntry(build, env, statics.fipsSelfTestStatus);
      ghost var b := BringUp(build, env, loader.State());
      ghost var before := host.calls;
      var proceed := EnterFips(env);
      if !proceed {
        return;
      }
      StartServices(env);
      AppendAssoc(before, fips.calls, b.calls);
    }

    /** Lines 251-361: everything after FIPS mode is settled. */
    method StartServices(env: Env)
      requires Wired() && context == SysNull && !eg
      modifies this`rdrandEngine, this`rng, this`context, this`eg, loader, host
      ensures var b := BringUp(build, env, old(loader.State()));
              && rdrandEngine == b.rdrand && rng != null && fresh(rng)
              && context == b.context && eg == b.eg
              && loader.State() == b.loader && loader.tcti == b.tcti
              && host.calls == old(host.calls) + b.calls
      ensures host.mutexesIssued == old(host.mutexesIssued)
      ensures old(loader.Valid()) ==> loader.Valid()
    {
      ghost var b := BringUp(build, env, loader.State());
      ghost var rd := RdrandSetup(env).calls;
      ghost var tpm := TpmBringUp(loader.State(), env);
      ghost var before := host.calls;
      InitRdrand(env);

      // Initialise the one-and-only RNG
      rng := new Rng();
      host.Record(NewRng);
      AppendAssoc(before, rd, [NewRng]);
      ghost var done := rd + [NewRng];
      assert host.calls == before + done;

      var bound := BringUpTpm(env);
      AppendAssoc(before, done, tpm.calls);
      done := done + tpm.calls;
      assert host.calls == before + done;
      if !bound {
        assert b.calls == done;
        return;
      }

      BringUpGost(env);
      AppendAssoc(before, done, GostSetup(build, env).calls);
      assert b.calls == done + GostSetup(build, env).calls;
    }

    /** Lines 217-232: fill the lock pool, then install the locking callback
        where OpenSSL has no locking of its own. */
    method SetUpLocking(env: Env)
      requires Wired() && !setLockingCallback
      modifies this`setLockingCallback, bridge, host
      ensures bridge.Valid() && fresh(bridge.locks) && bridge.nlocks == env.numLocks
      ensures bridge.locks[..] == IssuedMutexes(old(host.mutexesIssued), env.numLocks as nat)
      ensures (bridge.callback, setLockingCallback) == LockingSetup(build, old(bridge.callback))
      ensures host.calls == old(host.calls) + IssueCalls(bridge.locks[..]) + LockCalls(setLockingCallback)
    {
      // Multi-thread support
      bridge.Setup(host, env.numLocks);
      if LegacyOpenSsl(build) {
        setLockingCallback := bridge.InstallCallback(host);
      }
    }

    /** Lines 234-249. */
    method EnterFips(env: Env) returns (proceed: bool)
      requires Wired()
      modifies statics`fipsSelfTestStatus, host
      ensures var r := FipsEntry(build, env, old(statics.fipsSelfTestStatus));
              proceed == r.proceed && statics.fipsSelfTestStatus == r.status &&
              host.calls == old(host.calls) + r.calls
      ensures host.mutexesIssued == old(host.mutexesIssued)
    {
      proceed := true;
      if build.fips {
        if !env.fipsMode {
          statics.fipsSelfTestStatus := false;
          host.Record(FipsModeSet);
          if !env.fipsModeSetOk {
            return false;
          }
        } else {
          host.Record(RandInitFips);
        }
        statics.fipsSelfTestStatus := true;
      }
    }

    /** Lines 251-271. */
    method InitRdrand(env: Env)
      modifies this`rdrandEngine, host
      ensures rdrandEngine == RdrandSetup(env).engine
      ensures host.calls == old(host.calls) + RdrandSetup(env).calls
      ensures host.mutexesIssued == old(host.mutexesIssued)
    {
      ghost var r := RdrandSetup(env);
      ghost var before := host.calls;
      host.Record(AddAllAlgorithms);
      host.Record(LoadRdrandEngine);
      host.Record(EngineById(Rdrand));
      ghost var done := [AddAllAlgorithms] + [LoadRdrandEngine] + [EngineById(Rdrand)];
      assert host.calls == before + done;
      rdrandEngine := env.rdrandFound;
      if !rdrandEngine {
        assert r.calls == done;
        return;
      }
      host.Record(EngineInit(Rdrand));
      AppendAssoc(before, done, [EngineInit(Rdrand)]);
      done := done + [EngineInit(Rdrand)];
      if !env.rdrandInitOk {
        assert r.calls == done;
        return;
      }
      // a failed ENGINE_set_default is only a warning
      host.Record(EngineSetDefaultRand(Rdrand));
      AppendAssoc(before, done, [EngineSetDefaultRand(Rdrand)]);
      assert r.calls == done + [EngineSetDefaultRand(Rdrand)];
    }

    /** Lines 276-304; `bound` is false where the constructor returns. */
    method BringUpTpm(env: Env) returns (bound: bool)
      requires Wired() && context == SysNull
      modifies this`context, loader, host
      ensures var r := TpmBringUp(old(loader.State()), env);
              && bound == r.context.SysLive?
              && context == r.context
              && loader.State() == r.loader && loader.tcti == r.tcti
              && host.calls == old(host.calls) + r.calls
      ensures host.mutexesIssued == old(host.mutexesIssued)
      ensures old(loader.Valid()) ==> loader.Valid()
    {
      ghost var r := TpmBringUp(loader.State(), env);
      ghost var load := AfterLoad(loader.State(), env.tcti, TctiName);
      ghost var before := host.calls;
      var t := loader.Load(host, env.tcti, TctiName);
      loader.tcti := t;
      if t.None? {
        assert r == TpmResult(load.state, None, SysNull, load.calls);
        return false;
      }
      var size := env.sysSize;
      host.Record(Calloc(size));
      AppendAssoc(before, load.calls, [Calloc(size)]);
      ghost var alloc := load.calls + [Calloc(size)];
      if !env.sysCallocOk {
        context := SysNull;
        assert r == TpmResult(load.state, t, SysNull, alloc);
        return false;
      }
      host.Record(SysInitialize(size, t.value));
      AppendAssoc(before, alloc, [SysInitialize(size, t.value)]);
      ghost var init := alloc + [SysInitialize(size, t.value)];
      if env.sysInitRc != TSS2_RC_SUCCESS {
        host.Record(Free(SysBlock(size)));
        AppendAssoc(before, init, [Free(SysBlock(size))]);
        // the pointer is not reset: it now dangles
        context := SysFreed(size);
        assert r == TpmResult(load.state, t, SysFreed(size), init + [Free(SysBlock(size))]);
        return false;
      }
      context := SysLive(size, t.value);
      assert r == TpmResult(load.state, t, context, init);
      return true;
    }

    /** Lines 306-361. */
    method BringUpGost(env: Env)
      requires Wired()
      modifies this`eg, host
      ensures eg == GostSetup(build, env).engine
      ensures host.calls == old(host.calls) + GostSetup(build, env).calls
      ensures host.mutexesIssued == old(host.mutexesIssued)
    {
      eg := false;
      if !build.gost {
        return;
      }
      ghost var r := GostSetup(build, env);
      ghost var before := host.calls;
      var first := if LegacyOpenSsl(build) then LoadBuiltinEngines else InitCryptoEngines;
      host.Record(first);
      host.Record(EngineById(Gost));
      ghost var done := [first] + [EngineById(Gost)];
      assert host.calls == before + done;
      if !env.gostFound {
        assert r.calls == done;
        return;
      }
      host.Record(EngineInit(Gost));
      AppendAssoc(before, done, [EngineInit(Gost)]);
      done := done + [EngineInit(Gost)];
      if !env.gostInitOk {
        host.Record(EngineFree(Gost));
        AppendAssoc(before, done, [EngineFree(Gost)]);
        assert r.calls == done + [EngineFree(Gost)];
        return;
      }
      eg := true;
      host.Record(EngineGetGostDigest(Gost));
      AppendAssoc(before, done, [EngineGetGostDigest(Gost)]);
      done := done + [EngineGetGostDigest(Gost)];
      if env.gostDigestOk {
        host.Record(EngineRegisterAsn1(Gost));
        AppendAssoc(before, done, [EngineRegisterAsn1(Gost)]);
        done := done + [EngineRegisterAsn1(Gost)];
        if env.gostAsn1Ok {
          host.Record(EngineSetCryptParams(Gost));
          AppendAssoc(before, done, [EngineSetCryptParams(Gost)]);
          done := done + [EngineSetCryptParams(Gost)];
          if env.gostParamsOk {
            assert r.calls == done;
            return;
          }
        }
      }
      // err:
      ghost var unwind := [EngineFinish(Gost)] + [EngineFree(Gost)];
      assert r.calls == done + unwind;
      host.Record(EngineFinish(Gost));
      host.Record(EngineFree(Gost));
      AppendAssoc(before, done, [EngineFinish(Gost)]);
      AppendAssoc(before + done, [EngineFinish(Gost)], [EngineFree(Gost)]);
      AppendAssoc(done, [EngineFinish(Gost)], [EngineFree(Gost)]);
      AppendAssoc(before, done, unwind);
      eg := false;
    }

    /** `OSSLCryptoFactory::~OSSLCryptoFactory()`; `getTctiOk` is whether
        `Tss2_Sys_GetTctiContext` succeeds. */
    method Destroy(getTctiOk: bool)
      requires Wired() && bridge.Valid()
      modifies this`eg, host, loader, bridge
      ensures var t := Destruct(build, old(context), getTctiOk, old(eg), old(rng) != null,
                                old(setLockingCallback), old(bridge.callback), old(bridge.locks[..]),
                                old(loader.State()));
              && loader.State() == t.loader && bridge.callback == t.callback
              && host.calls == old(host.calls) + t.calls
      ensures loader.tcti == old(loader.tcti) && host.mutexesIssued == old(host.mutexesIssued)
      ensures bridge.Valid() && bridge.locks == old(bridge.locks) && bridge.nlocks == old(bridge.nlocks)
      ensures !eg
      ensures old(loader.Valid()) ==> loader.Valid()
    {
      ghost var tpm := TpmTeardown(context, getTctiOk, loader.State()).1;
      ghost var rest := Epilogue(build, eg, rng != null, setLockingCallback, bridge.locks[..]);
      ghost var before := host.calls;
      ReleaseTpm(getTctiOk);
      ReleaseRest();
      AppendAssoc(before, tpm, rest);
    }

    /** Lines 387-410: the engine, the RNG, the callback and the lock pool. */
    method ReleaseRest()
      requires Wired() && bridge.Valid()
      modifies this`eg, host, bridge
      ensures host.calls == old(host.calls) +
                Epilogue(build, old(eg), rng != null, setLockingCallback, old(bridge.locks[..]))
      ensures bridge.callback == (if LegacyOpenSsl(build) then Uninstall(old(bridge.callback), setLockingCallback)
                                  else old(bridge.callback))
      ensures bridge.Valid() && bridge.locks == old(bridge.locks) && bridge.nlocks == old(bridge.nlocks)
      ensures host.mutexesIssued == old(host.mutexesIssued) && !eg
    {
      ghost var locks := bridge.locks[..];
      ghost var before := host.calls;
      ghost var gost := if eg then [EngineFinish(Gost)] + [EngineFree(Gost)] else [];
      if eg {
        host.Record(EngineFinish(Gost));
        host.Record(EngineFree(Gost));
        eg := false;
      }
      assert host.calls == before + gost;

      ghost var rngCalls := if rng != null then [DeleteRng] else [];
      if rng != null {
        host.Record(DeleteRng);
      }
      AppendAssoc(before, gost, rngCalls);
      assert host.calls == before + (gost + rngCalls);

      ghost var clear := if LegacyOpenSsl(build) && setLockingCallback then [SetLockingCallback(NoCallback)] else [];
      if LegacyOpenSsl(build) {
        bridge.ClearCallback(host, setLockingCallback);
      }
      AppendAssoc(before, gost + rngCalls, clear);
      assert host.calls == before + (gost + rngCalls + clear);

      assert bridge.locks[..] == locks;
      bridge.RecycleAll(host);
      AppendAssoc(before, gost + rngCalls + clear, RecycleCalls(locks));
    }

    /** Lines 367-385: the TPM part of the destructor. */
    method ReleaseTpm(getTctiOk: bool)
      requires Wired()
      modifies host, loader
      ensures var r := TpmTeardown(context, getTctiOk, old(loader.State()));
              loader.State() == r.0 && host.calls == old(host.calls) + r.1
      ensures loader.tcti == old(loader.tcti) && host.mutexesIssued == old(host.mutexesIssued)
      ensures old(loader.Valid()) ==> loader.Valid()
    {
      ghost var r := TpmTeardown(context, getTctiOk, loader.State());
      ghost var before := host.calls;
      var tctiCtx: Option<TctiContext> := None;
      host.Record(SysGetTctiContext(context));
      if context.SysLive? && getTctiOk {
        tctiCtx := Some(context.tcti);
      }
      host.Record(SysFinalize(context));
      ghost var done := [SysGetTctiContext(context)] + [SysFinalize(context)];
      assert host.calls == before + done;
      if !context.SysNull? {
        host.Record(Free(SysBlock(context.size)));
        AppendAssoc(before, done, [Free(SysBlock(context.size))]);
        done := done + [Free(SysBlock(context.size))];
      }
      if tctiCtx.Some? {
        host.Record(TctiFinalize(tctiCtx.value));
        AppendAssoc(before, done, [TctiFinalize(tctiCtx.value)]);
        done := done + [TctiFinalize(tctiCtx.value)];
        host.Record(Free(TctiBlock(tctiCtx.value)));
        AppendAssoc(before, done, [Free(TctiBlock(tctiCtx.value))]);
        done := done + [Free(TctiBlock(tctiCtx.value))];
        tctiCtx := None;
      }
      assert r.1 == done + [TctiLdrUnload];
      host.Record(TctiLdrUnload);
      AppendAssoc(before, done, [TctiLdrUnload]);
      loader.Unload();
    }

    /** `getRNG(name)`: the one generator, for `Default` only. */
    function GetRNG(name: Dispatch.RngImpl): (r: Rng?)
      reads this
      ensures r != null <==> name == Dispatch.Default && rng != null
      ensures r != null ==> r == rng
    {
      if name == Dispatch.Default then rng else null
    }

    /** `getFipsSelfTestStatus()`. */
    function GetFipsSelfTestStatus(): bool
      reads this, statics
    {
      statics.fipsSelfTestStatus
    }
  }

  /** The static members of `OSSLCryptoFactory` (the `instance` slot and
      `FipsSelfTestStatus`), with the process state every instance shares. */
  class FactoryStatics {
    const build: Build
    const host: Host
    const loader: Loader
    const bridge: Bridge
    var instance: CryptoFactory?
    var fipsSelfTestStatus: bool

    ghost predicate Valid()
      reads this, instance, bridge
    {
      && bridge.Valid()
      && (instance != null ==> instance.statics == this && instance.Wired())
    }

    constructor (build: Build, host: Host, loader: Loader, bridge: Bridge)
      requires bridge.Valid()
      ensures Valid() && instance == null && !fipsSelfTestStatus
      ensures this.build == build && this.host == host && this.loader == loader && this.bridge == bridge
    {
      this.build, this.host, this.loader, this.bridge := build, host, loader, bridge;
      instance := null;
      fipsSelfTestStatus := false;
    }

    /** `OSSLCryptoFactory::i()`: build the instance on first use, otherwise
        hand out the one already there. */
    method I(env: Env) returns (f: CryptoFactory)
      requires Valid()
      modifies this, host, loader, bridge
      ensures Valid() && f == instance && f.statics == this
      ensures old(instance) != null ==>
                && f == old(instance)
                && unchanged(host, loader, bridge)
                && fipsSelfTestStatus == old(fipsSelfTestStatus)
      ensures old(instance) == null ==>
                var c := Construct(build, env, old(bridge.callback), old(fipsSelfTestStatus),
                                   old(loader.State()), old(loader.tcti));
                && fresh(f) && f.Holds(c) && fresh(bridge.locks)
                && bridge.nlocks == env.numLocks
                && bridge.locks[..] == IssuedMutexes(old(host.mutexesIssued), env.numLocks as nat)
                && host.calls == old(host.calls) + IssueCalls(bridge.locks[..]) + c.calls
      ensures old(loader.Valid()) ==> loader.Valid()
    {
      if instance == null {
        instance := new CryptoFactory(this, env);
      }
      f := instance;
    }

    /** `OSSLCryptoFactory::reset()`: destroy the instance, if any, and empty
        the slot so that the next `I` builds a new one. */
    method Reset(getTctiOk: bool)
      requires Valid()
      modifies this, host, loader, bridge, instance
      ensures Valid() && instance == null
      ensures fipsSelfTestStatus == old(fipsSelfTestStatus)
      ensures old(instance) == null ==> unchanged(host, loader, bridge)
      ensures old(instance) != null ==>
                var t := Destruct(build, old(instance.context), getTctiOk, old(instance.eg),
                                  old(instance.rng) != null, old(instance.setLockingCallback),
                                  old(bridge.callback), old(bridge.locks[..]), old(loader.State()));
                && loader.State() == t.loader && bridge.callback == t.callback
                && host.calls == old(host.calls) + t.calls
                && loader.tcti == old(loader.tcti) && host.mutexesIssued == old(host.mutexesIssued)
                && bridge.locks == old(bridge.locks) && bridge.nlocks == old(bridge.nlocks)
      ensures old(loader.Valid()) ==> loader.Valid()
    {
      if instance != null {
        instance.Destroy(getTctiOk);
      }
      instance := null;
    }
  }
}
