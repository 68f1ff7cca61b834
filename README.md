# OSSLCryptoFactory, modelled in Dafny

This is a verified model of `src/lib/crypto/OSSLCryptoFactory.cpp`, the OpenSSL back end of the
SoftHSMv2 crypto factory (a fork that adds a TPM 2.0 transport). It has five modules:

- `Platform` (`platform.dfy`): what the factory calls but does not own. That is the dynamic
  loader, the C heap, the TSS2 system API, OpenSSL and the mutex factory. The model keeps these as
  a trace of `Call`s recorded by a `Host` object, plus the values the factory holds. Every answer
  a foreign call gives is an input, in `Env` or `LoaderEnv`.
- `TctiLoader` (`tcti_loader.dfy`): the TCTI plugin loader. It covers the statics `handle`, `info`
  and `tcti`, and the functions `tpm2_tcti_ldr_load`, `_unload`, `_getinfo` and `_dlopen`. The pure
  function `AfterLoad` states what one load does. The class `Loader` performs the same steps on the
  statics and is proved to agree with it. `Run` replays a sequence of loads and unloads.
- `LockBridge` (`lock_bridge.dfy`): the statics `nlocks` and `locks`, and `lock_callback`. It also
  covers installing and clearing the callback in OpenSSL's process-wide slot. Taking or releasing
  a mutex is a `Lock` or `Unlock` event in the trace.
- `Dispatch` (`dispatch.dfy`): the four `get*Algorithm` switches. Each maps a kind to a product tag
  or to NULL. Each is proved against an independent description of what each product implements
  and which build option compiles it in.
- `Factory` (`factory.dfy`): the constructor, the destructor, `getRNG`, and the singleton slot
  behind `i()` and `reset()`.
  - Each constructor stage is a pure function: `FipsEntry`, `RdrandSetup`, `TpmBringUp` and
    `GostSetup`. `Construct` composes the stages. `TpmTeardown` and `Epilogue` are the two halves
    of the destructor, and `Destruct` composes them.
  - The class `CryptoFactory` performs the same stages on its fields and on the shared statics.
    Each of its methods is proved to leave exactly the state and trace that its function gives.

The build configuration (`Build`) fixes these: the OpenSSL version, LibreSSL, `WITH_FIPS`,
`WITH_ECC`, `WITH_GOST` and `WITH_EDDSA`. `USE_TPM` and `DISABLE_DLCLOSE` are always defined, as in
the source.

The model follows the code as written. Three places where the code misbehaves are listed under
"## Findings" below. Two of them hit the factory itself. The stale loader handle hits only other
callers of the exported `tpm2_tcti_ldr_load`, because the destructor's unload (line 384) always
clears `handle` before the factory loads again. Each is proved as written, and a corrected
definition beside it is proved to behave as intended. The classes keep modelling the code as
written.

## Model

| member | source | states |
|---|---|---|
| TctiLoader.SoName | src/lib/crypto/OSSLCryptoFactory.cpp:94 | the conventional name is 18 characters longer than the name it is built from and holds that name at offset 13 |
| TctiLoader.Fits | src/lib/crypto/OSSLCryptoFactory.cpp:111-115 | the formatted name fits the `PATH_MAX` buffer exactly when the given name is shorter than `PATH_MAX - 18` |
| TctiLoader.FormattedOpen | src/lib/crypto/OSSLCryptoFactory.cpp:110-118 | a name that does not fit makes no `dlopen` and yields NULL; otherwise exactly one `dlopen` of the formatted name, which yields a handle exactly when a library is there |
| TctiLoader.DlopenFormatted | src/lib/crypto/OSSLCryptoFactory.cpp:110-118 | the helper returns the handle `FormattedOpen` gives and makes exactly its calls |
| TctiLoader.Opened | src/lib/crypto/OSSLCryptoFactory.cpp:141-149 | the library held after the two attempts is the path as given when that opens, else the formatted name when it fits and exists; it is NULL exactly when neither opens, a formatted name that does not fit counting as not opening |
| TctiLoader.AfterLoad | src/lib/crypto/OSSLCryptoFactory.cpp:129-188 | with a plugin held, a load returns NULL and touches nothing. When neither name opens, it returns NULL and the statics are unchanged. The opened handle is kept on every path. A context is returned exactly when every step succeeds, on the opened library and of the probed size. `info` keeps describing `handle` |
| TctiLoader.AfterLoadTrace | src/lib/crypto/OSSLCryptoFactory.cpp:141-185 | the given path is opened first and the formatted name second. A success ends with `calloc` then the real `init`. Every failure after `dlopen` ends with `dlclose`, and a failed second `init` frees its block just before that |
| TctiLoader.SuccessfulLoadReleasesNothing | src/lib/crypto/OSSLCryptoFactory.cpp:172-187 | a load that returns a context makes no `dlclose` and no `free` |
| TctiLoader.AfterUnload | src/lib/crypto/OSSLCryptoFactory.cpp:96-104 | unload empties both statics when a plugin is held and otherwise changes nothing |
| TctiLoader.UnloadIdempotent | src/lib/crypto/OSSLCryptoFactory.cpp:96-104 | unloading twice is the same as unloading once |
| TctiLoader.UnloadThenLoadIsFresh | src/lib/crypto/OSSLCryptoFactory.cpp:96-104 | from any consistent state, unload returns the loader to its initial state, so the next load behaves as the first |
| TctiLoader.HeldPluginRejectsLoads | src/lib/crypto/OSSLCryptoFactory.cpp:132-135 | while a plugin is held, any number of loads all return NULL and leave the statics unchanged |
| TctiLoader.FailedLoadBlocksLaterLoads | src/lib/crypto/OSSLCryptoFactory.cpp:151-185 | a load that opens a library but fails later returns NULL yet keeps the handle; every later load then fails until an unload |
| TctiLoader.RunKeepsConsistent | src/lib/crypto/OSSLCryptoFactory.cpp:96-188 | every sequence of loads and unloads keeps `info` describing the held library |
| TctiLoader.RetryAfterInitFailureNeedsUnload | src/lib/crypto/OSSLCryptoFactory.cpp:179-185 | after a failed second `init` of the tabrmd plugin, a retry with a working plugin fails; after an unload, the same retry returns a context |
| TctiLoader.LoadReleasesOnlyOwnBlock | src/lib/crypto/OSSLCryptoFactory.cpp:129-188 | a load never frees a system block and never finalizes a transport; a load that returns a context frees no transport block |
| TctiLoader.AfterLoadCorrected | src/lib/crypto/OSSLCryptoFactory.cpp:151-185 | the load with `handle = NULL` on each failure after `dlopen`: the same result and calls as the code, and the same statics except that a failed load from an empty loader leaves it empty |
| TctiLoader.CorrectedRetrySucceeds | src/lib/crypto/OSSLCryptoFactory.cpp:129-188 | with the corrected failure paths, after any failed load a retry that opens an accepting plugin returns its context |
| TctiLoader.CorrectedFailuresKeepLoaderEmpty | src/lib/crypto/OSSLCryptoFactory.cpp:129-188 | any run of failed corrected loads leaves the loader without a plugin |
| TctiLoader.CorrectedRetryAfterInitFailure | src/lib/crypto/OSSLCryptoFactory.cpp:179-185 | the tabrmd scenario of `RetryAfterInitFailureNeedsUnload`, corrected: the retry succeeds without an unload |
| TctiLoader.Loader.GetInfo | src/lib/crypto/OSSLCryptoFactory.cpp:106-108 | the cached info is absent when no plugin is held and otherwise names the held plugin |
| TctiLoader.Loader.Unload | src/lib/crypto/OSSLCryptoFactory.cpp:96-104 | leaves the statics as `AfterUnload` says; it cannot make a foreign call |
| TctiLoader.Loader.Load | src/lib/crypto/OSSLCryptoFactory.cpp:129-188 | leaves the statics, the returned context and the trace as `AfterLoad` says, and keeps `info` consistent |
| LockBridge.AsUnsigned | src/lib/crypto/OSSLCryptoFactory.cpp:194 | the `(unsigned)` cast keeps non-negative values and maps a negative one to itself plus 2^32, at least 2^31 |
| LockBridge.LockDecision | src/lib/crypto/OSSLCryptoFactory.cpp:192-212 | nothing happens exactly when `(unsigned) n >= nlocks`, so every negative `n` is rejected for any pool `CRYPTO_num_locks` can size. Otherwise exactly mutex `n` is touched, taken when the mode has `CRYPTO_LOCK` and released when it does not |
| LockBridge.Replay | src/lib/crypto/OSSLCryptoFactory.cpp:192-212 | a run of callbacks causes at most one event per call and only touches in-range mutexes; when every call is out of range there is no event, and when every call is in range there is one event per call |
| LockBridge.ReplayConcat | src/lib/crypto/OSSLCryptoFactory.cpp:192-212 | each callback decides on its own arguments alone: the events of two runs back to back are those of the first, then those of the second |
| LockBridge.Install | src/lib/crypto/OSSLCryptoFactory.cpp:226-231 | the callback is installed, and the flag set, exactly when the slot was empty; otherwise the slot is untouched |
| LockBridge.Uninstall | src/lib/crypto/OSSLCryptoFactory.cpp:401-405 | the slot is cleared exactly when the flag says this instance installed the callback |
| LockBridge.UninstallUndoesInstall | src/lib/crypto/OSSLCryptoFactory.cpp:401-405 | clearing (lines 401-405) after installing (lines 226-231) gives the slot back as it was, so another component's callback is never removed |
| LockBridge.IssuedMutexes | src/lib/crypto/OSSLCryptoFactory.cpp:220-223 | the pool holds `n` consecutive, newly issued mutexes in index order |
| LockBridge.Bridge.Setup | src/lib/crypto/OSSLCryptoFactory.cpp:218-223 | the loop fills a fresh array of `CRYPTO_num_locks()` slots with newly issued mutexes in index order, and leaves the callback slot alone |
| LockBridge.Bridge.LockCallback | src/lib/crypto/OSSLCryptoFactory.cpp:192-212 | the callback records exactly the event `LockDecision` chooses, on the mutex at that index, and nothing else; this is the one-call run of `Replay` |
| LockBridge.Bridge.CallbacksExtendReplay | src/lib/crypto/OSSLCryptoFactory.cpp:192-212 | a callback after a run of callbacks leaves the trace of the longer run as `Replay` gives it, so any sequence of callbacks touches the mutexes `Replay` names, in order |
| LockBridge.Bridge.InstallCallback | src/lib/crypto/OSSLCryptoFactory.cpp:225-232 | sets the slot and the flag as `Install` says, with one `CRYPTO_set_locking_callback` exactly when it installs |
| LockBridge.Bridge.ClearCallback | src/lib/crypto/OSSLCryptoFactory.cpp:401-406 | sets the slot as `Uninstall` says, with one `CRYPTO_set_locking_callback(NULL)` exactly when the flag is set |
| LockBridge.Bridge.RecycleAll | src/lib/crypto/OSSLCryptoFactory.cpp:407-410 | every mutex of the pool is recycled once, in index order |
| Dispatch.SymmetricAlgorithm | src/lib/crypto/OSSLCryptoFactory.cpp:439-456 | a returned product implements the requested kind; NULL only when no product implements it; unlisted kinds give NULL |
| Dispatch.SymmetricReachesEveryProduct | src/lib/crypto/OSSLCryptoFactory.cpp:441-447 | every kind a symmetric product implements dispatches to it (AES to OSSLAES; DES and DES3 to OSSLDES) |
| Dispatch.AsymmetricAlgorithm | src/lib/crypto/OSSLCryptoFactory.cpp:460-492 | a returned product implements the kind and is compiled in; NULL only when no compiled-in product implements it |
| Dispatch.AsymmetricReachesEveryProduct | src/lib/crypto/OSSLCryptoFactory.cpp:462-483 | every compiled-in asymmetric product is returned for its kind |
| Dispatch.HashAlgorithm | src/lib/crypto/OSSLCryptoFactory.cpp:496-524 | as for asymmetric kinds; GOST R 34.11 only with `WITH_GOST` |
| Dispatch.HashReachesEveryProduct | src/lib/crypto/OSSLCryptoFactory.cpp:498-515 | every compiled-in hash product is returned for its kind |
| Dispatch.MacAlgorithm | src/lib/crypto/OSSLCryptoFactory.cpp:528-560 | as for asymmetric kinds; HMAC-GOST only with `WITH_GOST` |
| Dispatch.MacReachesEveryProduct | src/lib/crypto/OSSLCryptoFactory.cpp:530-551 | every compiled-in MAC product is returned for its kind |
| Factory.CryptoFactory.GetRNG | src/lib/crypto/OSSLCryptoFactory.cpp:564-577 | the result is non-NULL exactly for `Default` with a generator present, and is then the factory's one generator |
| Factory.FipsEntry | src/lib/crypto/OSSLCryptoFactory.cpp:234-249 | without `WITH_FIPS` nothing happens. With it, construction goes on exactly when already in FIPS mode or `FIPS_mode_set` succeeds, the status records that outcome, and `FIPS_mode_set` is called exactly when not yet in FIPS mode |
| Factory.RdrandSetup | src/lib/crypto/OSSLCryptoFactory.cpp:251-271 | the engine field is set exactly when `ENGINE_by_id` finds the engine; no failure stops construction |
| Factory.RdrandSetupTrace | src/lib/crypto/OSSLCryptoFactory.cpp:251-271 | OpenSSL is initialised and the engine looked up first; `ENGINE_init` follows exactly when found, `ENGINE_set_default` exactly when that succeeds |
| Factory.RdrandEngineNeverReleased | src/lib/crypto/OSSLCryptoFactory.cpp:251-271 | the RDRAND engine is never finished or freed |
| Factory.TpmBringUp | src/lib/crypto/OSSLCryptoFactory.cpp:276-304 | the loader ends as `AfterLoad` says. Without a transport `context` stays NULL. `context` is live exactly when allocation and `Tss2_Sys_Initialize` succeed, and then wraps the loaded transport. It dangles exactly when the initialisation failed |
| Factory.TpmBringUpTrace | src/lib/crypto/OSSLCryptoFactory.cpp:280-303 | the TCTI load comes first and is all that happens without a transport; a failed initialisation ends by freeing the system block |
| Factory.GostSetup | src/lib/crypto/OSSLCryptoFactory.cpp:306-361 | without `WITH_GOST` nothing happens; the engine is kept exactly when every step succeeds |
| Factory.GostSetupTrace | src/lib/crypto/OSSLCryptoFactory.cpp:307-359 | the engine-loading call fits the OpenSSL version. An engine that was found but not kept is freed by the last call, and finished just before exactly when its `ENGINE_init` had succeeded |
| Factory.GostReleasesOnlyDiscardedEngine | src/lib/crypto/OSSLCryptoFactory.cpp:319-354 | a kept or never-found engine is neither finished nor freed during setup |
| Factory.LockingSetup | src/lib/crypto/OSSLCryptoFactory.cpp:225-232 | the callback is installed exactly for an OpenSSL without built-in locking and an empty slot, and clearing restores the slot |
| Factory.BringUp | src/lib/crypto/OSSLCryptoFactory.cpp:251-361 | RDRAND, the TPM and GOST results are those of their stages. An incomplete TPM bring-up returns before any GOST call; after a complete one, the GOST calls follow the TPM calls |
| Factory.BringUpTrace | src/lib/crypto/OSSLCryptoFactory.cpp:251-280 | the RNG is created after the RDRAND calls and before the TPM calls |
| Factory.Configured | src/lib/crypto/OSSLCryptoFactory.cpp:234-361 | a failed FIPS entry returns at once: no RNG, no engine or TPM state, only the FIPS calls. Otherwise the RNG exists |
| Factory.Construct | src/lib/crypto/OSSLCryptoFactory.cpp:215-362 | the callback flag is set exactly when it was installed. A failed FIPS entry skips everything after it, the RNG included. The RNG exists exactly when FIPS entry succeeds, and then the TCTI load has run. GOST is kept only with a live context. A live context wraps the transport the loader holds |
| Factory.NestedTcti | src/lib/crypto/OSSLCryptoFactory.cpp:368-373 | a nested transport is retrieved exactly from a live context whose query succeeds, and it is the transport that context was built on |
| Factory.TpmTeardown | src/lib/crypto/OSSLCryptoFactory.cpp:367-385 | the nested transport is fetched, then `context` is finalized. The outer block is freed whenever the pointer is not NULL, dangling or not. The transport is finalized and freed next, and only when retrieved. `tpm2_tcti_ldr_unload` comes last (a `TctiLdrUnload` entry) and leaves the loader unloaded |
| Factory.TpmTeardownClosesNoLibrary | src/lib/crypto/OSSLCryptoFactory.cpp:367-385 | the TPM teardown never calls `dlclose`; that the unload at line 384 cannot either, under `DISABLE_DLCLOSE` (line 92), is stated by `Loader.Unload` having no `Host` in its frame |
| Factory.EpilogueOrder | src/lib/crypto/OSSLCryptoFactory.cpp:387-410 | after the TPM part come the GOST finish and free (if present), the RNG deletion (if present), the callback clearing (if this instance installed it), then each mutex in index order |
| Factory.EpilogueReleasesOnly | src/lib/crypto/OSSLCryptoFactory.cpp:387-410 | after the TPM part the destructor only finishes and frees the engine, deletes the RNG, clears the callback and recycles mutexes |
| Factory.Destruct | src/lib/crypto/OSSLCryptoFactory.cpp:365-412 | the loader ends unloaded, and the callback slot is cleared only in a build that needs the bridge and only when this instance installed it |
| Factory.DestructOrder | src/lib/crypto/OSSLCryptoFactory.cpp:365-412 | the destructor's calls are the whole TPM teardown followed by the epilogue |
| Factory.DestructAfterTpm | src/lib/crypto/OSSLCryptoFactory.cpp:387-411 | every call after the TPM part is an engine release, the RNG deletion, the callback clearing or a mutex recycling |
| Factory.TeardownRestoresCallback | src/lib/crypto/OSSLCryptoFactory.cpp:401-405 | construction (lines 225-231) followed by destruction gives OpenSSL's callback slot back exactly as it was |
| Factory.BoundContextTeardownOrder | src/lib/crypto/OSSLCryptoFactory.cpp:368-384 | with a live context and a retrieved transport, the first six calls are: fetch, finalize, free the system block, finalize the transport, free the transport, unload the plugin. The loader then ends empty |
| Factory.SysInitFailureLeavesDanglingContext | src/lib/crypto/OSSLCryptoFactory.cpp:297-303 | a failed `Tss2_Sys_Initialize` ends construction by freeing the system block while `context` still points at it |
| Factory.DestructFreesDanglingContextAgain | src/lib/crypto/OSSLCryptoFactory.cpp:371-382 | the destructor frees a dangling `context` again with its third call and finalizes no transport |
| Factory.SysInitFailureFreesContextTwice | src/lib/crypto/OSSLCryptoFactory.cpp:297-303 | over a construction and destruction after a failed `Tss2_Sys_Initialize` (the destructor at lines 371-382), the same block is freed twice. The loaded transport is then never finalized only because the query on the freed block at line 371 is taken as failed; in C that read is undefined |
| Factory.UnboundTransportNotReleased | src/lib/crypto/OSSLCryptoFactory.cpp:371-385 | without a live context the destructor neither finalizes nor frees any transport context |
| Factory.UnboundTransportLeaks | src/lib/crypto/OSSLCryptoFactory.cpp:287-302 | when the transport loads but the system context fails, and then the destructor runs (lines 371-385), the transport stays in `tcti` and is never finalized or freed. After a failed `calloc` (lines 289-292) `context` is NULL and this is the code's own behaviour. After a failed initialisation it rests on the query on the freed block at line 371 being taken as failed, which is undefined in C |
| Factory.ConstructCount | src/lib/crypto/OSSLCryptoFactory.cpp:225-361 | past a successful FIPS entry, each call occurs in the constructor's trace as often as in its stages together, the GOST stage counting only after a complete TPM bring-up |
| Factory.TpmBringUpSysFrees | src/lib/crypto/OSSLCryptoFactory.cpp:276-304 | the TPM bring-up frees a system block once exactly when it leaves `context` dangling, and then only that block |
| Factory.TpmTeardownSysFrees | src/lib/crypto/OSSLCryptoFactory.cpp:374-376 | the TPM teardown frees the system block once whenever the pointer is not NULL, and no other system block |
| Factory.DestructSysFrees | src/lib/crypto/OSSLCryptoFactory.cpp:365-412 | the destructor frees the system block once whenever the pointer is not NULL, and no other system block |
| Factory.ConstructCorrected | src/lib/crypto/OSSLCryptoFactory.cpp:297-303 | the constructor with `context = NULL` after `free(context)`: it never leaves a dangling pointer, and is the constructor in every other respect |
| Factory.CorrectedBringUpFreesSystemBlockOnce | src/lib/crypto/OSSLCryptoFactory.cpp:276-385 | with that correction, a construction followed by a destruction frees any system block at most once |
| Factory.TpmTeardownCorrected | src/lib/crypto/OSSLCryptoFactory.cpp:367-385 | the TPM teardown that, when no transport can be fetched from `context`, releases the one in the static `tcti`, and always leaves `tcti` NULL. It equals the code on the loader and the calls whenever a transport is fetched, fetches and finalizes first, and unloads last |
| Factory.TpmTeardownCorrectedReleasesOnce | src/lib/crypto/OSSLCryptoFactory.cpp:367-385 | the corrected TPM teardown finalizes and frees exactly one transport, the fetched one or else the static one, each once |
| Factory.DestructCorrected | src/lib/crypto/OSSLCryptoFactory.cpp:365-412 | the destructor with the corrected TPM part: the same loader and callback slot as the code, the static `tcti` left NULL, and the code's calls whenever a transport is fetched |
| Factory.DestructCorrectedReleasesOnce | src/lib/crypto/OSSLCryptoFactory.cpp:365-412 | the corrected destructor finalizes and frees the transport its TPM part releases once each, and no other transport |
| Factory.TpmBringUpReleasesNoTransport | src/lib/crypto/OSSLCryptoFactory.cpp:276-304 | a TPM bring-up whose load succeeds never finalizes or frees a transport |
| Factory.TransportNotReleasedDuringConstruction | src/lib/crypto/OSSLCryptoFactory.cpp:225-361 | a construction whose load succeeds never finalizes or frees a transport |
| Factory.ConstructHoldsLoadedTransport | src/lib/crypto/OSSLCryptoFactory.cpp:280-303 | after a successful load the static `tcti` holds the loaded transport, and so does any transport fetched from the system context |
| Factory.CorrectedTeardownReleasesTransportOnce | src/lib/crypto/OSSLCryptoFactory.cpp:276-385 | with the corrected destructor, the transport the constructor loaded is finalized once and freed once, whatever became of the system context, and the static `tcti` ends NULL |
| Factory.FailedFipsInstanceReleasesNoTransport | src/lib/crypto/OSSLCryptoFactory.cpp:236-243 | an instance whose constructor returns at the failed FIPS entry, built on a NULL static `tcti`, releases no transport over its construction and corrected destruction |
| Factory.CorrectedTransportReleasedOnceAcrossInstances | src/lib/crypto/OSSLCryptoFactory.cpp:236-385 | over two instances in a row, the first loading a transport and the second returning at the failed FIPS entry, the corrected destructor finalizes and frees that transport once each |
| Factory.CryptoFactory.constructor | src/lib/crypto/OSSLCryptoFactory.cpp:215-362 | the new instance, the statics, the callback slot and the trace are as `Construct` says, after a fresh pool of `CRYPTO_num_locks()` mutexes |
| Factory.CryptoFactory.SetUpLocking | src/lib/crypto/OSSLCryptoFactory.cpp:217-232 | fills a fresh lock pool and installs the callback as `LockingSetup` says |
| Factory.CryptoFactory.Configure | src/lib/crypto/OSSLCryptoFactory.cpp:234-361 | the fields, statics and trace are as `Configured` says; the RNG, when made, is new |
| Factory.CryptoFactory.EnterFips | src/lib/crypto/OSSLCryptoFactory.cpp:234-249 | the outcome, the static status and the calls are as `FipsEntry` says |
| Factory.CryptoFactory.StartServices | src/lib/crypto/OSSLCryptoFactory.cpp:251-361 | the fields, loader and trace are as `BringUp` says, with a new RNG |
| Factory.CryptoFactory.InitRdrand | src/lib/crypto/OSSLCryptoFactory.cpp:251-271 | the engine field and the calls are as `RdrandSetup` says |
| Factory.CryptoFactory.BringUpTpm | src/lib/crypto/OSSLCryptoFactory.cpp:276-304 | `context`, the loader statics, `tcti` and the trace are as `TpmBringUp` says; the result says whether construction goes on |
| Factory.CryptoFactory.BringUpGost | src/lib/crypto/OSSLCryptoFactory.cpp:306-361 | `eg` and the calls are as `GostSetup` says |
| Factory.CryptoFactory.Destroy | src/lib/crypto/OSSLCryptoFactory.cpp:365-412 | the loader, the callback slot and the trace are as `Destruct` says; the pool and the static `tcti` are untouched |
| Factory.CryptoFactory.ReleaseTpm | src/lib/crypto/OSSLCryptoFactory.cpp:367-385 | the loader and the trace are as `TpmTeardown` says |
| Factory.CryptoFactory.ReleaseRest | src/lib/crypto/OSSLCryptoFactory.cpp:387-411 | the trace grows by `Epilogue`; the slot is cleared as `Uninstall` says; `eg` ends NULL |
| Factory.FactoryStatics.I | src/lib/crypto/OSSLCryptoFactory.cpp:415-423 | an existing instance is returned with nothing modified. Otherwise a new instance is constructed as `Construct` says, after a pool of `CRYPTO_num_locks()` newly issued mutexes, and stored in the slot |
| Factory.FactoryStatics.Reset | src/lib/crypto/OSSLCryptoFactory.cpp:426-429 | an existing instance is destroyed as `Destruct` says, leaving the static `tcti`, the lock pool and the mutex factory as they were, and the slot is left empty so the next `I` constructs anew |

## Left out

- TctiLoader.Fits: names are taken as ASCII text without NUL characters. The length the model compares is the number of characters, while `snprintf` counts the bytes of the name up to its first NUL.
- CorrectedTeardownReleasesTransportOnce: the count is stated over one instance, and over two instances only when the second loads no transport. A transport is a value (library and size), so two loads of the same plugin give equal values that a count cannot tell apart.
- `tpm2_tcti_ldr_is_tcti_present` (lines 120-127) is not part of this model. It only probes whether the plugin library opens, with a `dlopen` and `dlclose`, and nothing else in the file calls it.
- Native dynamic loading, OpenSSL, TSS2 and the mutex factory are not executed. Their answers are inputs (`Env`, `LoaderEnv`, `getTctiOk`) and their calls are trace entries. `Tss2_Sys_GetContextSize`, `CRYPTO_num_locks` and `CRYPTO_get_locking_callback` are inputs or the bridge's `callback` field.
- `Tss2_Sys_GetTctiContext` on a NULL or dangling context is taken to fail. What the real library does with a freed block is undefined.
- infofn() is taken to return a valid info structure. The source dereferences it unchecked at line 161.
- Concurrency is not modelled: threads calling `i()` or `lock_callback` at once, and mutual exclusion itself. A `Lock` or `Unlock` event stands for taking or releasing a mutex.
- `lock_callback`'s `file` and `line` arguments are not modelled; they only reach the log message.
- `ERROR_MSG` and `WARNING_MSG` logging is not modelled.
- The algorithm classes are tags. Dispatch does not model their construction or the failure of `new`.
- The `EVP_GOST_34_11` global (line 334) is kept only as the success of `ENGINE_get_digest`.
- The flags passed to `OPENSSL_init_crypto` are not modelled.
- The class header `OSSLCryptoFactory.h` and the kind enumerations are not part of this model.
  - Members the constructor does not assign before an early return are taken to start as NULL.
  - Without the bridge build, the source never assigns `setLockingCallback`, so it is taken as false.
  - Each kind type lists the kinds its switch names, plus one constructor for all the others.
- `delete[] locks` (line 411) is not modelled: Dafny does not deallocate, so the model only recycles the mutexes.
- `Factory.CryptoFactory.GetFipsSelfTestStatus` has no contract: it only returns the static `FipsSelfTestStatus`.
- Failure of the C++ `new` for the RNG or the lock array is not modelled.

## Findings

| source | as written | input that shows it | evidently intended | confidence | as-written member | corrected member |
|---|---|---|---|---|---|---|
| src/lib/crypto/OSSLCryptoFactory.cpp:151-185 | every failure after `dlopen` calls `dlclose(handle)` but leaves `handle` set, so the guard at line 132 rejects every later load until an unload | `tpm2_tcti_ldr_load("tabrmd")` where the plugin opens but its second `init` fails, then the same load with a working plugin: the second call returns NULL | `handle = NULL` after each `dlclose`, as `tpm2_tcti_ldr_unload` (lines 96-104) does after releasing the library; the guard at line 132 only means "a plugin is still loaded" | not executed | TctiLoader.RetryAfterInitFailureNeedsUnload | TctiLoader.CorrectedRetrySucceeds |
| src/lib/crypto/OSSLCryptoFactory.cpp:297-303 | `free(context)` leaves `context` pointing at the freed block, and the destructor frees it again at line 376 | the transport loads, `calloc` succeeds, `Tss2_Sys_Initialize` returns an error, then the destructor runs | `context = NULL` after the free; the destructor's `free(context)` is harmless only on a live or NULL pointer | not executed | Factory.SysInitFailureFreesContextTwice | Factory.CorrectedBringUpFreesSystemBlockOnce |
| src/lib/crypto/OSSLCryptoFactory.cpp:287-292 | the destructor reaches the transport only through `Tss2_Sys_GetTctiContext(context)` (line 371), so after a failed `calloc` the transport loaded at line 280 stays in `tcti` and is never finalized or freed | the transport loads, `calloc` of the system context returns NULL, then the destructor runs | finalize and free the static `tcti` when no transport can be fetched from `context`, then set `tcti` to NULL so that a later instance cannot release it again; the destructor releases everything else the constructor acquired | not executed | Factory.UnboundTransportLeaks | Factory.CorrectedTeardownReleasesTransportOnce |
