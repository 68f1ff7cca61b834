/**
 * What the cryptographic factory talks to but does not own: the dynamic
 * loader, the C heap, the TPM software stack (TSS2), OpenSSL and the mutex
 * factory.  None of them is modelled by what it computes; the model keeps
 * only the values the factory holds on to and the order in which it calls
 * them, as a trace of `Call`s kept by a `Host` object.
 */
module Platform {

  datatype Option<+T> = None | Some(value: T)

  /** The build configuration: the OpenSSL version compiled against, whether
      that is LibreSSL, and the WITH_FIPS, WITH_ECC, WITH_GOST and WITH_EDDSA
      options.  (USE_TPM and DISABLE_DLCLOSE are always defined.) */
  datatype Build = Build(opensslVersion: nat, libressl: bool, fips: bool, ecc: bool, gost: bool, eddsa: bool)

  /** `OPENSSL_VERSION_NUMBER < 0x10100000L || defined(LIBRESSL_VERSION_NUMBER)`:
      an OpenSSL without built-in locking, which needs the lock bridge. */
  predicate LegacyOpenSsl(b: Build) {
    b.opensslVersion < 0x10100000 || b.libressl
  }

  /** A library mapped by `dlopen`, named by the path it was opened from. */
  datatype Handle = Handle(path: string)

  /** A transport (TCTI) context: the zeroed block of `size` bytes that the
      plugin of `lib` initialised. */
  datatype TctiContext = TctiContext(lib: Handle, size: nat)

  /** The value of the factory's `context` pointer (the TSS2 system context).
      `SysFreed` is a pointer whose block has already been freed. */
  datatype SysRef =
    | SysNull
    | SysLive(size: nat, tcti: TctiContext)
    | SysFreed(size: nat)

  /** A heap block the core allocates with `calloc`. */
  datatype Block = TctiBlock(ctx: TctiContext) | SysBlock(size: nat)

  /** A mutex handed out by the mutex factory. */
  datatype Mutex = Mutex(id: nat)

  /** The OpenSSL engines the factory looks up by id. */
  datatype EngineId = Rdrand | Gost

  /** OpenSSL's process-wide locking-callback slot. */
  datatype Callback = NoCallback | OurCallback | OtherCallback

  /** A call from the core into the outside world, with the arguments that
      matter for ordering and ownership. */
  datatype Call =
    // dynamic loader
    | DlOpen(path: string)
    | DlSym(lib: Handle, symbol: string)
    | DlClose(lib: Handle)
    // this file's own tpm2_tcti_ldr_unload(), recorded so that its place in
    // the destructor can be stated; it makes no foreign call itself
    | TctiLdrUnload
    // entry points of a TCTI plugin
    | GetTctiInfo(lib: Handle)               // the resolved info function
    | ProbeTctiSize(lib: Handle)             // init(NULL, &size, NULL)
    | InitTcti(lib: Handle, size: nat)       // init(ctx, &size, NULL)
    // C heap (free(NULL) is a no-op and leaves no entry)
    | Calloc(size: nat)
    | Free(block: Block)
    // TSS2 system API
    | SysInitialize(size: nat, tcti: TctiContext)
    | SysGetTctiContext(context: SysRef)
    | SysFinalize(context: SysRef)
    | TctiFinalize(ctx: TctiContext)
    // OpenSSL
    | SetLockingCallback(callback: Callback)
    | FipsModeSet
    | RandInitFips
    | AddAllAlgorithms
    | LoadRdrandEngine
    | LoadBuiltinEngines
    | InitCryptoEngines
    | EngineById(engine: EngineId)
    | EngineInit(engine: EngineId)
    | EngineSetDefaultRand(engine: EngineId)
    | EngineGetGostDigest(engine: EngineId)
    | EngineRegisterAsn1(engine: EngineId)
    | EngineSetCryptParams(engine: EngineId)
    | EngineFinish(engine: EngineId)
    | EngineFree(engine: EngineId)
    // the factory's own random generator (C++ new/delete)
    | NewRng
    | DeleteRng
    // mutex factory and the mutexes themselves
    | IssueMutex(mutex: Mutex)
    | RecycleMutex(mutex: Mutex)
    | Lock(mutex: Mutex)
    | Unlock(mutex: Mutex)

  /** Appending to a trace in two steps or in one gives the same trace. */
  lemma AppendAssoc(a: seq<Call>, b: seq<Call>, c: seq<Call>)
    ensures (a + b) + c == a + (b + c)
  {
  }

  /** A call that does not occur in a trace is counted zero times in it. */
  lemma CountOfAbsent(calls: seq<Call>, x: Call)
    requires x !in calls
    ensures multiset(calls)[x] == 0
  {
    assert x !in multiset(calls);
  }

  /** Counting a call over two traces in turn adds the counts. */
  lemma CountOfConcat(a: seq<Call>, b: seq<Call>, x: Call)
    ensures multiset(a + b)[x] == multiset(a)[x] + multiset(b)[x]
  {
  }

  /** The outside world as the core sees it: the calls made so far, and the
      serial number of the next mutex the mutex factory will hand out. */
  class Host {
    var calls: seq<Call>
    var mutexesIssued: nat

    constructor ()
      ensures calls == [] && mutexesIssued == 0
    {
      calls := [];
      mutexesIssued := 0;
    }

    method Record(c: Call)
      modifies this
      ensures calls == old(calls) + [c]
      ensures mutexesIssued == old(mutexesIssued)
    {
      calls := calls + [c];
    }

    /** `MutexFactory::i()->getMutex()`: a mutex never handed out before. */
    method GetMutex() returns (m: Mutex)
      modifies this
      ensures m == Mutex(old(mutexesIssued))
      ensures mutexesIssued == old(mutexesIssued) + 1
      ensures calls == old(calls) + [IssueMutex(m)]
    {
      m := Mutex(mutexesIssued);
      mutexesIssued := mutexesIssued + 1;
      calls := calls + [IssueMutex(m)];
    }
  }
}
