/**
 * The lock bridge: the statics `nlocks` and `locks`, the callback
 * `lock_callback` OpenSSL (before 1.1.0, and LibreSSL) calls to take and
 * release its internal locks, and the conditional installation of that
 * callback in OpenSSL's process-wide slot.
 *
 * Mutexes are not real here: taking or releasing one is a `Lock`/`Unlock`
 * entry in the `Host` trace, so what is verified is which mutex is touched,
 * never mutual exclusion.
 */
module LockBridge {
  import opened Platform

  newtype int32 = x: int | -0x8000_0000 <= x < 0x8000_0000
  newtype uint32 = x: int | 0 <= x < 0x1_0000_0000

  /** `CRYPTO_LOCK` of OpenSSL's crypto.h. */
  const CRYPTO_LOCK: bv32 := 1

  /** The C conversion `(unsigned) n`: the same 32 bits read as unsigned. */
  function AsUnsigned(n: int32): (r: uint32)
    ensures 0 <= n ==> r as int == n as int
    ensures n < 0 ==> r as int == n as int + 0x1_0000_0000 && r >= 0x8000_0000
  {
    if n < 0 then (n as int + 0x1_0000_0000) as uint32 else n as int as uint32
  }

  /** The 32 bits of `x`, as `&` sees them. */
  function Bits(x: int32): bv32 {
    AsUnsigned(x) as int as bv32
  }

  /** What one callback does to the pool: take or release the mutex at
      `index`. */
  datatype LockEvent = Acquire(index: nat) | Release(index: nat)

  /** `lock_callback(mode, n, file, line)` with `nlocks` mutexes in the
      pool: out-of-range indices touch nothing, in-range ones touch exactly
      the mutex at `(unsigned) n`, taking it when the mode has `CRYPTO_LOCK`
      set and releasing it otherwise. */
  function LockDecision(nlocks: uint32, mode: int32, n: int32): (r: Option<LockEvent>)
    ensures r.None? <==> AsUnsigned(n) >= nlocks
    // a negative index is rejected whenever the pool has at most 2^31 mutexes,
    // which holds for every count CRYPTO_num_locks() can return as an int
    ensures n < 0 && nlocks as int <= 0x8000_0000 ==> r.None?
    ensures r.Some? ==> r.value.index == AsUnsigned(n) as int && r.value.index < nlocks as int
    ensures r.Some? && 0 <= n ==> r.value.index == n as int
    ensures r.Some? ==> (r.value.Acquire? <==> Bits(mode) & CRYPTO_LOCK != 0)
  {
    var u := AsUnsigned(n);
    if u >= nlocks then None
    else if Bits(mode) & CRYPTO_LOCK != 0 then Some(Acquire(u as int))
    else Some(Release(u as int))
  }

  /** A run of callbacks `(mode, n)` as OpenSSL makes them, and the events
      they cause in order: one per in-range call, none for the rest. */
  function Replay(nlocks: uint32, requests: seq<(int32, int32)>): (r: seq<LockEvent>)
    ensures |r| <= |requests|
    ensures forall i :: 0 <= i < |r| ==> r[i].index < nlocks as int
    ensures (forall i :: 0 <= i < |requests| ==> AsUnsigned(requests[i].1) >= nlocks) ==> r == []
    ensures (forall i :: 0 <= i < |requests| ==> AsUnsigned(requests[i].1) < nlocks) ==> |r| == |requests|
    decreases |requests|
  {
    if requests == [] then []
    else
      var rest := Replay(nlocks, requests[1..]);
      assert forall i :: 0 <= i < |requests[1..]| ==> requests[1..][i] == requests[i + 1];
      match LockDecision(nlocks, requests[0].0, requests[0].1)
      case None => rest
      case Some(e) => [e] + rest
  }

  /** Replaying two runs back to back causes the events of the first, then
      those of the second: each callback decides on its own arguments. */
  lemma {:induction false} ReplayConcat(nlocks: uint32, first: seq<(int32, int32)>, second: seq<(int32, int32)>)
    ensures Replay(nlocks, first + second) == Replay(nlocks, first) + Replay(nlocks, second)
    decreases |first|
  {
    if first == [] {
      assert first + second == second;
    } else {
      assert (first + second)[0] == first[0];
      assert (first + second)[1..] == first[1..] + second;
      ReplayConcat(nlocks, first[1..], second);
    }
  }

  /** The `Lock`/`Unlock` entries a run of events leaves in the trace, on
      the pool `locks`. */
  function EventCalls(locks: seq<Mutex>, events: seq<LockEvent>): (r: seq<Call>)
    requires forall i :: 0 <= i < |events| ==> events[i].index < |locks|
    ensures |r| == |events|
  {
    if events == [] then []
    else [if events[0].Acquire? then Lock(locks[events[0].index]) else Unlock(locks[events[0].index])]
         + EventCalls(locks, events[1..])
  }

  lemma {:induction false} EventCallsConcat(locks: seq<Mutex>, first: seq<LockEvent>, second: seq<LockEvent>)
    requires forall i :: 0 <= i < |first| ==> first[i].index < |locks|
    requires forall i :: 0 <= i < |second| ==> second[i].index < |locks|
    ensures EventCalls(locks, first + second) == EventCalls(locks, first) + EventCalls(locks, second)
    decreases |first|
  {
    if first == [] {
      assert first + second == second;
    } else {
      assert (first + second)[1..] == first[1..] + second;
      EventCallsConcat(locks, first[1..], second);
    }
  }

  /** Installing `lock_callback` into OpenSSL's slot `cb`: only into an
      empty slot, and the flag says whether this call did it. */
  function Install(cb: Callback): (r: (Callback, bool))
    ensures r.1 <==> cb == NoCallback
    ensures r.1 ==> r.0 == OurCallback
    ensures !r.1 ==> r.0 == cb
  {
    if cb == NoCallback then (OurCallback, true) else (cb, false)
  }

  /** Clearing the slot at teardown, only if the flag says it was installed
      by this instance. */
  function Uninstall(cb: Callback, installed: bool): (r: Callback)
    ensures installed ==> r == NoCallback
    ensures !installed ==> r == cb
  {
    if installed then NoCallback else cb
  }

  /** Teardown gives OpenSSL's slot back exactly as construction found it:
      a callback someone else installed is never removed. */
  lemma UninstallUndoesInstall(cb: Callback)
    ensures Uninstall(Install(cb).0, Install(cb).1) == cb
  {
  }

  /** `[m0, m0+1, ...]`: the next `n` mutexes the mutex factory hands out. */
  function IssuedMutexes(from: nat, n: nat): (r: seq<Mutex>)
    ensures |r| == n
    ensures forall i :: 0 <= i < n ==> r[i] == Mutex(from + i)
  {
    seq(n, i requires 0 <= i => Mutex(from + i))
  }

  function IssueCalls(ms: seq<Mutex>): (r: seq<Call>)
    ensures |r| == |ms|
    ensures forall i :: 0 <= i < |ms| ==> r[i] == IssueMutex(ms[i])
  {
    seq(|ms|, i requires 0 <= i < |ms| => IssueMutex(ms[i]))
  }

  function RecycleCalls(ms: seq<Mutex>): (r: seq<Call>)
    ensures |r| == |ms|
    ensures forall i :: 0 <= i < |ms| ==> r[i] == RecycleMutex(ms[i])
  {
    seq(|ms|, i requires 0 <= i < |ms| => RecycleMutex(ms[i]))
  }

  /** The statics `nlocks` and `locks`, and OpenSSL's locking-callback slot
      they are installed into. */
  class Bridge {
    var nlocks: uint32
    var locks: array<Mutex>
    var callback: Callback

    ghost predicate Valid()
      reads this
    {
      locks.Length == nlocks as int
    }

    /** Before the first factory: an empty pool (NULL `locks`), and whatever
        callback other code installed. */
    constructor (installed: Callback)
      ensures Valid() && nlocks == 0 && callback == installed
    {
      nlocks := 0;
      locks := new Mutex[0];
      callback := installed;
    }

    /** Lines 218-223 of the constructor: size the pool as OpenSSL asks and
        fill it with fresh mutexes, in index order. */
    method Setup(host: Host, count: uint32)
      modifies this, host
      ensures Valid() && nlocks == count && fresh(locks)
      ensures locks[..] == IssuedMutexes(old(host.mutexesIssued), count as nat)
      ensures host.mutexesIssued == old(host.mutexesIssued) + count as nat
      ensures host.calls == old(host.calls) + IssueCalls(locks[..])
      ensures callback == old(callback)
    {
      nlocks := count;
      locks := new Mutex[count];
      ghost var from := host.mutexesIssued;
      var i: nat := 0;
      while i < count as nat
        invariant 0 <= i <= locks.Length == count as nat
        invariant host.mutexesIssued == from + i
        invariant locks[..i] == IssuedMutexes(from, i)
        invariant host.calls == old(host.calls) + IssueCalls(locks[..i])
        modifies locks, host
      {
        var m := host.GetMutex();
        locks[i] := m;
        assert locks[..i + 1] == locks[..i] + [m];
        assert IssueCalls(locks[..i + 1]) == IssueCalls(locks[..i]) + [IssueMutex(m)];
        i := i + 1;
      }
      assert locks[..] == locks[..i];
    }

    /** `lock_callback(mode, n, file, line)`. */
    method LockCallback(host: Host, mode: int32, n: int32)
      requires Valid()
      modifies host
      ensures host.mutexesIssued == old(host.mutexesIssued)
      ensures match LockDecision(nlocks, mode, n)
              case None => host.calls == old(host.calls)
              case Some(Acquire(i)) => i < locks.Length && host.calls == old(host.calls) + [Lock(locks[i])]
              case Some(Release(i)) => i < locks.Length && host.calls == old(host.calls) + [Unlock(locks[i])]
      // the same, as the one-call run `Replay` describes
      ensures host.calls == old(host.calls) + EventCalls(locks[..], Replay(nlocks, [(mode, n)]))
    {
      if AsUnsigned(n) >= nlocks {
        return;
      }
      var mtx := locks[AsUnsigned(n) as int];
      if Bits(mode) & CRYPTO_LOCK != 0 {
        host.Record(Lock(mtx));
      } else {
        host.Record(Unlock(mtx));
      }
    }

    /** Several callbacks in a row leave the trace entries of the replayed
        run: this is what ties `Replay` to the callback one call at a time. */
    lemma CallbacksExtendReplay(before: seq<Call>, after: seq<Call>, done: seq<(int32, int32)>,
                                mode: int32, n: int32)
      requires Valid()
      requires before == EventCalls(locks[..], Replay(nlocks, done))
      requires after == before + EventCalls(locks[..], Replay(nlocks, [(mode, n)]))
      ensures after == EventCalls(locks[..], Replay(nlocks, done + [(mode, n)]))
    {
      ReplayConcat(nlocks, done, [(mode, n)]);
      EventCallsConcat(locks[..], Replay(nlocks, done), Replay(nlocks, [(mode, n)]));
    }

    /** Lines 226-231: install `lock_callback` unless a callback is present. */
    method InstallCallback(host: Host) returns (installed: bool)
      modifies this, host
      ensures (callback, installed) == Install(old(callback))
      ensures host.calls == old(host.calls) + (if installed then [SetLockingCallback(OurCallback)] else [])
      ensures host.mutexesIssued == old(host.mutexesIssued)
      ensures nlocks == old(nlocks) && locks == old(locks)
    {
      installed := false;
      if callback == NoCallback {
        callback := OurCallback;
        host.Record(SetLockingCallback(OurCallback));
        installed := true;
      }
    }

    /** Lines 402-405: clear the slot, only if this instance installed it. */
    method ClearCallback(host: Host, installed: bool)
      modifies this, host
      ensures callback == Uninstall(old(callback), installed)
      ensures host.calls == old(host.calls) + (if installed then [SetLockingCallback(NoCallback)] else [])
      ensures host.mutexesIssued == old(host.mutexesIssued)
      ensures nlocks == old(nlocks) && locks == old(locks)
    {
      if installed {
        callback := NoCallback;
        host.Record(SetLockingCallback(NoCallback));
      }
    }

    /** Lines 407-410: hand every mutex of the pool back, in index order. */
    method RecycleAll(host: Host)
      requires Valid()
      modifies host
      ensures host.calls == old(host.calls) + RecycleCalls(locks[..])
      ensures host.mutexesIssued == old(host.mutexesIssued)
    {
      var i: nat := 0;
      while i < nlocks as nat
        invariant 0 <= i <= locks.Length
        invariant host.calls == old(host.calls) + RecycleCalls(locks[..i])
        invariant host.mutexesIssued == old(host.mutexesIssued)
      {
        host.Record(RecycleMutex(locks[i]));
        assert locks[..i + 1] == locks[..i] + [locks[i]];
        assert RecycleCalls(locks[..i + 1]) == RecycleCalls(locks[..i]) + [RecycleMutex(locks[i])];
        i := i + 1;
      }
      assert locks[..] == locks[..i];
    }
  }
}
