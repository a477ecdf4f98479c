/**
 The records that polling threads change under a lock, each method one locked section:
 permits, a connection pool and the completion record of a device. The methods take the
 steps of the permit and completion protocols.
 */
module PollerLocks {

  import WorkerPermits
  import DeviceCompletion

  class Permits {
    var available: nat

    constructor (available: nat)
      ensures this.available == available
    {
      this.available := available;
    }

    /** spine_permits_try_acquire */
    method TryAcquire() returns (ok: bool)
      modifies this
      ensures ok <==> old(available) > 0
      ensures available == if ok then old(available) - 1 else old(available)
    {
      ok := available > 0;
      if ok { available := available - 1; }
    }

    /** spine_permits_release: never past the largest int. */
    method Release() returns (ok: bool)
      modifies this
      ensures available == WorkerPermits.Released(old(available))
      ensures ok <==> available == old(available) + 1
    {
      ok := available < WorkerPermits.INT_MAX;
      if ok { available := available + 1; }
    }
  }

  /** The pool of one database: which connections are free. */
  class ConnectionPool {
    const free: array<bool>

    constructor (threads: nat)
      ensures fresh(free) && free[..] == seq(threads, _ => true)
    {
      free := new bool[threads](_ => true);
    }

    /** db_get_connection: hands out the first free connection, or the length for none. */
    method Get() returns (id: nat)
      modifies free
      ensures id == WorkerPermits.FirstFree(old(free[..]), 0)
      ensures free[..] == if id < free.Length then old(free[..])[id := false] else old(free[..])
    {
      id := 0;
      while id < free.Length
        invariant 0 <= id <= free.Length && free[..] == old(free[..])
        invariant WorkerPermits.FirstFree(free[..], id) == WorkerPermits.FirstFree(free[..], 0)
      {
        if free[id] {
          free[id] := false;
          return;
        }
        id := id + 1;
      }
    }

    /** db_release_connection */
    method Release(id: nat)
      requires id < free.Length
      modifies free
      ensures free[..] == WorkerPermits.MarkFree(old(free[..]), id)
    {
      free[id] := true;
    }
  }

  /** What the partitions of a device share, and the exit status of the process. */
  class DeviceRecord {
    const hostThreads: nat
    var threadsComplete: nat
    var complete: bool
    var outputFailed: bool
    var pollFailed: bool
    var exitFailed: bool

    constructor (hostThreads: nat)
      ensures this.hostThreads == hostThreads && threadsComplete == 0
      ensures !complete && !outputFailed && !pollFailed && !exitFailed
    {
      this.hostThreads := hostThreads;
      threadsComplete, complete, outputFailed, pollFailed, exitFailed := 0, false, false, false, false;
    }

    ghost predicate Shows(st: DeviceCompletion.State)
      reads this
    {
      && hostThreads == |st.parts| && threadsComplete == st.threadsComplete && complete == st.complete
      && outputFailed == st.outputFailed && pollFailed == st.pollFailed && exitFailed == st.exitFailed
    }

    /** The first locked section of complete_poll_host, for partition i of the state shown. */
    method Complete(output: bool, poll: bool, oneProfile: bool, ghost cfg: DeviceCompletion.Config,
                    ghost st: DeviceCompletion.State, ghost i: nat)
      returns (last: bool, update: bool)
      requires i < |st.parts| && Shows(st) && oneProfile == cfg.oneProfile
      requires output == st.parts[i].outputFailed && poll == st.parts[i].pollFailed
      modifies this
      ensures Shows(DeviceCompletion.Completed(cfg, st, i))
      ensures var part := DeviceCompletion.Completed(cfg, st, i).parts[i]; last == part.last && update == part.update
    {
      if output { outputFailed, exitFailed := true, true; }
      if poll { pollFailed, exitFailed := true, true; }
      threadsComplete := threadsComplete + 1;
      last, update := threadsComplete == hostThreads, false;
      if last {
        var failed := outputFailed || pollFailed;
        update, complete := !oneProfile && !failed, !failed;
      }
    }

    /** The last locked section: a completion write failed. */
    method FlagWriteFailure(ghost cfg: DeviceCompletion.Config, ghost st: DeviceCompletion.State, ghost i: nat)
      requires Shows(st) && DeviceCompletion.Enabled(st, DeviceCompletion.Flag(i))
      modifies this
      ensures Shows(DeviceCompletion.Apply(cfg, st, DeviceCompletion.Flag(i)))
    {
      outputFailed, complete, exitFailed := true, false, true;
    }
  }
}
