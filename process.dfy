/**
 * The process manager as the supervisor sees it. Its operating-system side is
 * not modelled: what each call answers is given by two oracle functions,
 * indexed by the number of calls made before it, so every sequence of answers
 * can be studied. The only assumptions are that a successful spawn or restart
 * leaves a child running, and a successful shutdown or wait leaves none.
 * After a failure the oracle also says whether a child is still running.
 */
module Process {

  datatype Op = Spawn | Restart | Shutdown | Wait

  /** One call: the operation, whether a child was running when it was made, and whether it succeeded. */
  datatype Call = Call(op: Op, wasRunning: bool, succeeded: bool)

  /** An error reported by the manager. */
  datatype ManagerError = ManagerError(message: string)

  /** The answer to `spawn`, `restart` or `shutdown`. */
  datatype OpReply = OpOk | OpErr(error: ManagerError, runningAfter: bool)

  /** The answer to `wait`: the child's exit status as displayed, or an error. */
  datatype WaitReply = Exited(status: string) | WaitErr(error: ManagerError, runningAfter: bool)

  /** Whether a child runs after `op` (one of spawn, restart, shutdown) answered `r`. */
  function RunningAfter(op: Op, r: OpReply): (running: bool)
    requires op != Wait
    ensures r.OpOk? && (op == Spawn || op == Restart) ==> running
    ensures r.OpOk? && op == Shutdown ==> !running
  {
    match r
    case OpOk => op != Shutdown
    case OpErr(_, runningAfter) => runningAfter
  }

  /** Whether a child runs after `wait` answered `r`. */
  function RunningAfterWait(r: WaitReply): (running: bool)
    ensures r.Exited? ==> !running
  {
    match r
    case Exited(_) => false
    case WaitErr(_, runningAfter) => runningAfter
  }

  /** `ProcessManager`, with the trace of the calls made on it. */
  class ProcessManager {
    var running: bool
    var trace: seq<Call>
    const replies: nat -> OpReply
    const waits: nat -> WaitReply

    /** A fresh manager: no child, no calls yet. */
    constructor (replies: nat -> OpReply, waits: nat -> WaitReply)
      ensures !running && trace == []
      ensures this.replies == replies && this.waits == waits
    {
      running := false;
      trace := [];
      this.replies := replies;
      this.waits := waits;
    }

    /** `is_running`. */
    predicate IsRunning()
      reads this
    {
      running
    }

    /** `spawn`. */
    method Spawn() returns (r: OpReply)
      modifies this
      ensures r == replies(|old(trace)|)
      ensures trace == old(trace) + [Call(Op.Spawn, old(running), r.OpOk?)]
      ensures running == RunningAfter(Op.Spawn, r)
    {
      r := replies(|trace|);
      trace := trace + [Call(Op.Spawn, running, r.OpOk?)];
      running := RunningAfter(Op.Spawn, r);
    }

    /** `restart`. */
    method Restart() returns (r: OpReply)
      modifies this
      ensures r == replies(|old(trace)|)
      ensures trace == old(trace) + [Call(Op.Restart, old(running), r.OpOk?)]
      ensures running == RunningAfter(Op.Restart, r)
    {
      r := replies(|trace|);
      trace := trace + [Call(Op.Restart, running, r.OpOk?)];
      running := RunningAfter(Op.Restart, r);
    }

    /** `shutdown`. */
    method Shutdown() returns (r: OpReply)
      modifies this
      ensures r == replies(|old(trace)|)
      ensures trace == old(trace) + [Call(Op.Shutdown, old(running), r.OpOk?)]
      ensures running == RunningAfter(Op.Shutdown, r)
    {
      r := replies(|trace|);
      trace := trace + [Call(Op.Shutdown, running, r.OpOk?)];
      running := RunningAfter(Op.Shutdown, r);
    }

    /** `wait`, at the moment it completes. */
    method Wait() returns (r: WaitReply)
      modifies this
      ensures r == waits(|old(trace)|)
      ensures trace == old(trace) + [Call(Op.Wait, old(running), r.Exited?)]
      ensures running == RunningAfterWait(r)
    {
      r := waits(|trace|);
      trace := trace + [Call(Op.Wait, running, r.Exited?)];
      running := RunningAfterWait(r);
    }
  }
}
