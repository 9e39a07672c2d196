/**
  Supervision of one OMCI request: it is queued, and queued again after every timeout, until a response or a
  cancellation arrives, the device goes away, or the retries are used up.
*/
module OmciSupervision {

  const DEFAULT_RETRIES: nat := 2

  /** How one wait ends, and after how many seconds; only a timeout waits for the whole time. */
  datatype Wait = Response(after: nat) | Cancelled(after: nat) | DeviceGone(after: nat) | TimedOut

  /** An environment: before each attempt the device may be under deletion, and each wait ends somehow. */
  datatype Environment = Environment(deleting: int -> bool, wait: int -> Wait)

  ghost predicate InTime(env: Environment, timeout: nat) {
    forall i: int :: match env.wait(i) case TimedOut => true case w => w.after <= timeout
  }

  function MaxTimeoutWithRetries(timeout: nat): nat {
    (DEFAULT_RETRIES + 1) * timeout + 1
  }

  datatype Verdict = Verdict(enqueues: nat, timeouts: nat, retries: nat, elapsed: nat)

  /** What attempt `k` and the ones after it add up to. */
  function Supervise(env: Environment, retries: int, timeout: nat, k: nat): Verdict
    decreases retries + 1 - k
  {
    if k > retries || env.deleting(k) then Verdict(0, 0, 0, 0)
    else if !env.wait(k).TimedOut? then Verdict(1, 0, 0, env.wait(k).after)
    else if k == retries then Verdict(1, 1, 0, timeout)
    else
      var rest := Supervise(env, retries, timeout, k + 1);
      Verdict(rest.enqueues + 1, rest.timeouts, rest.retries + 1, rest.elapsed + timeout)
  }

  /** The time that so many timeouts take. */
  function Waited(attempts: nat, timeout: nat): nat { attempts * timeout }

  /** From attempt `k` on, attempt `j` is the first that does not go on to another one: it is not made, it ends before its
      timeout, or there is none left. */
  ghost predicate StopsAt(env: Environment, retries: int, k: nat, j: nat) {
    && k <= j <= retries + 1
    && (forall i | k <= i < j :: !env.deleting(i) && env.wait(i).TimedOut?)
    && (j == retries + 1 || env.deleting(j) || !env.wait(j).TimedOut?)
  }

  /** What a request adds up to, from the attempt at which it stops: every attempt before it was made and timed out; each of
      these but the last of all counts as a retry, and the last of all as the one timeout. */
  lemma {:induction false} SupervisionExact(env: Environment, retries: int, timeout: nat, k: nat, j: nat)
    requires StopsAt(env, retries, k, j)
    ensures var made := j <= retries && !env.deleting(j);
            var spent := j == retries + 1 && k < j;
            Supervise(env, retries, timeout, k) ==
            Verdict(j - k + (if made then 1 else 0), if spent then 1 else 0, j - k - (if spent then 1 else 0),
                    Waited(j - k, timeout) + if made then env.wait(j).after else 0)
    decreases j - k
  {
    if k < j {
      if k < retries {
        SupervisionExact(env, retries, timeout, k + 1, j);
      }
      assert Waited(j - k, timeout) == Waited(j - k - 1, timeout) + timeout;
    }
  }

  /** Every request stops somewhere. */
  lemma {:induction false} Stops(env: Environment, retries: int, k: nat) returns (j: nat)
    requires k <= retries + 1
    ensures StopsAt(env, retries, k, j)
    decreases retries + 1 - k
  {
    if k == retries + 1 || env.deleting(k) || !env.wait(k).TimedOut? {
      j := k;
    } else {
      j := Stops(env, retries, k + 1);
    }
  }

  /** For every environment: at most `retries + 1` attempts, and a timeout is counted, once, if and only if all of
      these attempts were made and timed out. */
  lemma {:induction false} SupervisionBounds(env: Environment, retries: int, timeout: nat, k: nat)
    requires k <= retries + 1 && InTime(env, timeout)
    ensures var v := Supervise(env, retries, timeout, k);
            && v.enqueues <= retries + 1 - k
            && v.timeouts <= 1
            && (v.timeouts == 1 <==>
                k <= retries && forall i | k <= i <= retries :: !env.deleting(i) && env.wait(i).TimedOut?)
            && (v.timeouts == 1 ==> v.enqueues == retries + 1 - k)
            && v.retries + v.timeouts <= v.enqueues
            && v.elapsed <= v.enqueues * timeout
    decreases retries + 1 - k
  {
    if k <= retries && !env.deleting(k) {
      if env.wait(k).TimedOut? && k < retries {
        SupervisionBounds(env, retries, timeout, k + 1);
        var rest := Supervise(env, retries, timeout, k + 1);
        assert (rest.enqueues + 1) * timeout == rest.enqueues * timeout + timeout;
      }
    }
  }

  /** With the default number of retries a request takes less time than the guard timers of the callers allow. */
  lemma {:induction false} DefaultRetriesInTime(env: Environment, timeout: nat)
    requires InTime(env, timeout)
    ensures Supervise(env, DEFAULT_RETRIES, timeout, 0).elapsed < MaxTimeoutWithRetries(timeout)
  {
    SupervisionBounds(env, DEFAULT_RETRIES, timeout, 0);
    var v := Supervise(env, DEFAULT_RETRIES, timeout, 0);
    assert v.enqueues * timeout <= 3 * timeout;
  }

  class Supervisor {
    var monitoredRequests: set<int>
    var enqueued: seq<int>
    var txTimeouts: nat
    var txRetries: nat

    constructor ()
      ensures monitoredRequests == {} && enqueued == [] && txTimeouts == txRetries == 0
    {
      monitoredRequests, enqueued, txTimeouts, txRetries := {}, [], 0, 0;
    }

    /** Runs the attempts one by one; whatever happens, the request is no longer monitored at the end. */
    method SendWithRxSupervision(tid: int, retries: int, timeout: nat, env: Environment) returns (elapsed: nat)
      modifies this
      ensures var v := Supervise(env, retries, timeout, 0);
              && enqueued == old(enqueued) + seq(v.enqueues, _ => tid)
              && txTimeouts == old(txTimeouts) + v.timeouts && txRetries == old(txRetries) + v.retries
              && elapsed == v.elapsed
      ensures monitoredRequests == old(monitoredRequests) - {tid}
    {
      ghost var goal := Supervise(env, retries, timeout, 0);
      monitoredRequests := monitoredRequests + {tid};
      elapsed := 0;
      var counter: nat := 0;
      ghost var rest := goal;
      while counter <= retries
        invariant rest == Supervise(env, retries, timeout, counter)
        invariant monitoredRequests == old(monitoredRequests) + {tid}
        invariant counter + rest.enqueues == goal.enqueues && enqueued == old(enqueued) + seq(counter, _ => tid)
        invariant txTimeouts == old(txTimeouts) && rest.timeouts == goal.timeouts
        invariant txRetries == old(txRetries) + counter && counter + rest.retries == goal.retries
        invariant elapsed + rest.elapsed == goal.elapsed
        decreases retries + 1 - counter
      {
        if env.deleting(counter) {
          break;
        }
        enqueued := enqueued + [tid];
        assert enqueued == old(enqueued) + seq(counter + 1, _ => tid);
        var w := env.wait(counter);
        if !w.TimedOut? {
          elapsed := elapsed + w.after;
          break;
        }
        elapsed := elapsed + timeout;
        if counter == retries {
          txTimeouts := txTimeouts + 1;
          break;
        }
        txRetries := txRetries + 1;
        counter := counter + 1;
        rest := Supervise(env, retries, timeout, counter);
      }
      monitoredRequests := monitoredRequests - {tid};
    }
  }
}
