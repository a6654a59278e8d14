/**
 The delivery provider shipped for tests: a replay of a delivered key returns the
 original result, and every invocation that did something is on a log.
 */
module DeliveryProvider {
  import opened Wrappers

  datatype Artifact = Artifact(artifactId: string, checksum: string)

  datatype LogEntry = LogEntry(idempotencyKey: string, destination: string, resultRef: Option<string>, attempt: nat)

  function Fingerprint(artifacts: seq<Artifact>): string {
    if artifacts == [] then ""
    else if |artifacts| == 1 then artifacts[0].artifactId + ":" + artifacts[0].checksum
    else artifacts[0].artifactId + ":" + artifacts[0].checksum + "," + Fingerprint(artifacts[1..])
  }

  /** The log numbers its entries, and holds exactly one success per delivered key. */
  ghost predicate LogIsExact(delivered: map<string, string>, log: seq<LogEntry>) {
    && (forall i :: 0 <= i < |log| ==> log[i].attempt == i + 1)
    && (forall i :: 0 <= i < |log| && log[i].resultRef.Some? ==>
          log[i].idempotencyKey in delivered && delivered[log[i].idempotencyKey] == log[i].resultRef.value)
    && (forall k :: k in delivered ==> SucceededIn(log, k))
    && (forall i, j :: 0 <= i < j < |log| && log[i].resultRef.Some? && log[j].resultRef.Some? ==>
          log[i].idempotencyKey != log[j].idempotencyKey)
  }

  ghost predicate SucceededIn(log: seq<LogEntry>, key: string) {
    exists i :: 0 <= i < |log| && log[i].idempotencyKey == key && log[i].resultRef.Some?
  }

  /** One more attempt for a key that is not delivered yet. */
  lemma LogGrows(delivered: map<string, string>, log: seq<LogEntry>, e: LogEntry)
    requires LogIsExact(delivered, log) && e.idempotencyKey !in delivered && e.attempt == |log| + 1
    ensures LogIsExact(if e.resultRef.Some? then delivered[e.idempotencyKey := e.resultRef.value] else delivered, log + [e])
  {
    var after := if e.resultRef.Some? then delivered[e.idempotencyKey := e.resultRef.value] else delivered;
    forall k | k in after
      ensures SucceededIn(log + [e], k)
    {
      if k == e.idempotencyKey {
        assert (log + [e])[|log|] == e;
      } else {
        var i :| 0 <= i < |log| && log[i].idempotencyKey == k && log[i].resultRef.Some?;
        assert (log + [e])[i] == log[i];
      }
    }
  }

  class FakeDeliveryProvider {
    var delivered: map<string, string>
    var failFirstN: nat
    var attemptCount: nat
    var attemptLog: seq<LogEntry>

    ghost predicate Valid()
      reads this
    {
      |attemptLog| == attemptCount && LogIsExact(delivered, attemptLog)
    }

    constructor (failFirstN: nat)
      ensures Valid() && delivered == map[] && attemptCount == 0 && this.failFirstN == failFirstN
    {
      delivered, attemptCount, attemptLog := map[], 0, [];
      this.failFirstN := failFirstN;
    }

    method FailNext(n: nat)
      requires Valid()
      modifies this`failFirstN
      ensures Valid()
      ensures failFirstN >= old(failFirstN) && failFirstN >= attemptCount + n
      ensures failFirstN == old(failFirstN) || failFirstN == attemptCount + n
    {
      if attemptCount + n > failFirstN {
        failFirstN := attemptCount + n;
      }
    }

    /** Deliver; None stands for the simulated failure. */
    method Deliver(key: string, destination: string, artifacts: seq<Artifact>) returns (r: Option<string>)
      requires Valid()
      modifies this`delivered, this`attemptCount, this`attemptLog
      ensures Valid()
      ensures key in old(delivered) ==>
                r == Some(old(delivered)[key]) && delivered == old(delivered) && attemptLog == old(attemptLog)
      ensures key !in old(delivered) ==>
                && attemptCount == old(attemptCount) + 1
                && attemptLog == old(attemptLog) + [LogEntry(key, destination, r, attemptCount)]
                && (r.Some? <==> attemptCount > failFirstN)
                && delivered == (if r.Some? then old(delivered)[key := r.value] else old(delivered))
                && (r.Some? ==> r.value == "fake://" + destination + "/" + Fingerprint(artifacts))
    {
      if key in delivered {
        return Some(delivered[key]);
      }
      hide LogIsExact;
      ghost var before := delivered;
      attemptCount := attemptCount + 1;
      if attemptCount <= failFirstN {
        r := None;
      } else {
        r := Some("fake://" + destination + "/" + Fingerprint(artifacts));
        delivered := delivered[key := r.value];
      }
      LogGrows(before, attemptLog, LogEntry(key, destination, r, attemptCount));
      attemptLog := attemptLog + [LogEntry(key, destination, r, attemptCount)];
    }
  }
}
