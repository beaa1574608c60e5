/**
 The job objects of the API server as a log of writes. A resource version is a position in the log, the store
 is the state after the whole log, and an informer cache is the state after a prefix of it.
 */
module JobLog {
  import opened KubeTypes
  import opened Wrappers

  datatype Event = Put(key: Key, job: Job) | Del(key: Key)

  /** An object together with its resource version. */
  datatype Stored = Stored(job: Job, ver: nat)

  /** The object under a key after the first `n` writes. */
  function Lookup(log: seq<Event>, n: nat, k: Key): Option<Stored>
    requires n <= |log|
  {
    if n == 0 then None
    else if log[n - 1].key == k then
      match log[n - 1] case Put(_, job) => Some(Stored(job, n - 1)) case Del(_) => None
    else Lookup(log, n - 1, k)
  }

  ghost predicate Touched(log: seq<Event>, a: nat, b: nat, k: Key)
    requires b <= |log|
  {
    exists i | a <= i < b :: log[i].key == k
  }

  lemma {:induction false} LookupAppend(log: seq<Event>, tail: seq<Event>, n: nat, k: Key)
    requires n <= |log|
    ensures Lookup(log + tail, n, k) == Lookup(log, n, k)
  {
    if n != 0 {
      LookupAppend(log, tail, n - 1, k);
    }
  }

  lemma {:induction false} LookupUntouched(log: seq<Event>, a: nat, b: nat, k: Key)
    requires a <= b <= |log| && !Touched(log, a, b, k)
    ensures Lookup(log, a, k) == Lookup(log, b, k)
  {
    if a < b {
      assert log[b - 1].key != k;
      LookupUntouched(log, a, b - 1, k);
    }
  }

  /** The version found is the position of the last write to the key. */
  lemma {:induction false} LookupVersion(log: seq<Event>, n: nat, k: Key)
    requires n <= |log|
    ensures var r := Lookup(log, n, k);
            r.Some? ==>
              r.value.ver < n && log[r.value.ver] == Put(k, r.value.job) && !Touched(log, r.value.ver + 1, n, k)
    ensures Lookup(log, n, k).None? ==>
      forall i | 0 <= i < n && log[i].key == k :: exists j | i <= j < n :: log[j] == Del(k)
  {
    if n != 0 {
      LookupVersion(log, n - 1, k);
    }
  }

  lemma {:induction false} LookupIsLast(log: seq<Event>, n: nat, k: Key, i: nat)
    requires i < n <= |log| && log[i].key == k
    ensures Lookup(log, n, k).Some? ==> i <= Lookup(log, n, k).value.ver
  {
    if log[n - 1].key != k {
      LookupIsLast(log, n - 1, k, i);
    }
  }

  // ----- the phase protocol -----

  /** The moves of the stored phase the controller can make, including none. */
  predicate Allowed(from: Phase, to: Phase) {
    || from == to
    || ((from == Unset || from == Pending) && (to == Running || to == Failed || to == Complete))
    || (from == Running && (to == Pending || to == Failed || to == Complete))
  }

  /** A write creates a fresh object in phase Unset or continues the object stored before it along an allowed move. */
  ghost predicate EntryOk(log: seq<Event>, j: nat)
    requires j < |log|
  {
    log[j].Put? ==>
      match Lookup(log, j, log[j].key)
      case None => log[j].job.phase == Unset && log[j].job.uid == j
      case Some(prev) => log[j].job.uid == prev.job.uid && Allowed(prev.job.phase, log[j].job.phase)
  }

  ghost predicate LogOk(log: seq<Event>) {
    forall j | 0 <= j < |log| :: EntryOk(log, j)
  }

  lemma LogOkAppend(log: seq<Event>, e: Event)
    requires LogOk(log)
    requires EntryOk(log + [e], |log|)
    ensures LogOk(log + [e])
  {
    forall j | 0 <= j < |log|
      ensures EntryOk(log + [e], j)
    {
      assert EntryOk(log, j);
      LookupAppend(log, [e], j, log[j].key);
    }
  }

  lemma {:induction false} UidIsOld(log: seq<Event>, i: nat)
    requires LogOk(log) && i < |log| && log[i].Put?
    ensures log[i].job.uid <= i
  {
    assert EntryOk(log, i);
    LookupVersion(log, i, log[i].key);
    var prev := Lookup(log, i, log[i].key);
    if prev.Some? {
      UidIsOld(log, prev.value.ver);
    }
  }

  ghost predicate Terminal(phase: Phase) {
    phase == Failed || phase == Complete
  }

  /** Two writes of one object: it was stored at every point in between, */
  lemma {:induction false} ObjectLivesBetween(log: seq<Event>, i: nat, j: nat, n: nat)
    requires LogOk(log) && i < n <= j < |log|
    requires log[i].Put? && log[j].Put? && log[i].key == log[j].key && log[i].job.uid == log[j].job.uid
    ensures var r := Lookup(log, n, log[i].key);
            r.Some? && r.value.job.uid == log[i].job.uid && i <= r.value.ver
    decreases j
  {
    var k := log[i].key;
    assert EntryOk(log, j);
    UidIsOld(log, i);
    LookupVersion(log, j, k);
    var prev := Lookup(log, j, k);
    assert prev.Some?;
    var p := prev.value.ver;
    LookupIsLast(log, j, k, i);
    if n <= p {
      ObjectLivesBetween(log, i, p, n);
    } else {
      LookupUntouched(log, n, j, k) by {
        assert !Touched(log, p + 1, j, k);
      }
    }
  }

  /** and a terminal phase, once written, is the phase of every later write of the object. */
  lemma {:induction false} TerminalPhaseIsAbsorbing(log: seq<Event>, i: nat, j: nat)
    requires LogOk(log) && i <= j < |log|
    requires log[i].Put? && log[j].Put? && log[i].key == log[j].key && log[i].job.uid == log[j].job.uid
    requires Terminal(log[i].job.phase)
    ensures log[j].job.phase == log[i].job.phase
    decreases j
  {
    if i < j {
      var k := log[i].key;
      ObjectLivesBetween(log, i, j, j);
      LookupVersion(log, j, k);
      var p := Lookup(log, j, k).value.ver;
      TerminalPhaseIsAbsorbing(log, i, p);
      assert EntryOk(log, j);
    }
  }

  /** Phase Pending is written only over Running, or rewritten over Pending. */
  lemma PendingComesFromRunning(log: seq<Event>, j: nat)
    requires LogOk(log) && j < |log| && log[j].Put? && log[j].job.phase == Pending
    ensures var prev := Lookup(log, j, log[j].key);
            prev.Some? && (prev.value.job.phase == Running || prev.value.job.phase == Pending)
  {
    assert EntryOk(log, j);
  }
}
