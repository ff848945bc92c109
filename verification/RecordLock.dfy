/** How a record writer takes the lock file (internal/candidate/lock_unix.go).
    The answers of flock and the readings of the clock are parameters. */
module RecordLock {
  import opened Wrappers

  datatype Try = Acquired | WouldBlock | Interrupted | Broken

  datatype LockError = NotOpened | NotRegular | NotLocked | TimedOut

  // The sleep between two attempts, in milliseconds.
  const PAUSE: nat := 5

  // Each attempt before k found the lock taken, in time.
  ghost predicate Retries(flock: nat -> Try, clock: nat -> int, deadline: int, k: nat) {
    forall j: nat :: j < k ==> (flock(j).WouldBlock? || flock(j).Interrupted?) && clock(j) <= deadline
  }

  // The first attempt that does not retry.
  ghost predicate LastTry(flock: nat -> Try, clock: nat -> int, deadline: int, k: nat) {
    Retries(flock, clock, deadline, k) && !Retries(flock, clock, deadline, k + 1)
  }

  lemma LastTryOnce(flock: nat -> Try, clock: nat -> int, deadline: int, j: nat, k: nat)
    requires LastTry(flock, clock, deadline, j) && LastTry(flock, clock, deadline, k)
    ensures j == k
  {
    assert j < k ==> Retries(flock, clock, deadline, j + 1);
    assert k < j ==> Retries(flock, clock, deadline, k + 1);
  }

  // The file stays open exactly when the lock is held. A free lock is taken at
  // the last attempt even after the deadline, and attempts stop by themselves:
  // the wait bounds how many there are.
  method LockRecord(opens: bool, regular: bool, flock: nat -> Try, clock: nat -> int, start: int, wait: nat)
    returns (r: Result<nat, LockError>, open: bool)
    requires start <= clock(0) && forall k: nat :: clock(k) + PAUSE <= clock(k + 1)
    ensures open <==> r.Success?
    ensures r == Failure(NotOpened) <==> !opens
    ensures r == Failure(NotRegular) <==> opens && !regular
    ensures opens && regular ==>
              exists k: nat :: LastTry(flock, clock, start + wait, k) && k * PAUSE <= wait + PAUSE
                && (r.Success? <==> flock(k).Acquired?) && (r.Success? ==> r.value == k)
                && (r == Failure(TimedOut) <==> !flock(k).Acquired? && !flock(k).Broken?)
    ensures r.Success? ==> flock(r.value).Acquired? && forall j: nat :: j < r.value ==>
              (flock(j).WouldBlock? || flock(j).Interrupted?) && clock(j) <= start + wait
    ensures opens && regular && flock(0).Acquired? ==> r == Success(0)
    ensures opens && regular && (forall j: nat :: flock(j).WouldBlock?) ==> r == Failure(TimedOut)
  {
    if !opens { return Failure(NotOpened), false; }
    if !regular { return Failure(NotRegular), false; }
    var deadline := start + wait;
    var k: nat := 0;
    while true
      invariant Retries(flock, clock, deadline, k)
      invariant start + k * PAUSE <= clock(k) && (k == 0 || clock(k - 1) <= deadline)
      invariant k * PAUSE <= wait + PAUSE
      decreases wait + 2 * PAUSE - k * PAUSE
    {
      assert start + k * PAUSE <= clock(k) <= deadline ==> k * PAUSE <= wait;
      var attempt := flock(k);
      if attempt.Acquired? {
        assert LastTry(flock, clock, deadline, k);
        return Success(k), true;
      }
      if attempt.Broken? {
        assert LastTry(flock, clock, deadline, k);
        return Failure(NotLocked), false;
      }
      if clock(k) > deadline {
        assert LastTry(flock, clock, deadline, k);
        return Failure(TimedOut), false;
      }
      k := k + 1;
    }
  }
}
