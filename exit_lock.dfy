/**
 * useExitLock: a hidden unlock gesture for the kiosk screens. Ten quick
 * taps unlock; three seconds without a tap start the count over. The
 * timer becomes an explicit step, TimeoutFired, that the environment may
 * take whenever the last tap's timer is pending.
 */
module Composables {
  const RequiredTaps: nat := 10

  /** One tap on (count, unlocked): the count goes up, and on reaching RequiredTaps it unlocks and starts over. */
  function TapStep(count: nat, unlocked: bool): (r: (nat, bool))
    ensures count + 1 >= RequiredTaps ==> r == (0, true)
    ensures count + 1 < RequiredTaps ==> r == (count + 1, unlocked)
  {
    if count + 1 >= RequiredTaps then (0, true) else (count + 1, unlocked)
  }

  /** n taps in a row, with no timeout between them. */
  function AfterTaps(count: nat, unlocked: bool, n: nat): (nat, bool)
    decreases n
  {
    if n == 0 then (count, unlocked)
    else
      var s := TapStep(count, unlocked);
      AfterTaps(s.0, s.1, n - 1)
  }

  /** From a fresh count, n taps leave n mod 10 on the counter, unlocking exactly when n reaches 10. */
  lemma {:induction false} TapsFromZero(k: nat, unlocked: bool, n: nat)
    requires k < RequiredTaps
    ensures AfterTaps(k, unlocked, n).0 == (k + n) % RequiredTaps
    ensures AfterTaps(k, unlocked, n).1 <==> unlocked || k + n >= RequiredTaps
    decreases n
  {
    if n > 0 {
      var s := TapStep(k, unlocked);
      TapsFromZero(s.0, s.1, n - 1);
      if k + 1 >= RequiredTaps {
        assert k == 9;
        assert (k + n) % RequiredTaps == (n - 1) % RequiredTaps;
      }
    }
  }

  /** Ten taps from a locked, fresh state unlock; nine do not. */
  lemma TenTapsUnlockNineDoNot()
    ensures AfterTaps(0, false, 10) == (0, true)
    ensures AfterTaps(0, false, 9) == (9, false)
  {
    TapsFromZero(0, false, 10);
    TapsFromZero(0, false, 9);
  }

  /** Taps never lock again. */
  lemma {:induction false} TapsKeepUnlocked(count: nat, n: nat)
    ensures AfterTaps(count, true, n).1
    decreases n
  {
    if n > 0 {
      TapsKeepUnlocked(TapStep(count, true).0, n - 1);
    }
  }

  class ExitLock {
    var tapCount: nat
    var isUnlocked: bool
    /** Whether the inactivity timer of the last tap is still pending. */
    var timerPending: bool

    ghost predicate Valid()
      reads this
    {
      tapCount < RequiredTaps
    }

    constructor ()
      ensures Valid() && tapCount == 0 && !isUnlocked && !timerPending
    {
      tapCount := 0;
      isUnlocked := false;
      timerPending := false;
    }

    /** tap: count, restart the inactivity timer, and unlock on the tenth tap. */
    method Tap()
      requires Valid()
      modifies this
      ensures Valid() && timerPending
      ensures (tapCount, isUnlocked) == TapStep(old(tapCount), old(isUnlocked))
    {
      tapCount := tapCount + 1;
      timerPending := true;
      if tapCount >= RequiredTaps {
        isUnlocked := true;
        tapCount := 0;
      }
    }

    /** Three seconds after the last tap: the count starts over, the lock state stays. */
    method TimeoutFired()
      requires Valid() && timerPending
      modifies this
      ensures Valid() && tapCount == 0 && !timerPending && isUnlocked == old(isUnlocked)
    {
      tapCount := 0;
      timerPending := false;
    }

    /** lock: locked again with a fresh count; a pending timer stays pending. */
    method Lock()
      modifies this`isUnlocked, this`tapCount
      ensures Valid() && !isUnlocked && tapCount == 0
    {
      isUnlocked := false;
      tapCount := 0;
    }
  }
}
