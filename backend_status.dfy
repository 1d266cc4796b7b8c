/**
 * The backend reachability record of hooks/useBackendStatus.ts and the
 * transitions one check makes on it.  The ping itself and the clock are
 * parameters: what the ping did, and the time the check completed.
 */
module BackendStatus {
  import opened Common

  /** What `await pingBackend()` did: it returned, or it threw. */
  datatype PingOutcome = Reached | Threw(failure: Thrown)

  const UnknownErrorMessage := "Unknown error"

  class BackendStatusMonitor {
    var isOnline: bool
    var isLoading: bool
    var lastChecked: Option<Timestamp>
    var error: Option<string>

    /** The state every completed check leaves: not loading, checked, and an error exactly when offline. */
    ghost predicate Settled()
      reads this
    {
      !isLoading && lastChecked.Some? && (error.None? <==> isOnline)
    }

    /** The initial state: offline, loading, never checked, no error. */
    constructor ()
      ensures !isOnline && isLoading && lastChecked.None? && error.None?
    {
      isOnline := false;
      isLoading := true;
      lastChecked := None;
      error := None;
    }

    /** `{ ...prev, isLoading: true, error: null }` */
    method StartCheck()
      modifies this
      ensures isLoading && error.None?
      ensures isOnline == old(isOnline) && lastChecked == old(lastChecked)
    {
      isLoading := true;
      error := None;
    }

    /** The ping returned. */
    method CheckSucceeded(now: Timestamp)
      modifies this
      ensures isOnline && !isLoading && lastChecked == Some(now) && error.None?
      ensures Settled()
    {
      isOnline := true;
      isLoading := false;
      lastChecked := Some(now);
      error := None;
    }

    /** The ping threw: the message of an `Error`, or "Unknown error" for any other thrown value. */
    method CheckFailed(now: Timestamp, failure: Thrown)
      modifies this
      ensures !isOnline && !isLoading && lastChecked == Some(now)
      ensures failure.ErrorValue? ==> error == Some(failure.message)
      ensures failure.NonErrorValue? ==> error == Some(UnknownErrorMessage)
      ensures Settled()
    {
      isOnline := false;
      isLoading := false;
      lastChecked := Some(now);
      error := Some(MessageOf(failure, UnknownErrorMessage));
    }

    /**
     * The state a completed check with this ping outcome at time `now` leaves:
     * settled, checked at `now`, online exactly when the ping returned, and on
     * a throw the thrown value's message.
     */
    ghost predicate CheckedWith(ping: PingOutcome, now: Timestamp)
      reads this
    {
      && Settled()
      && lastChecked == Some(now)
      && (isOnline <==> ping.Reached?)
      && (ping.Threw? ==> error == Some(MessageOf(ping.failure, UnknownErrorMessage)))
    }

    /** checkBackendStatus: start, ping, then record the outcome at time `now`. */
    method CheckBackendStatus(ping: PingOutcome, now: Timestamp)
      modifies this
      ensures CheckedWith(ping, now)
    {
      StartCheck();
      match ping
      case Reached => CheckSucceeded(now);
      case Threw(failure) => CheckFailed(now, failure);
    }

    /** `refresh` is checkBackendStatus itself, so it leaves the same state. */
    method Refresh(ping: PingOutcome, now: Timestamp)
      modifies this
      ensures CheckedWith(ping, now)
    {
      CheckBackendStatus(ping, now);
    }
  }

  /**
   * A completed check forgets the state it started from: any two monitors
   * left by a check with the same ping outcome at the same time agree on
   * every field.
   */
  lemma CheckDeterminesState(m1: BackendStatusMonitor, m2: BackendStatusMonitor, ping: PingOutcome, now: Timestamp)
    requires m1.CheckedWith(ping, now) && m2.CheckedWith(ping, now)
    ensures m1.isOnline == m2.isOnline && m1.isLoading == m2.isLoading
    ensures m1.lastChecked == m2.lastChecked && m1.error == m2.error
  {
  }
}
