/**
 * The `useSubproblemTimer` hook: one time-tracking session per subproblem.
 * Whenever the position (or the identity, or the enabled flag) changes,
 * React first runs the previous effect's cleanup, which ends the held
 * session, and then the effect, which ends any session still held and starts
 * a new one. A page unload sends a beacon that ends the held session.
 *
 * The timing service is external: whether ending succeeds and the id a
 * start returns (`None` when it throws) are parameters, and the calls made
 * are recorded in `calls`. The asynchronous start is taken to finish before
 * the next effect run.
 */
module SubproblemTimer {
  import opened Wrappers

  /** The hook's inputs. */
  datatype Props = Props(userId: string, moduleNumber: int, runId: string,
                         problemIndex: int, subproblemIndex: int, enabled: bool)

  datatype TimerCall =
    | EndTimer(sessionId: string)
    | StartTimer(userId: string, moduleNumber: int, runId: string, problemIndex: int, subproblemIndex: int)

  /** A `navigator.sendBeacon` call: the endpoint and the `session_id` of its JSON body. */
  datatype Beacon = Beacon(endpoint: string, sessionId: string)

  /** `if (sessionIdRef.current)`. */
  predicate Held(id: Option<string>) {
    id.Some? && id.value != ""
  }

  predicate Active(p: Props) {
    p.enabled && p.userId != "" && p.runId != ""
  }

  function StartCall(p: Props): TimerCall {
    StartTimer(p.userId, p.moduleNumber, p.runId, p.problemIndex, p.subproblemIndex)
  }

  /** The unload handler's decision: a beacon to `<backend>/api/track/end-subproblem` for the
    * held session, only when a session is held and the backend URL is configured. */
  function UnloadBeacon(sessionId: Option<string>, backendUrl: string): (b: Option<Beacon>)
    ensures b.Some? <==> Held(sessionId) && backendUrl != ""
    ensures b.Some? ==> b.value.sessionId == sessionId.value
                        && |b.value.endpoint| >= |backendUrl|
                        && b.value.endpoint[..|backendUrl|] == backendUrl
                        && b.value.endpoint[|backendUrl|..] == "/api/track/end-subproblem"
  {
    if Held(sessionId) && backendUrl != "" then
      Some(Beacon(backendUrl + "/api/track/end-subproblem", sessionId.value))
    else None
  }

  class SubproblemTimerState {
    /** `sessionIdRef.current`: the one session the hook holds, if any. */
    var sessionId: Option<string>
    var isTracking: bool
    var calls: seq<TimerCall>

    /** A held session is always reported as tracking. */
    ghost predicate Valid()
      reads this
    {
      (Held(sessionId) ==> isTracking) && (isTracking ==> sessionId.Some?)
    }

    constructor()
      ensures Valid() && sessionId == None && !isTracking && calls == []
    {
      sessionId, isTracking, calls := None, false, [];
    }

    /** One run of the tracking effect. `endOk`: whether ending the previous session succeeds;
      * `started`: the new session id, `None` when starting throws. */
    method RunEffect(p: Props, endOk: bool, started: Option<string>)
      requires Valid()
      modifies this
      ensures Valid()
      ensures !Active(p) ==>
                if Held(old(sessionId))
                then sessionId == None && !isTracking && calls == old(calls) + [EndTimer(old(sessionId).value)]
                else sessionId == old(sessionId) && isTracking == old(isTracking) && calls == old(calls)
      ensures Active(p) ==>
                var ended := if Held(old(sessionId)) then [EndTimer(old(sessionId).value)] else [];
                if Held(old(sessionId)) && !endOk
                then sessionId == old(sessionId) && isTracking == old(isTracking) && calls == old(calls) + ended
                else calls == old(calls) + ended + [StartCall(p)]
                     && (started.Some? ==> sessionId == started && isTracking)
                     && (started.None? ==> sessionId == old(sessionId) && isTracking == old(isTracking))
    {
      if !Active(p) {
        if Held(sessionId) {
          calls := calls + [EndTimer(sessionId.value)];
          sessionId := None;
          isTracking := false;
        }
        return;
      }
      if Held(sessionId) {
        calls := calls + [EndTimer(sessionId.value)];
        if !endOk {
          return;
        }
      }
      calls := calls + [StartCall(p)];
      if started.Some? {
        sessionId := started;
        isTracking := true;
      }
    }

    /** The effect's cleanup: ends the held session (without waiting) and clears it. */
    method Cleanup()
      requires Valid()
      modifies this
      ensures Valid()
      ensures !Held(sessionId)
      ensures Held(old(sessionId)) ==> sessionId == None && !isTracking && calls == old(calls) + [EndTimer(old(sessionId).value)]
      ensures !Held(old(sessionId)) ==> sessionId == old(sessionId) && isTracking == old(isTracking) && calls == old(calls)
    {
      if Held(sessionId) {
        calls := calls + [EndTimer(sessionId.value)];
        sessionId := None;
        isTracking := false;
      }
    }

    /** A change of inputs: the old effect's cleanup, then the new effect. The session of the
      * previous position is ended before the new one is started, and only the new one is held. */
    method ChangeProps(p: Props, started: Option<string>)
      requires Valid()
      modifies this
      ensures Valid()
      ensures var ended := if Held(old(sessionId)) then [EndTimer(old(sessionId).value)] else [];
              calls == old(calls) + ended + (if Active(p) then [StartCall(p)] else [])
      ensures Active(p) && started.Some? ==> sessionId == started && isTracking
      ensures !(Active(p) && started.Some?) ==> !Held(sessionId)
    {
      Cleanup();
      RunEffect(p, true, started);
    }

    /** `handleBeforeUnload`. */
    method BeforeUnload(backendUrl: string) returns (beacon: Option<Beacon>)
      ensures beacon == UnloadBeacon(sessionId, backendUrl)
    {
      if Held(sessionId) {
        if backendUrl == "" {
          return None;
        }
        beacon := Some(Beacon(backendUrl + "/api/track/end-subproblem", sessionId.value));
      } else {
        beacon := None;
      }
    }
  }
}
