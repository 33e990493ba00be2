/** `KickCounterView`: one counting session at a time, its kicks mirrored into
    the stored session, and the history list of recent sessions. */
module KickCounter {
  import opened Wrappers
  import opened DataModels
  import opened HealthModels
  import opened TimeFormat

  /** How many sessions the history shows, collapsed and expanded. */
  const CollapsedHistory: nat := 3
  const ExpandedHistory: nat := 10

  /** The buttons of the counter card. */
  datatype KickAction = CountKick | EndSession | StartCounting

  /** The buttons offered: Count Kick and End Session while a session runs,
      Start Counting otherwise. */
  function AvailableActions(sessionActive: bool): (r: set<KickAction>)
    ensures CountKick in r <==> sessionActive
    ensures EndSession in r <==> sessionActive
    ensures StartCounting in r <==> !sessionActive
  {
    if sessionActive then {CountKick, EndSession} else {StartCounting}
  }

  /** `sessions.prefix(10)` when expanded, `sessions.prefix(3)` otherwise. */
  function VisibleSessions(sessions: seq<KickCountSession>, showHistory: bool): (r: seq<KickCountSession>)
    ensures |r| <= |sessions| && |r| <= (if showHistory then ExpandedHistory else CollapsedHistory)
    ensures r == sessions[..|r|]
    ensures |r| == |sessions| || |r| == (if showHistory then ExpandedHistory else CollapsedHistory)
  {
    Prefix(sessions, if showHistory then ExpandedHistory else CollapsedHistory)
  }

  /** Expanding the history only adds sessions at the end of the list shown. */
  lemma ExpandingShowsMore(sessions: seq<KickCountSession>)
    ensures |VisibleSessions(sessions, false)| <= |VisibleSessions(sessions, true)|
    ensures VisibleSessions(sessions, false) == VisibleSessions(sessions, true)[..|VisibleSessions(sessions, false)|]
  {
  }

  class KickCounterView {
    /** The stored sessions in the order the store gives them; the
        `@Query` sorts them newest first, which `Valid` does not require. */
    var sessions: seq<KickCountSession>
    var currentSession: Option<KickCountSession>
    var sessionStartTime: Option<Instant>
    var kickCount: int
    var elapsedTime: nat
    /** Whether the one-second timer is scheduled. */
    var timerRunning: bool
    var showHistory: bool

    /** A session is being counted exactly when the timer runs and a start
        time is recorded; that session is stored, still open, and holds the
        kicks on screen. With no session the counter and the clock are zero. */
    ghost predicate Valid()
      reads this, sessions
    {
      && (timerRunning <==> currentSession.Some?)
      && (sessionStartTime.Some? <==> currentSession.Some?)
      && (currentSession.Some? ==>
            && currentSession.value in sessions
            && currentSession.value.endDate.None?
            && currentSession.value.kickCount == kickCount)
      && (currentSession.None? ==> kickCount == 0 && elapsedTime == 0)
    }

    constructor(sessions: seq<KickCountSession>)
      ensures this.sessions == sessions && currentSession.None? && sessionStartTime.None?
      ensures kickCount == 0 && elapsedTime == 0 && !timerRunning && !showHistory
      ensures Valid()
    {
      this.sessions := sessions;
      currentSession := None;
      sessionStartTime := None;
      kickCount := 0;
      elapsedTime := 0;
      timerRunning := false;
      showHistory := false;
    }

    /** `isSessionActive`. */
    predicate IsSessionActive()
      reads this
    {
      currentSession.Some?
    }

    /** The buttons the card shows now. */
    function Actions(): (r: set<KickAction>)
      reads this
      ensures KickAction.CountKick in r <==> currentSession.Some?
      ensures StartCounting in r <==> currentSession.None?
    {
      AvailableActions(IsSessionActive())
    }

    /** `formattedTime`. */
    function FormattedTime(): string
      reads this
    {
      FormatClock(elapsedTime)
    }

    /** `startSession`: stores a new open session with no kicks, starting now,
        and counts it from zero. */
    method StartSession(id: Id, now: Instant)
      modifies this`sessions, this`currentSession, this`sessionStartTime, this`kickCount,
               this`elapsedTime, this`timerRunning
      ensures currentSession.Some? && fresh(currentSession.value)
      ensures sessions == [currentSession.value] + old(sessions)
      ensures currentSession.value.id == id && currentSession.value.startDate == now
      ensures currentSession.value.endDate.None? && currentSession.value.kickCount == 0
      ensures sessionStartTime == Some(now) && kickCount == 0 && elapsedTime == 0 && timerRunning
      ensures Valid()
    {
      var session := new KickCountSession(id, now);
      sessions := [session] + sessions;
      currentSession := Some(session);
      sessionStartTime := Some(now);
      kickCount := 0;
      elapsedTime := 0;
      timerRunning := true;
    }

    /** `countKick`: one more kick, copied into the running session. */
    method CountKick()
      modifies this`kickCount
      modifies (if currentSession.Some? then {currentSession.value} else {})`kickCount
      ensures kickCount == old(kickCount) + 1
      ensures currentSession.Some? ==> currentSession.value.kickCount == kickCount
      ensures currentSession.Some? ==>
        && currentSession.value.id == old(currentSession.value.id)
        && currentSession.value.startDate == old(currentSession.value.startDate)
        && currentSession.value.endDate == old(currentSession.value.endDate)
        && currentSession.value.notes == old(currentSession.value.notes)
      ensures currentSession.Some? && old(Valid()) ==> Valid()
    {
      kickCount := kickCount + 1;
      if currentSession.Some? {
        currentSession.value.kickCount := kickCount;
      }
    }

    /** One firing of the timer. */
    method Tick()
      modifies this`elapsedTime
      ensures elapsedTime == old(elapsedTime) + (if timerRunning then 1 else 0)
      ensures old(Valid()) ==> Valid()
    {
      if timerRunning {
        elapsedTime := elapsedTime + 1;
      }
    }

    /** `stopSession`: ends the running session now, keeping its kicks, and
        resets the counter. */
    method StopSession(now: Instant)
      modifies this`currentSession, this`sessionStartTime, this`kickCount, this`elapsedTime, this`timerRunning
      modifies (if currentSession.Some? then {currentSession.value} else {})`endDate
      ensures old(currentSession).Some? ==>
        && old(currentSession).value.endDate == Some(now)
        && !old(currentSession).value.IsActive()
        && old(currentSession).value.id == old(currentSession.value.id)
        && old(currentSession).value.startDate == old(currentSession.value.startDate)
        && old(currentSession).value.kickCount == old(currentSession.value.kickCount)
        && old(currentSession).value.notes == old(currentSession.value.notes)
      ensures currentSession.None? && sessionStartTime.None?
      ensures kickCount == 0 && elapsedTime == 0 && !timerRunning
      ensures sessions == old(sessions)
      ensures Valid()
    {
      timerRunning := false;
      if currentSession.Some? {
        currentSession.value.endDate := Some(now);
      }
      currentSession := None;
      sessionStartTime := None;
      kickCount := 0;
      elapsedTime := 0;
    }

    /** The Show All / Hide button. */
    method ToggleHistory()
      modifies this`showHistory
      ensures showHistory == !old(showHistory)
    {
      showHistory := !showHistory;
    }

    /** The sessions the history list shows now. */
    function ShownSessions(): (r: seq<KickCountSession>)
      reads this
      ensures |r| <= |sessions| && |r| <= ExpandedHistory
      ensures !showHistory ==> |r| <= CollapsedHistory
      ensures r == sessions[..|r|]
      ensures |r| == if |sessions| <= (if showHistory then ExpandedHistory else CollapsedHistory) then |sessions|
                     else (if showHistory then ExpandedHistory else CollapsedHistory)
    {
      VisibleSessions(sessions, showHistory)
    }
  }
}
