/**
 * The connection lifecycle around `startBot`: a `close` update schedules a
 * new `startBot` after 5 s unless the close reason is a logout, an `open`
 * update schedules nothing, and an exception during startup schedules a new
 * `startBot` after 10 s.  Timers are recorded as pending delays, not waited on.
 */
module Session {
  import opened Wrappers

  /** `DisconnectReason.loggedOut`. */
  const LOGGED_OUT: int := 401
  /** The status code `new Boom(err)` gives an error that is not already a Boom error (or no error). */
  const BOOM_DEFAULT_STATUS: int := 500
  const RECONNECT_DELAY_MS: nat := 5000
  const STARTUP_RETRY_DELAY_MS: nat := 10000

  /** The `connection` field of a `connection.update`. */
  datatype Connection = Connecting | Open | Close

  /**
   * One `connection.update`: its `connection` field, if any, and the status
   * code carried by `lastDisconnect.error` when that error is a Boom error.
   */
  datatype Update = Update(connection: Option<Connection>, boomStatus: Option<int>)

  /** The session as the rest of the process sees it. */
  datatype State = Starting | Online | ClosedRecoverable | ClosedTerminal

  /** Everything that drives the lifecycle. */
  datatype Event =
    | ConnectionUpdate(update: Update)
    | StartupError
    | TimerFired(index: nat)

  /** The state and the delays of the `startBot` timers not yet fired, in scheduling order. */
  datatype Snapshot = Snapshot(state: State, pending: seq<nat>)

  /** `new Boom(lastDisconnect?.error).output.statusCode`. */
  function CloseStatus(u: Update): int {
    u.boomStatus.GetOr(BOOM_DEFAULT_STATUS)
  }

  /** A close that is not a logout; a close without any status code counts as one. */
  predicate IsRecoverableClose(u: Update) {
    u.connection == Some(Close) && CloseStatus(u) != LOGGED_OUT
  }

  /**
   * The delay the `connection.update` listener schedules `startBot` after:
   * 5000 ms for a close that is not a logout, nothing for a logout, an open,
   * or any other update.
   */
  function Reaction(u: Update): (r: Option<nat>)
    ensures r.Some? <==> IsRecoverableClose(u)
    ensures r.Some? ==> r.value == RECONNECT_DELAY_MS
    ensures u.connection == Some(Open) || u.boomStatus == Some(LOGGED_OUT) ==> r.None?
  {
    if u.connection == Some(Close) then
      var shouldReconnect := CloseStatus(u) != LOGGED_OUT;
      if shouldReconnect then Some(RECONNECT_DELAY_MS) else None
    else None
  }

  /** The state a connection update leaves the session in. */
  function NextState(s: State, u: Update): State {
    match u.connection
    case Some(Close) => if CloseStatus(u) == LOGGED_OUT then ClosedTerminal else ClosedRecoverable
    case Some(Open) => Online
    case Some(Connecting) => Starting
    case None => s
  }

  /** `pending` without its `i`th timer. */
  function RemoveAt(pending: seq<nat>, i: nat): (r: seq<nat>)
    requires i < |pending|
    ensures |r| == |pending| - 1
    ensures multiset(r) + multiset{pending[i]} == multiset(pending)
  {
    assert pending == pending[..i] + [pending[i]] + pending[i + 1..];
    pending[..i] + pending[i + 1..]
  }

  /**
   * The transition table.  A connection update appends the delay it schedules;
   * a startup exception appends the 10 s retry; a timer that fires runs
   * `startBot` again; a timer that is not pending changes nothing.
   */
  function Step(s: Snapshot, e: Event): (r: Snapshot)
    ensures e.StartupError? ==> r == Snapshot(ClosedRecoverable, s.pending + [STARTUP_RETRY_DELAY_MS])
    ensures e.ConnectionUpdate? && !IsRecoverableClose(e.update) ==> r.pending == s.pending
    ensures e.ConnectionUpdate? && IsRecoverableClose(e.update) ==>
      r == Snapshot(ClosedRecoverable, s.pending + [RECONNECT_DELAY_MS])
    ensures e.ConnectionUpdate? && e.update.connection == Some(Open) ==> r == Snapshot(Online, s.pending)
    ensures e.TimerFired? && e.index < |s.pending| ==>
      r.state == Starting && r.pending == RemoveAt(s.pending, e.index)
    ensures e.TimerFired? && e.index >= |s.pending| ==> r == s
  {
    match e
    case ConnectionUpdate(u) =>
      Snapshot(NextState(s.state, u), s.pending + (match Reaction(u) case Some(d) => [d] case None => []))
    case StartupError => Snapshot(ClosedRecoverable, s.pending + [STARTUP_RETRY_DELAY_MS])
    case TimerFired(i) =>
      if i < |s.pending| then Snapshot(Starting, RemoveAt(s.pending, i)) else s
  }

  /** The snapshot after a sequence of events. */
  function Run(s: Snapshot, es: seq<Event>): Snapshot
    decreases |es|
  {
    if es == [] then s else Run(Step(s, es[0]), es[1..])
  }

  /** A logout close ends the session and schedules nothing. */
  lemma LoggedOutIsTerminal(s: Snapshot, u: Update)
    requires u.connection == Some(Close) && CloseStatus(u) == LOGGED_OUT
    ensures Step(s, ConnectionUpdate(u)) == Snapshot(ClosedTerminal, s.pending)
  {
  }

  /** Every timer ever scheduled waits either the reconnect delay or the startup retry delay. */
  predicate KnownDelays(pending: seq<nat>) {
    forall i :: 0 <= i < |pending| ==> pending[i] == RECONNECT_DELAY_MS || pending[i] == STARTUP_RETRY_DELAY_MS
  }

  lemma {:induction false} RunKeepsKnownDelays(s: Snapshot, es: seq<Event>)
    requires KnownDelays(s.pending)
    ensures KnownDelays(Run(s, es).pending)
    decreases |es|
  {
    if es != [] {
      var t := Step(s, es[0]);
      if es[0].TimerFired? && es[0].index < |s.pending| {
        var i := es[0].index;
        assert t.pending == s.pending[..i] + s.pending[i + 1..];
        assert forall k :: 0 <= k < |t.pending| ==> t.pending[k] == s.pending[if k < i then k else k + 1];
      }
      RunKeepsKnownDelays(t, es[1..]);
    }
  }

  /** The number of closes in `us` that are not logouts. */
  function RecoverableCloses(us: seq<Update>): nat {
    if us == [] then 0 else (if IsRecoverableClose(us[0]) then 1 else 0) + RecoverableCloses(us[1..])
  }

  function AsEvents(us: seq<Update>): (es: seq<Event>)
    ensures |es| == |us|
    ensures forall i :: 0 <= i < |us| ==> es[i] == ConnectionUpdate(us[i])
  {
    seq(|us|, i requires 0 <= i < |us| => ConnectionUpdate(us[i]))
  }

  /** `n` copies of `x`. */
  function Repeat<T>(x: T, n: nat): (r: seq<T>)
    ensures |r| == n && forall i :: 0 <= i < n ==> r[i] == x
  {
    if n == 0 then [] else [x] + Repeat(x, n - 1)
  }

  /**
   * Over any sequence of connection updates, each close that is not a logout
   * adds exactly one 5 s restart and nothing else adds any: retries are never
   * capped and never back off.
   */
  lemma {:induction false} UpdatesScheduleOneRestartPerClose(s: Snapshot, us: seq<Update>)
    ensures Run(s, AsEvents(us)).pending == s.pending + Repeat(RECONNECT_DELAY_MS, RecoverableCloses(us))
    decreases |us|
  {
    if us != [] {
      var es := AsEvents(us);
      assert es[1..] == AsEvents(us[1..]);
      var t := Step(s, es[0]);
      UpdatesScheduleOneRestartPerClose(t, us[1..]);
      if IsRecoverableClose(us[0]) {
        assert t.pending == s.pending + [RECONNECT_DELAY_MS];
        assert Repeat(RECONNECT_DELAY_MS, RecoverableCloses(us))
          == [RECONNECT_DELAY_MS] + Repeat(RECONNECT_DELAY_MS, RecoverableCloses(us[1..]));
      } else {
        assert t.pending == s.pending;
      }
    }
  }

  /**
   * A logout does not cancel a restart scheduled by an earlier close: the
   * timer stays pending through the logout, and when it fires `startBot`
   * runs again and the session leaves `ClosedTerminal`.
   */
  lemma LogoutKeepsEarlierRestart(s: Snapshot, u: Update)
    requires u.connection == Some(Close) && CloseStatus(u) == LOGGED_OUT
    requires |s.pending| > 0
    ensures var t := Step(s, ConnectionUpdate(u));
      t.state == ClosedTerminal && t.pending == s.pending
      && Step(t, TimerFired(0)).state == Starting
  {
  }

  /**
   * The process's one lifecycle owner.  It starts in `Starting` (the first
   * `startBot()` call) and is driven by the three kinds of event.
   */
  class Bot {
    var state: State
    var pending: seq<nat>

    function Snap(): Snapshot
      reads this
    {
      Snapshot(state, pending)
    }

    constructor ()
      ensures Snap() == Snapshot(Starting, [])
    {
      state := Starting;
      pending := [];
    }

    /** The `connection.update` listener. */
    method OnConnectionUpdate(u: Update)
      modifies this
      ensures Snap() == Step(old(Snap()), ConnectionUpdate(u))
    {
      if u.connection == Some(Close) {
        var status := if u.boomStatus.Some? then u.boomStatus.value else BOOM_DEFAULT_STATUS;
        var shouldReconnect := status != LOGGED_OUT;
        if shouldReconnect {
          pending := pending + [RECONNECT_DELAY_MS];
          state := ClosedRecoverable;
        } else {
          state := ClosedTerminal;
        }
      } else if u.connection == Some(Open) {
        state := Online;
      } else if u.connection == Some(Connecting) {
        state := Starting;
      }
    }

    /** The `catch` around the body of `startBot`. */
    method OnStartupError()
      modifies this
      ensures Snap() == Step(old(Snap()), StartupError)
      ensures pending == old(pending) + [STARTUP_RETRY_DELAY_MS]
    {
      pending := pending + [STARTUP_RETRY_DELAY_MS];
      state := ClosedRecoverable;
    }

    /** The `i`th pending timer fires and `startBot` runs again; a timer not pending does nothing. */
    method OnTimer(i: nat)
      modifies this
      ensures Snap() == Step(old(Snap()), TimerFired(i))
    {
      if i < |pending| {
        pending := pending[..i] + pending[i + 1..];
        state := Starting;
      }
    }
  }
}
