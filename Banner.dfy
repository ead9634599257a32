/**
 * The save-feedback banner of the header as a state machine over values.
 *
 * A `State` holds the store's `message` field, the component's two local
 * fields (`showMessage`, `content`), the handle that the current run of the
 * message effect keeps for its cleanup (`timeoutId`), the current pathname,
 * and the reset timers that are armed and not yet fired or cancelled. Each
 * armed timer is recorded with the message whose effect run armed it, which
 * is what lets "a stale timer never resets a newer message" be stated.
 *
 * Wall-clock time is abstract: an armed timer either fires (`Fire`) or is
 * cancelled by the cleanup of the effect run that armed it, which React runs
 * before the next run of the effect and when the component unmounts.
 */
module Banner {
  import opened Wrappers
  import opened MessageContent

  type TimerId = nat

  /** The pathname on which the banner is forced back to IDLE. */
  const Dashboard: string := "/dashboard"

  datatype State = State(
    message: Message,
    showMessage: bool,
    content: Option<Content>,
    timeoutId: Option<TimerId>,
    timers: map<TimerId, Message>,
    nextTimerId: TimerId,
    pathname: string)

  /** The component's state before any effect has run: hidden, no content, no timer. */
  function Unmounted(message: Message, pathname: string): (r: State)
    ensures r.message == message && r.pathname == pathname
    ensures r.nextTimerId == 0
  {
    State(message, false, None, None, map[], 0, pathname)
  }

  /** Cleanup returned by the previous run of the message effect: clear its timer, if any. */
  function Cleanup(s: State): (r: State)
    ensures r.timeoutId.None? && r.timers.Keys <= s.timers.Keys
    ensures s.timeoutId.Some? ==> s.timeoutId.value !in r.timers
    ensures s.timeoutId.None? ==> r.timers == s.timers
    ensures s.timeoutId.Some? ==> r.timers == s.timers - {s.timeoutId.value}
    ensures forall id :: id in r.timers ==> r.timers[id] == s.timers[id]
    ensures r.(timers := s.timers, timeoutId := s.timeoutId) == s
  {
    var remaining := if s.timeoutId.Some? then s.timers - {s.timeoutId.value} else s.timers;
    s.(timers := remaining, timeoutId := None)
  }

  /** Body of the message effect, for the message now in the store. */
  function MessageEffect(s: State): (r: State)
    ensures r.message == s.message && r.pathname == s.pathname
    ensures s.message == IDLE ==> !r.showMessage && r.content == s.content && r.timers == s.timers
    ensures s.message != IDLE ==> r.showMessage && r.content == ContentFor(s.message) && r.content.Some?
    ensures ArmsTimer(s.message) ==>
      s.nextTimerId !in s.timers.Keys ==> r.timers.Keys == s.timers.Keys + {s.nextTimerId}
    ensures ArmsTimer(s.message) ==>
      r.timeoutId == Some(s.nextTimerId) && s.nextTimerId in r.timers && r.timers[s.nextTimerId] == s.message
    ensures !ArmsTimer(s.message) ==> r.timers == s.timers && r.timeoutId == s.timeoutId
  {
    if s.message == IDLE then
      s.(showMessage := false)
    else
      var shown := s.(showMessage := true, content := ContentFor(s.message));
      if ArmsTimer(s.message) then
        shown.(timers := shown.timers[shown.nextTimerId := s.message],
               timeoutId := Some(shown.nextTimerId),
               nextTimerId := shown.nextTimerId + 1)
      else
        shown
  }

  /**
   * `update("message", m)`: the store write, then a re-run of the message
   * effect (cleanup first) when the value actually changed. Writing the value
   * the store already holds triggers no re-run.
   */
  function Update(s: State, m: Message): (r: State)
    ensures r.message == m && r.pathname == s.pathname
    ensures m == s.message ==> r == s
    ensures m != s.message ==> (r.showMessage <==> m != IDLE)
    ensures m != s.message ==> r.timeoutId == if ArmsTimer(m) then Some(s.nextTimerId) else None
    ensures m != s.message ==> r.nextTimerId == if ArmsTimer(m) then s.nextTimerId + 1 else s.nextTimerId
  {
    if m == s.message then s
    else MessageEffect(Cleanup(s).(message := m))
  }

  /** An armed reset timer fires: it is no longer pending and writes IDLE. */
  function Fire(s: State, id: TimerId): (r: State)
    requires id in s.timers
    ensures r.message == IDLE && id !in r.timers
    ensures s.message != IDLE ==> !r.showMessage
    ensures r.pathname == s.pathname && r.content == s.content
  {
    Update(s.(timers := s.timers - {id}), IDLE)
  }

  /** The pathname changes; the pathname effect re-runs only on a change. */
  function Navigate(s: State, path: string): (r: State)
    ensures r.pathname == path
    ensures path == s.pathname ==> r == s
    ensures path != s.pathname && path == Dashboard ==> r.message == IDLE
    ensures path != s.pathname && path == Dashboard && s.message != IDLE ==> !r.showMessage
    ensures path != Dashboard ==> r == s.(pathname := path)
  {
    if path == s.pathname then s
    else
      var moved := s.(pathname := path);
      if path == Dashboard then Update(moved, IDLE) else moved
  }

  /** Mounting: the initial local state, then both effects in declaration order. */
  function Mount(message: Message, pathname: string): (r: State)
    ensures r.pathname == pathname
    ensures r.message == if pathname == Dashboard then IDLE else message
    ensures r.showMessage <==> r.message != IDLE
  {
    var afterMessage := MessageEffect(Unmounted(message, pathname));
    if pathname == Dashboard then Update(afterMessage, IDLE) else afterMessage
  }

  /** What is rendered: nothing without a session, else the content when shown and non-null. */
  function View(s: State, hasSession: bool): (r: Option<Content>)
    ensures r.Some? <==> hasSession && s.showMessage && s.content.Some?
    ensures r.Some? ==> r == s.content
  {
    if hasSession && s.showMessage && s.content.Some? then s.content else None
  }

  /**
   * The invariant every reachable state keeps: the banner shows exactly the
   * entry of the current message, and the only armed timer, if any, is the one
   * the current effect run armed for the current message, under an id below
   * the next one to be handed out.
   */
  predicate Inv(s: State) {
    (s.message == IDLE ==> !s.showMessage)
    && (s.message != IDLE ==> s.showMessage && s.content == ContentFor(s.message))
    && (ArmsTimer(s.message) ==>
          s.timeoutId.Some? && s.timers == map[s.timeoutId.value := s.message])
    && (!ArmsTimer(s.message) ==> s.timeoutId.None? && s.timers == map[])
    && (s.timeoutId.Some? ==> s.timeoutId.value < s.nextTimerId)
  }

  /**
   * The component unmounts: React runs the cleanup of the last message-effect
   * run, which clears its timer. The state left behind is the store's; its
   * message is kept, so a timed message is never reset to IDLE.
   */
  function Unmount(s: State): (r: State)
    ensures r.message == s.message && r.timeoutId.None?
    ensures s.timeoutId.Some? ==> s.timeoutId.value !in r.timers
  {
    Cleanup(s)
  }

  /** The events the environment can produce. */
  datatype Event =
    | SetMessage(m: Message)
    | TimerFires(id: TimerId)
    | PathChanges(path: string)

  /** One event; a timer that is not armed (never armed, fired or cancelled) cannot fire. */
  function Step(s: State, e: Event): State {
    match e
    case SetMessage(m) => Update(s, m)
    case TimerFires(id) => if id in s.timers then Fire(s, id) else s
    case PathChanges(path) => Navigate(s, path)
  }

  function Run(s: State, events: seq<Event>): State
    decreases |events|
  {
    if events == [] then s else Run(Step(s, events[0]), events[1..])
  }

  // ---------------------------------------------------------------------------
  // Properties
  // ---------------------------------------------------------------------------

  /** Before the effects run the banner is hidden, has no content and no timer is armed. */
  lemma UnmountedHidden(message: Message, pathname: string)
    ensures var s := Unmounted(message, pathname);
      !s.showMessage && s.content.None? && s.timers == map[] && s.timeoutId.None?
  {
  }

  /** Mounting with an IDLE store leaves the banner hidden, contentless and without timer. */
  lemma MountIdle(pathname: string)
    ensures var s := Mount(IDLE, pathname);
      !s.showMessage && s.content.None? && s.timers == map[] && s.message == IDLE
  {
  }

  /** Every mounted state satisfies the invariant. */
  lemma MountInv(message: Message, pathname: string)
    ensures Inv(Mount(message, pathname))
    ensures pathname == Dashboard ==> Mount(message, pathname).message == IDLE
  {
  }

  /** Changing the message to IDLE hides the banner, cancels every timer and keeps the content. */
  lemma UpdateToIdle(s: State)
    requires Inv(s) && s.message != IDLE
    ensures var r := Update(s, IDLE);
      r.message == IDLE && !r.showMessage && r.content == s.content
      && r.timers == map[] && r.timeoutId.None? && r.pathname == s.pathname
  {
  }

  /** Changing to a non-IDLE message shows exactly its table entry. */
  lemma UpdateToShown(s: State, m: Message)
    requires m != IDLE && m != s.message
    ensures var r := Update(s, m);
      r.message == m && r.showMessage && r.content == ContentFor(m)
      && r.content.Some? && r.pathname == s.pathname
  {
  }

  /**
   * A message change cancels every timer armed before it, and arms a new one
   * iff the new message is SUCCESS, ERROR, TOO_MANY_REQUESTS or LIMIT_REACHED;
   * the new timer has a fresh id and is recorded for the new message.
   */
  lemma UpdateTimers(s: State, m: Message)
    requires Inv(s) && m != s.message
    ensures var r := Update(s, m);
      (forall id :: id in s.timers ==> id !in r.timers)
      && (r.timers != map[] <==> ArmsTimer(m))
      && (ArmsTimer(m) ==> r.timers == map[s.nextTimerId := m] && r.timeoutId == Some(s.nextTimerId))
  {
    var r := Update(s, m);
    var c := Cleanup(s);
    assert c.timers == map[];
    if ArmsTimer(m) {
      assert r.timers == map[s.nextTimerId := m];
      assert s.nextTimerId in r.timers;
    }
  }

  /** Writing the message the store already holds changes nothing: a running timer is not restarted. */
  lemma UpdateSameMessage(s: State)
    ensures Update(s, s.message) == s
  {
  }

  /**
   * A timer that fires was armed for the current message (never a stale one);
   * firing only sets the message to IDLE, which hides the banner and leaves no timer.
   */
  lemma FireResets(s: State, id: TimerId)
    requires Inv(s) && id in s.timers
    ensures s.timers[id] == s.message && ArmsTimer(s.message)
    ensures var r := Fire(s, id);
      r == Update(s, IDLE)
      && r.message == IDLE && !r.showMessage && r.content == s.content
      && r.timers == map[] && r.pathname == s.pathname
  {
  }

  /** Navigating to "/dashboard" forces IDLE (hidden, no timer); nothing else changes on other paths. */
  lemma NavigateEffect(s: State, path: string)
    requires Inv(s) && path != s.pathname
    ensures var r := Navigate(s, path);
      r.pathname == path
      && (path == Dashboard ==> r.message == IDLE && !r.showMessage && r.timers == map[])
      && (path != Dashboard ==> r == s.(pathname := path))
  {
  }

  /** Every transition keeps the invariant. */
  lemma StepInv(s: State, e: Event)
    requires Inv(s)
    ensures Inv(Step(s, e))
  {
  }

  /**
   * In every state reachable from a mount, the invariant holds, so at most one
   * timer is armed and it belongs to the message currently in the store.
   */
  lemma {:induction false} RunInv(s: State, events: seq<Event>)
    requires Inv(s)
    ensures Inv(Run(s, events))
    decreases |events|
  {
    if events != [] {
      StepInv(s, events[0]);
      RunInv(Step(s, events[0]), events[1..]);
    }
  }

  lemma ReachableInvariant(message: Message, pathname: string, events: seq<Event>)
    ensures var s := Run(Mount(message, pathname), events);
      Inv(s) && |s.timers| <= 1
      && (forall id :: id in s.timers ==> s.timers[id] == s.message)
  {
    MountInv(message, pathname);
    RunInv(Mount(message, pathname), events);
  }

  /** Events that do not write the store's message themselves. */
  predicate ByTimersOrOtherPaths(events: seq<Event>) {
    forall i :: 0 <= i < |events| ==> !events[i].SetMessage? && !(events[i].PathChanges? && events[i].path == Dashboard)
  }

  /**
   * PENDING has no timeout: as long as nobody else writes the message (and no
   * navigation to the dashboard happens), it persists, with the banner shown.
   */
  lemma {:induction false} PendingPersists(s: State, events: seq<Event>)
    requires Inv(s) && s.message == PENDING
    requires ByTimersOrOtherPaths(events)
    ensures var r := Run(s, events);
      r.message == PENDING && r.showMessage && r.content == ContentFor(PENDING)
    decreases |events|
  {
    if events != [] {
      var e := events[0];
      assert !e.SetMessage? && !(e.PathChanges? && e.path == Dashboard);
      StepInv(s, e);
      assert Step(s, e).message == PENDING;
      assert ByTimersOrOtherPaths(events[1..]) by {
        forall i | 0 <= i < |events[1..]|
          ensures !events[1..][i].SetMessage? && !(events[1..][i].PathChanges? && events[1..][i].path == Dashboard)
        {
          assert events[1..][i] == events[i + 1];
        }
      }
      PendingPersists(Step(s, e), events[1..]);
    }
  }

  /** The view shows the current message's entry exactly when there is a session and the message is not IDLE. */
  lemma ViewMatchesMessage(s: State, hasSession: bool)
    requires Inv(s)
    ensures View(s, hasSession) == if hasSession && s.message != IDLE then ContentFor(s.message) else None
  {
  }

  /** Unmounting a reachable state leaves no timer armed and the message in the store as it was. */
  lemma UnmountClears(s: State)
    requires Inv(s)
    ensures Unmount(s).timers == map[] && Unmount(s).message == s.message
  {
    if ArmsTimer(s.message) {
      assert s.timers.Keys == {s.timeoutId.value};
    }
  }

  /**
   * Unmounting a reachable state leaves no timer armed and the message in the
   * store as it was; mounting again with that message on any pathname other
   * than "/dashboard" shows its entry again and, for a timed message, arms a
   * fresh timer for it. On "/dashboard" the mount forces IDLE instead
   * (`RemountOnDashboard`).
   */
  lemma UnmountThenRemount(s: State, pathname: string)
    requires Inv(s) && pathname != Dashboard
    ensures Unmount(s).timers == map[] && Unmount(s).message == s.message
    ensures var r := Mount(Unmount(s).message, pathname);
      r.message == s.message
      && (s.message != IDLE ==> r.showMessage && r.content == ContentFor(s.message))
      && (ArmsTimer(s.message) <==> r.timers != map[])
  {
    UnmountClears(s);
  }

  /** Mounting again on "/dashboard" after an unmount forces IDLE: hidden, and no timer stays armed. */
  lemma RemountOnDashboard(s: State)
    requires Inv(s)
    ensures var r := Mount(Unmount(s).message, Dashboard);
      r.message == IDLE && !r.showMessage && r.timers == map[]
  {
    UnmountClears(s);
  }

  /** Without a session nothing is rendered, whatever the state. */
  lemma NoSessionNoView(s: State)
    ensures View(s, false) == None
  {
  }
}
