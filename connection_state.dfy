/**
 * The connection state machine of MainViewModel, on values.
 *
 * The view model holds two fields: the socket it currently holds (nullable) and the
 * `connecting` flag. To state "at most one open socket", the state here also keeps the
 * status of every socket an attempt has handed back (`world`, in the order they were
 * delivered), so `held` is an index into `world`, and the number of attempts that were
 * started and have not completed yet (`inFlight`). `cleared` records that the view model
 * was cleared, which cancels its `viewModelScope`.
 *
 * A completion is an explicit step: the background thread and the hop back to the main
 * thread become one `AttemptCompleted` step, handled by `Deliver`, so overlapping attempts
 * are plain sequences of steps.
 */
module ConnectionState {
  import opened Options
  import opened Sockets
  import opened ConnectionThread

  datatype State = State(world: seq<SocketStatus>, held: Option<nat>, connecting: bool, inFlight: nat, cleared: bool)

  predicate WellFormed(st: State) {
    st.held.Some? ==> st.held.value < |st.world|
  }

  /** A fresh view model: nothing held, nothing in progress. */
  function Initial(): (st: State)
    ensures WellFormed(st) && st.held.None? && !st.connecting && st.inFlight == 0 && st.world == []
    ensures !st.cleared
  {
    State([], None, false, 0, false)
  }

  /** `_bluetoothSocket.value?.close()`: closes the held socket, if any, and nothing else. */
  function CloseHeld(st: State): (r: State)
    requires WellFormed(st)
    ensures WellFormed(r)
    ensures r.held == st.held && r.connecting == st.connecting && r.inFlight == st.inFlight
    ensures r.cleared == st.cleared
    ensures |r.world| == |st.world|
    ensures st.held.Some? ==> !r.world[st.held.value].open && !r.world[st.held.value].connected
    ensures forall i :: 0 <= i < |st.world| && st.held != Some(i) ==> r.world[i] == st.world[i]
  {
    match st.held
    case None => st
    case Some(h) => st.(world := st.world[h := st.world[h].Close()])
  }

  /** `connect`: close the held socket, clear it, set `connecting`, start an attempt. */
  function Connect(st: State): (r: State)
    requires WellFormed(st)
    ensures WellFormed(r)
    ensures r.held.None? && r.connecting && r.inFlight == st.inFlight + 1 && r.cleared == st.cleared
    ensures |r.world| == |st.world|
    ensures st.held.Some? ==> !r.world[st.held.value].open && !r.world[st.held.value].connected
    ensures forall i :: 0 <= i < |st.world| && st.held != Some(i) ==> r.world[i] == st.world[i]
  {
    CloseHeld(st).(held := None, connecting := true, inFlight := st.inFlight + 1)
  }

  /** The completion lambda, run on the main thread: clear `connecting`, hold whatever
      socket the attempt delivered, report `socket != null`. The socket held before is
      neither closed nor kept. */
  function Complete(st: State, delivered: Option<SocketStatus>): (r: (State, bool))
    requires WellFormed(st) && st.inFlight > 0
    ensures WellFormed(r.0)
    ensures !r.0.connecting && r.0.inFlight == st.inFlight - 1 && r.0.cleared == st.cleared
    ensures r.1 <==> delivered.Some?
    ensures delivered.None? ==> r.0.held.None? && r.0.world == st.world
    ensures delivered.Some? ==>
              |r.0.world| == |st.world| + 1 && r.0.world[..|st.world|] == st.world
              && r.0.held == Some(|st.world|) && r.0.world[|st.world|] == delivered.value
  {
    match delivered
    case None => (st.(held := None, connecting := false, inFlight := st.inFlight - 1), false)
    case Some(s) =>
      (st.(world := st.world + [s], held := Some(|st.world|), connecting := false,
           inFlight := st.inFlight - 1), true)
  }

  /** What the thread's `onComplete` does with the socket it is handed: `viewModelScope.launch`
      the completion lambda. Once the view model is cleared its scope is cancelled and the
      lambda never runs: the delivered socket is owned by nobody, `connecting` keeps its value
      and the caller's `onComplete` is not called (`None`). Otherwise the lambda runs and its
      report is `Some(success)`. */
  function Deliver(st: State, delivered: Option<SocketStatus>): (r: (State, Option<bool>))
    requires WellFormed(st) && st.inFlight > 0
    ensures WellFormed(r.0) && r.0.inFlight == st.inFlight - 1 && r.0.cleared == st.cleared
    ensures r.0.world == st.world + (if delivered.Some? then [delivered.value] else [])
    ensures !st.cleared ==>
              !r.0.connecting && r.1 == Some(delivered.Some?)
              && r.0.held == (if delivered.Some? then Some(|st.world|) else None)
    ensures st.cleared ==> r.1.None? && r.0.connecting == st.connecting && r.0.held == st.held
  {
    if !st.cleared then
      var (c, success) := Complete(st, delivered);
      (c, Some(success))
    else
      var w := if delivered.Some? then st.world + [delivered.value] else st.world;
      (st.(world := w, inFlight := st.inFlight - 1), None)
  }

  /** `onCleared`, after the platform has cancelled `viewModelScope`: close the held socket
      if there is one. The field keeps its value and nothing else changes. */
  function OnCleared(st: State): (r: State)
    requires WellFormed(st)
    ensures WellFormed(r) && r.cleared
    ensures r.held == st.held && r.connecting == st.connecting && r.inFlight == st.inFlight
    ensures |r.world| == |st.world|
    ensures st.held.Some? ==> !r.world[st.held.value].open && !r.world[st.held.value].connected
    ensures forall i :: 0 <= i < |st.world| && st.held != Some(i) ==> r.world[i] == st.world[i]
  {
    CloseHeld(st).(cleared := true)
  }

  // ---------------------------------------------------------------------------
  // Sequences of steps

  datatype Event =
    | ConnectRequested                      // a device card is clicked
    | AttemptCompleted(b: AttemptBehaviour) // an attempt's thread finishes and its callback runs
    | Cleared                               // the view model is cleared

  /** Whether the event can happen at all: a completion needs an attempt in flight. */
  predicate Possible(st: State, e: Event) {
    e.AttemptCompleted? ==> st.inFlight > 0
  }

  function Step(st: State, e: Event): (r: State)
    requires WellFormed(st) && Possible(st, e)
    ensures WellFormed(r)
  {
    match e
    case ConnectRequested => Connect(st)
    case AttemptCompleted(b) => Deliver(st, Delivered(b)).0
    case Cleared => OnCleared(st)
  }

  predicate Feasible(st: State, es: seq<Event>)
    requires WellFormed(st)
    decreases |es|
  {
    es == [] || (Possible(st, es[0]) && Feasible(Step(st, es[0]), es[1..]))
  }

  function Run(st: State, es: seq<Event>): (r: State)
    requires WellFormed(st) && Feasible(st, es)
    ensures WellFormed(r)
    decreases |es|
  {
    if es == [] then st else Run(Step(st, es[0]), es[1..])
  }

  /** The user interface's discipline: device cards are disabled while `connecting`, so a
      connect is never requested while an attempt is in progress. */
  predicate Guarded(st: State, es: seq<Event>)
    requires WellFormed(st) && Feasible(st, es)
    decreases |es|
  {
    es == [] || ((es[0].ConnectRequested? ==> !st.connecting) && Guarded(Step(st, es[0]), es[1..]))
  }

  // ---------------------------------------------------------------------------
  // Open sockets

  /** The number of open sockets. */
  function OpenCount(w: seq<SocketStatus>): nat
    decreases |w|
  {
    if w == [] then 0 else OpenCount(w[..|w| - 1]) + (if w[|w| - 1].open then 1 else 0)
  }

  /** No socket is open except, possibly, the held one. */
  predicate NoLeak(st: State) {
    WellFormed(st) && forall i :: 0 <= i < |st.world| && st.world[i].open ==> st.held == Some(i)
  }

  /** If every open socket is the one at index h, at most one socket is open. */
  lemma {:induction false} OpenCountOfOnlyOpen(w: seq<SocketStatus>, h: Option<nat>)
    requires forall i :: 0 <= i < |w| && w[i].open ==> h == Some(i)
    ensures OpenCount(w) <= 1
    ensures OpenCount(w) == 1 <==> h.Some? && h.value < |w| && w[h.value].open
    decreases |w|
  {
    if w != [] {
      var p := w[..|w| - 1];
      OpenCountOfOnlyOpen(p, if h == Some(|w| - 1) then None else h);
      if h == Some(|w| - 1) {
        assert OpenCount(p) == 0;
      }
    }
  }

  /** At most one socket is open, whichever it is. */
  predicate AtMostOneOpen(w: seq<SocketStatus>) {
    forall i, j :: 0 <= i < |w| && 0 <= j < |w| && w[i].open && w[j].open ==> i == j
  }

  lemma AtMostOneOpenCount(w: seq<SocketStatus>)
    requires AtMostOneOpen(w)
    ensures OpenCount(w) <= 1
  {
    if i :| 0 <= i < |w| && w[i].open {
      OpenCountOfOnlyOpen(w, Some(i));
    } else {
      OpenCountOfOnlyOpen(w, None);
    }
  }

  /** The invariant the view model keeps when connect is never re-entered while connecting.
      Before it is cleared, every open socket is the held one and `connecting` means an
      attempt is in flight. After, the held socket is closed, and an attempt that completes
      leaves its socket open with no owner; `connecting` then stays set, so no further
      attempt can start and that socket stays the only open one. */
  predicate Disciplined(st: State) {
    WellFormed(st)
    && (forall i :: 0 <= i < |st.world| ==> st.world[i].Valid())
    && st.inFlight <= 1
    && (st.connecting ==> st.held.None?)
    && (!st.cleared ==> NoLeak(st) && (st.connecting <==> st.inFlight == 1))
    && (st.cleared ==>
          (st.held.Some? ==> !st.world[st.held.value].open)
          && (st.inFlight == 1 ==> st.connecting)
          && AtMostOneOpen(st.world)
          && (forall i :: 0 <= i < |st.world| && st.world[i].open ==> st.connecting && st.inFlight == 0))
  }

  lemma InitialDisciplined()
    ensures Disciplined(Initial())
  {
  }

  lemma StepKeepsDisciplined(st: State, e: Event)
    requires Disciplined(st) && Possible(st, e)
    requires e.ConnectRequested? ==> !st.connecting
    ensures Disciplined(Step(st, e))
  {
  }

  /** Under the user interface's discipline, every reachable state keeps the invariant, and
      so never has more than one open socket, which, if open, is the held one. */
  lemma {:induction false} GuardedRunDisciplined(st: State, es: seq<Event>)
    requires Disciplined(st) && Feasible(st, es) && Guarded(st, es)
    ensures Disciplined(Run(st, es))
    ensures OpenCount(Run(st, es).world) <= 1
    decreases |es|
  {
    if es == [] {
      if st.cleared {
        AtMostOneOpenCount(st.world);
      } else {
        OpenCountOfOnlyOpen(st.world, st.held);
      }
    } else {
      StepKeepsDisciplined(st, es[0]);
      GuardedRunDisciplined(Step(st, es[0]), es[1..]);
    }
  }

  /** From a fresh view model, any guarded sequence of steps leaves at most one socket open,
      and until the view model is cleared that socket is the held one. */
  lemma AtMostOneOpenSocket(es: seq<Event>)
    requires Feasible(Initial(), es) && Guarded(Initial(), es)
    ensures OpenCount(Run(Initial(), es).world) <= 1
    ensures !Run(Initial(), es).cleared ==> NoLeak(Run(Initial(), es))
  {
    GuardedRunDisciplined(Initial(), es);
  }

  /** Under the discipline, `connecting` is set whenever an attempt is in flight, and, until
      the view model is cleared, only then: the device cards' guard `!connecting` means "no
      attempt in progress". */
  lemma ConnectingIffAttemptInFlight(es: seq<Event>)
    requires Feasible(Initial(), es) && Guarded(Initial(), es)
    ensures var st := Run(Initial(), es); st.inFlight > 0 ==> st.connecting
    ensures var st := Run(Initial(), es); !st.cleared ==> (st.connecting <==> st.inFlight > 0)
  {
    GuardedRunDisciplined(Initial(), es);
  }

  /** Without the discipline the flag is cleared by the first completion even though the
      second attempt is still running. */
  lemma ConnectingClearedWhileAttemptInFlight(b: AttemptBehaviour)
    ensures var es := [ConnectRequested, ConnectRequested, AttemptCompleted(b)];
      Feasible(Initial(), es)
      && var r := Run(Initial(), es); !r.connecting && r.inFlight == 1
  {
    var es := [ConnectRequested, ConnectRequested, AttemptCompleted(b)];
    var s1 := Step(Initial(), es[0]);
    var s2 := Step(s1, es[1]);
    var s3 := Step(s2, es[2]);
    assert es[1..][1..][1..] == [];
    assert Run(Initial(), es) == s3 by {
      assert Run(s2, es[1..][1..]) == s3;
      assert Run(s1, es[1..]) == s3;
    }
  }

  /** A completion that arrives while a connected socket is held replaces it without
      closing it: the old socket stays open and is no longer reachable from the view model. */
  lemma CompletionOverwritesWithoutClosing(st: State, delivered: Option<SocketStatus>)
    requires NoLeak(st) && st.inFlight > 0
    requires st.held.Some? && st.world[st.held.value].open
    ensures var r := Complete(st, delivered).0;
      r.world[st.held.value].open && r.held != st.held && !NoLeak(r)
  {
    var r := Complete(st, delivered).0;
    assert r.world[st.held.value] == st.world[st.held.value];
  }

  /** Without the discipline the invariant fails: two connects in a row, then both attempts
      succeed. The first socket stays open and the view model holds the second. */
  lemma StaleCompletionLeaksSocket()
    ensures var es := [ConnectRequested, ConnectRequested, AttemptCompleted(Succeeds), AttemptCompleted(Succeeds)];
      Feasible(Initial(), es) && !Guarded(Initial(), es)
      && var r := Run(Initial(), es);
         |r.world| == 2 && r.world[0].open && r.world[1].open && r.held == Some(1)
         && OpenCount(r.world) == 2 && !NoLeak(r)
  {
    var es := [ConnectRequested, ConnectRequested, AttemptCompleted(Succeeds), AttemptCompleted(Succeeds)];
    var s1 := Step(Initial(), es[0]);
    var s2 := Step(s1, es[1]);
    var s3 := Step(s2, es[2]);
    var s4 := Step(s3, es[3]);
    assert s4.world == [Connected, Connected];
    assert es[1..][1..][1..][1..] == [];
    assert Run(Initial(), es) == s4 by {
      assert Run(s3, es[1..][1..][1..]) == s4;
      assert Run(s2, es[1..][1..]) == s4;
      assert Run(s1, es[1..]) == s4;
    }
    assert OpenCount(s4.world[..1]) == 1;
  }

  /** Once the view model is cleared, an attempt still in flight is not cancelled: its thread
      connects and delivers the socket, but the completion lambda never runs. The socket stays
      open and connected, the view model does not hold it and nothing closes it. */
  lemma ClearedWhileConnectingLeaksSocket()
    ensures var es := [ConnectRequested, Cleared, AttemptCompleted(Succeeds)];
      Feasible(Initial(), es) && Guarded(Initial(), es)
      && var r := Run(Initial(), es);
         r.world == [Connected] && r.held.None? && r.connecting && !NoLeak(r)
         && Deliver(Step(Step(Initial(), es[0]), es[1]), Delivered(Succeeds)).1.None?
  {
    var es := [ConnectRequested, Cleared, AttemptCompleted(Succeeds)];
    var s1 := Step(Initial(), es[0]);
    var s2 := Step(s1, es[1]);
    var s3 := Step(s2, es[2]);
    assert s3.world == [Connected] && s3.world[0].open;
    assert es[1..][1..][1..] == [];
    assert Run(Initial(), es) == s3 by {
      assert Run(s2, es[1..][1..]) == s3;
      assert Run(s1, es[1..]) == s3;
    }
  }
}
