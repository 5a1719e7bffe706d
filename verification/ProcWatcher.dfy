/** The watcher of one child process: start, stop and asynchronous stop, and a polling greenlet that restarts the
    child. `stop` yields while it waits for the child; pollers wake up at any time, also outdated ones.
    A launch is atomic. */
module ProcWatcher {

  import opened Common

  datatype Pid = Pid(number: int)

  datatype Greenlet = Greenlet(number: int)

  /** The watcher, the children that are alive, the polling greenlets that have not ended, and the children that a
      `stop` is waiting for. */
  datatype WatcherState = WatcherState(
    started: bool, popen: Option<Pid>, poller: Option<Greenlet>, restarts: nat,
    alive: set<Pid>, pollers: set<Greenlet>, stopping: set<Pid>)

  datatype Event =
    | Start(pid: Pid, g: Greenlet, launches: bool)
    | StopBegins
    | StopEnds(pid: Pid)
    | AsyncStop
    | ChildExits(pid: Pid)
    | Wakes(g: Greenlet, pid: Pid, launches: bool, restart: bool)

  // ---------- Steps as functions ----------

  function Launched(st: WatcherState, pid: Pid): WatcherState {
    st.(popen := Some(pid), alive := st.alive + {pid})
  }

  function Started(st: WatcherState, pid: Pid, g: Greenlet, launches: bool): WatcherState {
    if st.started || st.popen.Some? || !launches then st
    else Launched(st, pid).(restarts := 0, started := true, poller := Some(g), pollers := st.pollers + {g})
  }

  function StopBegun(st: WatcherState): WatcherState {
    if !st.started then st
    else st.(started := false, poller := None,
             stopping := if st.popen.Some? then st.stopping + {st.popen.value} else st.stopping)
  }

  function StopEnded(st: WatcherState, pid: Pid): WatcherState {
    st.(stopping := st.stopping - {pid}, popen := if st.popen == Some(pid) then None else st.popen)
  }

  function AsyncStopped(st: WatcherState): WatcherState {
    if !st.started then st else st.(started := false, poller := None, popen := None)
  }

  /** A polling greenlet wakes up. `restart` says that exits are followed by restarts. */
  function Woken(st: WatcherState, g: Greenlet, pid: Pid, launches: bool, restart: bool): WatcherState {
    if !st.started || st.poller != Some(g) then st.(pollers := st.pollers - {g})
    else if st.popen.None? then
      var n := st.(restarts := st.restarts + 1);
      if launches then Launched(n, pid) else n
    else if st.popen.value in st.alive then st
    else st.(popen := None, pollers := if restart then st.pollers else st.pollers - {g})
  }

  /** Ids of processes and greenlets are given out once; a waiting `stop` ends when its child has exited. */
  predicate Enabled(st: WatcherState, e: Event) {
    match e
    case Start(pid, g, _) => pid !in st.alive && st.popen != Some(pid) && pid !in st.stopping && g !in st.pollers
    case StopEnds(pid) => pid in st.stopping && pid !in st.alive
    case ChildExits(pid) => pid in st.alive
    case Wakes(g, pid, _, _) => g in st.pollers && pid !in st.alive && pid !in st.stopping
    case _ => true
  }

  function Step(st: WatcherState, e: Event): WatcherState {
    match e
    case Start(pid, g, launches) => Started(st, pid, g, launches)
    case StopBegins => StopBegun(st)
    case StopEnds(pid) => StopEnded(st, pid)
    case AsyncStop => AsyncStopped(st)
    case ChildExits(pid) => st.(alive := st.alive - {pid})
    case Wakes(g, pid, launches, restart) => Woken(st, g, pid, launches, restart)
  }

  // ---------- What a step leaves behind ----------

  /** A start launches exactly if the watcher is stopped, no child is tracked and the launch succeeds; then the child is
      alive and tracked, and the new greenlet is the current poller. */
  lemma StartedIs(st: WatcherState, pid: Pid, g: Greenlet, launches: bool)
    ensures var n := Started(st, pid, g, launches);
      if !st.started && st.popen.None? && launches
      then n == WatcherState(true, Some(pid), Some(g), 0, st.alive + {pid}, st.pollers + {g}, st.stopping)
      else n == st
  {
  }

  /** A stop of a started watcher begins to wait for its child, if there is one; nothing is killed or forgotten yet. */
  lemma StopBegunIs(st: WatcherState)
    ensures var n := StopBegun(st);
      && !n.started && n.popen == st.popen && n.alive == st.alive && n.pollers == st.pollers
         && n.restarts == st.restarts
      && (st.started ==> n.poller.None? && n.stopping == st.stopping + (if st.popen.Some? then {st.popen.value}
         else {}))
      && (!st.started ==> n == st)
  {
  }

  /** The end of the wait forgets the child if it is still the tracked one. */
  lemma StopEndedIs(st: WatcherState, pid: Pid)
    ensures var n := StopEnded(st, pid);
      && n.stopping == st.stopping - {pid} && n.popen == (if st.popen == Some(pid) then None else st.popen)
      && n.started == st.started && n.poller == st.poller && n.alive == st.alive && n.pollers == st.pollers
  {
  }

  /** An asynchronous stop of a started watcher forgets the child at once. */
  lemma AsyncStoppedIs(st: WatcherState)
    ensures var n := AsyncStopped(st);
      && !n.started && n.alive == st.alive && n.pollers == st.pollers && n.stopping == st.stopping
      && (st.started ==> n.poller.None? && n.popen.None?)
      && (!st.started ==> n == st)
  {
  }

  /** The current poller of a started watcher forgets a child that has exited, and ends unless it restarts; without a
      child it launches one and counts the restart; and it lets a living child be. */
  lemma WokenIs(st: WatcherState, g: Greenlet, pid: Pid, launches: bool, restart: bool)
    requires st.started && st.poller == Some(g)
    ensures var n := Woken(st, g, pid, launches, restart);
      && n.started && n.poller == Some(g) && n.stopping == st.stopping
      && (st.popen.Some? && st.popen.value in st.alive ==> n == st)
      && (st.popen.Some? && st.popen.value !in st.alive ==>
            n.popen.None? && n.alive == st.alive && n.restarts == st.restarts
            && n.pollers == (if restart then st.pollers else st.pollers - {g}))
      && (st.popen.None? ==> n.restarts == st.restarts + 1 && n.pollers == st.pollers
                             && n.popen == (if launches then Some(pid) else None)
                             && n.alive == (if launches then st.alive + {pid} else st.alive))
  {
  }

  /** So two wake-ups of the current poller, with nothing else in between, bring an exited child back. */
  lemma ExitedChildComesBack(st: WatcherState, g: Greenlet, c: Pid, pid: Pid)
    requires st.started && st.poller == Some(g) && g in st.pollers && st.popen == Some(c) && c !in st.alive
    ensures var n := Woken(Woken(st, g, pid, true, true), g, pid, true, true);
      n.popen == Some(pid) && pid in n.alive && n.restarts == st.restarts + 1 && g in n.pollers
  {
  }

  // ---------- Generations ----------

  /** A child is launched only while none is tracked, so a launch never overwrites one. */
  lemma LaunchOverwritesNothing(st: WatcherState, e: Event, c: Pid)
    requires c !in st.alive && c in Step(st, e).alive
    ensures st.popen.None? && Step(st, e).popen == Some(c)
  {
  }

  /** A tracked child stops being tracked only when it has exited, unless by an asynchronous stop. */
  lemma DroppedOnlyIfExited(st: WatcherState, e: Event, c: Pid)
    requires Enabled(st, e) && st.popen == Some(c) && Step(st, e).popen != Some(c)
    ensures e.AsyncStop? || c !in st.alive
  {
  }

  /** Every living child is tracked. */
  ghost predicate Tracked(st: WatcherState) {
    && (st.started <==> st.poller.Some?)
    && (forall c :: c in st.alive ==> st.popen == Some(c))
    && (forall c :: c in st.stopping ==> st.popen == Some(c) && !st.started)
  }

  /** The asynchronous stop of a started watcher whose child is alive. */
  predicate Drops(st: WatcherState, e: Event) {
    e.AsyncStop? && st.started && st.popen.Some? && st.popen.value in st.alive
  }

  /** A step keeps the child tracked exactly if it is not such a stop. */
  lemma StepKeepsTracked(st: WatcherState, e: Event)
    requires Tracked(st) && Enabled(st, e)
    ensures Tracked(Step(st, e)) <==> !Drops(st, e)
  {
    var n := Step(st, e);
    if Drops(st, e) {
      assert st.popen.value in n.alive && n.popen.None?;
    } else {
      forall c | c in n.alive ensures n.popen == Some(c) {
        assert c in st.alive ==> st.popen == Some(c);
      }
    }
  }

  /** After it, any start that launches leaves two children alive. */
  lemma DropThenStart(st: WatcherState, e: Event, pid: Pid, g: Greenlet)
    requires Tracked(st) && Drops(st, e) && Enabled(Step(st, e), Start(pid, g, true))
    ensures Step(Step(st, e), Start(pid, g, true)).alive == {st.popen.value, pid} && pid != st.popen.value
  {
    assert st.alive == {st.popen.value};
  }

  ghost predicate IsRun(states: seq<WatcherState>, es: seq<Event>) {
    && |states| == |es| + 1 && states[0] == WatcherState(false, None, None, 0, {}, {}, {})
    && forall i :: 0 <= i < |es| ==> Enabled(states[i], es[i]) && states[i + 1] == Step(states[i], es[i])
  }

  lemma {:induction false} RunKeepsTracked(states: seq<WatcherState>, es: seq<Event>, n: nat)
    requires IsRun(states, es) && n <= |es| && forall i :: 0 <= i < n ==> !Drops(states[i], es[i])
    ensures Tracked(states[n])
  {
    if n > 0 {
      RunKeepsTracked(states, es, n - 1);
      StepKeepsTracked(states[n - 1], es[n - 1]);
    }
  }

  /** At most one child is alive as long as no asynchronous stop drops a living child. */
  lemma AtMostOneChild(states: seq<WatcherState>, es: seq<Event>, n: nat)
    requires IsRun(states, es) && n <= |es| && forall i :: 0 <= i < n ==> !Drops(states[i], es[i])
    ensures |states[n].alive| <= 1
  {
    RunKeepsTracked(states, es, n);
    if states[n].popen.Some? {
      assert states[n].alive <= {states[n].popen.value};
      SubsetIsSmaller(states[n].alive, {states[n].popen.value});
    } else {
      assert states[n].alive == {};
    }
  }

  lemma {:induction false} SubsetIsSmaller(a: set<Pid>, b: set<Pid>)
    requires a <= b
    ensures |a| <= |b|
  {
    if a != {} {
      var x :| x in a;
      SubsetIsSmaller(a - {x}, b - {x});
    }
  }

  /** An asynchronous stop followed by a start can leave two children alive. */
  lemma AsyncStopLeavesTwo()
    ensures exists states: seq<WatcherState>, es: seq<Event> :: IsRun(states, es) && states != []
              && states[|states| - 1].alive == {Pid(1), Pid(2)}
  {
    var es := [Start(Pid(1), Greenlet(1), true), AsyncStop, Start(Pid(2), Greenlet(2), true)];
    var s0 := WatcherState(false, None, None, 0, {}, {}, {});
    var s1 := Step(s0, es[0]);
    var s2 := Step(s1, es[1]);
    var s3 := Step(s2, es[2]);
    assert s3.alive == {Pid(1), Pid(2)};
    var states := [s0, s1, s2, s3];
    assert IsRun(states, es);
  }

  /** A poller that is not the current one, because its watcher was stopped or started again since, never becomes
      current again: when it wakes up, in any run, nothing changes but that it ends. */
  lemma {:induction false} OutdatedNeverActs(states: seq<WatcherState>, es: seq<Event>, i: nat, n: nat, g: Greenlet)
    requires IsRun(states, es) && i <= n <= |es|
    requires states[i].poller != Some(g) && forall k :: i <= k <= n ==> g in states[k].pollers
    ensures states[n].poller != Some(g)
    ensures n < |es| && es[n].Wakes? && es[n].g == g ==> states[n + 1] == states[n].(pollers := states[n].pollers - {g})
  {
    if i < n {
      OutdatedNeverActs(states, es, i, n - 1, g);
    }
  }

  /** In every run, also with asynchronous stops, a started watcher has exactly one current poller. */
  lemma {:induction false} RunKeepsPoller(states: seq<WatcherState>, es: seq<Event>, n: nat)
    requires IsRun(states, es) && n <= |es|
    ensures states[n].started <==> states[n].poller.Some?
  {
    if n > 0 { RunKeepsPoller(states, es, n - 1); }
  }

  // ---------- The watcher ----------

  class Watcher {
    const errorRestartInterval: int
    var started: bool
    var popen: Option<Pid>
    var pollGreenlet: Option<Greenlet>
    var autoRestartCount: nat
    ghost var alive: set<Pid>
    ghost var pollers: set<Greenlet>
    ghost var stopping: set<Pid>

    ghost function State(): WatcherState
      reads this
    {
      WatcherState(started, popen, pollGreenlet, autoRestartCount, alive, pollers, stopping)
    }

    constructor (interval: int)
      ensures State() == WatcherState(false, None, None, 0, {}, {}, {})
    {
      errorRestartInterval, started, popen, pollGreenlet, autoRestartCount := interval, false, None, None, 0;
      alive, pollers, stopping := {}, {}, {};
    }

    method LaunchProcess(pid: Pid)
      modifies this`popen, this`alive
      ensures State() == Launched(old(State()), pid)
    {
      popen := Some(pid);
      alive := alive + {pid};
    }

    /** Starts the watcher and its child; raises while another greenlet is stopping it, or if the launch fails. */
    method DoStart(pid: Pid, g: Greenlet, launches: bool) returns (raised: bool)
      modifies this
      ensures State() == Started(old(State()), pid, g, launches)
      ensures raised <==> !old(started) && (old(popen).Some? || !launches)
    {
      if started {
        return false;
      }
      if popen.Some? || !launches {
        return true;
      }
      LaunchProcess(pid);
      autoRestartCount := 0;
      started := true;
      pollGreenlet := Some(g);
      pollers := pollers + {g};
      return false;
    }

    /** `stop` up to the wait for the child; `waiting` is the child it waits for. */
    method BeginStop() returns (waiting: Option<Pid>)
      modifies this
      ensures State() == StopBegun(old(State()))
      ensures waiting == if old(started) then old(popen) else None
    {
      if !started {
        return None;
      }
      started := false;
      pollGreenlet := None;
      waiting := popen;
      if popen.Some? {
        stopping := stopping + {popen.value};
      }
    }

    /** `stop` after the wait: the child is gone, and is forgotten if it is still the tracked one. */
    method EndStop(pid: Pid)
      requires pid in stopping && pid !in alive
      modifies this
      ensures State() == StopEnded(old(State()), pid)
    {
      stopping := stopping - {pid};
      if popen == Some(pid) {
        popen := None;
      }
    }

    /** Stops the watcher and leaves the termination of the child to another greenlet. */
    method DoAsyncStop()
      modifies this
      ensures State() == AsyncStopped(old(State()))
    {
      if !started {
        return;
      }
      started := false;
      pollGreenlet := None;
      if popen.Some? {
        popen := None;
      }
    }

    /** One round of the polling greenlet `current`; `exited` is the answer of `poll`. It goes on unless `done`. */
    method Poll(current: Greenlet, pid: Pid, launches: bool, exited: bool) returns (done: bool)
      requires popen.Some? ==> (exited <==> popen.value !in alive)
      modifies this
      ensures State() == Woken(old(State()), current, pid, launches, errorRestartInterval > 0)
      ensures done ==> current !in pollers
    {
      if !started || pollGreenlet != Some(current) {
        pollers := pollers - {current};
        return true;
      }
      if popen.None? {
        autoRestartCount := autoRestartCount + 1;
        if launches {
          LaunchProcess(pid);
        }
      } else if exited {
        popen := None;
        if errorRestartInterval <= 0 {
          pollers := pollers - {current};
          return true;
        }
      }
      return false;
    }
  }
}
