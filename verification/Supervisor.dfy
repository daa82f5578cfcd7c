/** How the core process is run: started, replaced, retried after a crash, disabled. */
module Supervisor {
  import opened Options

  datatype Mode = Unknown | Server | Client

  /** A command line: what it runs, and the settings it was made with. */
  datatype Command = Command(mode: Mode, settings: nat)

  /** A process that was started, and whether it was told to end. */
  datatype Child = Child(command: Command, expectingExit: bool)

  /** `next` waits for the child to end, `retry` for the timer; `last` is what was
      started last.  `children` counts the processes that exist, `spawned` all there ever were. */
  datatype State = State(
    child: Option<Child>, next: Option<Command>, last: Option<Command>, retry: Option<Command>,
    mode: Mode, serverId: int, disabled: bool,
    children: nat, spawned: nat)

  /** `spawns` is false where the system cannot start the process. */
  datatype Event =
    | StartServer(local: int, settings: nat, spawns: bool)
    | StartClient(server: int, settings: nat, spawns: bool)
    | Shutdown
    | SetDisabled(disabled: bool)
    | Exit
    | Timeout

  // ---- Steps ----

  function OnShutdown(s: State): State {
    if s.child.Some? then s.(child := Some(s.child.value.(expectingExit := true))) else s
  }

  /** A running child is told to end first. */
  function Start(s: State, command: Command, spawns: bool): State {
    if s.disabled then s
    else if s.child.Some? then OnShutdown(s.(retry := None, next := Some(command)))
    else
      var t := s.(retry := None, last := Some(command));
      if spawns then
        t.(child := Some(Child(command, false)), children := s.children + 1, spawned := s.spawned + 1)
      else t
  }

  function OnStart(s: State, mode: Mode, server: int, settings: nat, spawns: bool): State {
    if s.disabled then s
    else Start(s.(mode := mode, serverId := server), Command(mode, settings), spawns)
  }

  /** An exit that was asked for brings on the next command, any other a retry. */
  function OnExit(s: State): State
    requires s.child.Some? && s.children > 0
  {
    var t := s.(child := None, children := s.children - 1);
    if s.child.value.expectingExit then
      if s.next.Some? then Start(t.(next := None), s.next.value, true) else t
    else if s.last.Some? then t.(last := None, retry := s.last)
    else t
  }

  function OnTimeout(s: State): State
    requires s.retry.Some?
  {
    Start(s.(retry := None), s.retry.value, true)
  }

  predicate Enabled(s: State, e: Event) {
    match e
    case Exit => s.child.Some? && s.children > 0
    case Timeout => s.retry.Some?
    case _ => true
  }

  function Step(s: State, e: Event): State
    requires Enabled(s, e)
  {
    match e
    case StartServer(local, settings, spawns) => OnStart(s, Server, local, settings, spawns)
    case StartClient(server, settings, spawns) => OnStart(s, Client, server, settings, spawns)
    case Shutdown => OnShutdown(s)
    case SetDisabled(disabled) => s.(disabled := disabled)
    case Exit => OnExit(s)
    case Timeout => OnTimeout(s)
  }

  function Initial(): State {
    State(None, None, None, None, Unknown, -1, false, 0, 0)
  }

  // ---- What every run keeps ----

  /** The command that runs, or that will once the child has ended or the timer has. */
  function Due(s: State): Option<Command> {
    if s.next.Some? then s.next
    else if s.child.Some? && !s.child.value.expectingExit then Some(s.child.value.command)
    else s.retry
  }

  ghost predicate Sound(s: State) {
    && s.children == (if s.child.Some? then 1 else 0)
    && (s.next.Some? ==> s.child.Some? && s.child.value.expectingExit)
    && (s.retry.Some? ==> s.child.None? && s.next.None?)
    && (s.child.Some? ==> s.last == Some(s.child.value.command))
    && (Due(s).Some? ==> Due(s).value.mode == s.mode && s.mode != Unknown)
  }

  lemma StepKeepsSound(s: State, e: Event)
    requires Sound(s) && Enabled(s, e)
    ensures Sound(Step(s, e))
    ensures s.disabled ==> Step(s, e).spawned == s.spawned
  {
  }

  predicate IsRun(s: State, events: seq<Event>)
    decreases |events|
  {
    events == [] || (Enabled(s, events[0]) && IsRun(Step(s, events[0]), events[1..]))
  }

  function Run(s: State, events: seq<Event>): State
    requires IsRun(s, events)
    decreases |events|
  {
    if events == [] then s else Run(Step(s, events[0]), events[1..])
  }

  /** There is at most one child; a next command waits for one that is ending, a retry
      for none; and what is due is of the recorded mode. */
  lemma {:induction false} RunsAreSound(s: State, events: seq<Event>)
    requires Sound(s) && IsRun(s, events)
    ensures Sound(Run(s, events))
    decreases |events|
  {
    if events != [] {
      StepKeepsSound(s, events[0]);
      RunsAreSound(Step(s, events[0]), events[1..]);
    }
  }

  /** So it is in every run from the start. */
  lemma RunsFromStartAreSound(events: seq<Event>)
    requires IsRun(Initial(), events)
    ensures Sound(Run(Initial(), events))
    ensures Run(Initial(), events).children <= 1
  {
    RunsAreSound(Initial(), events);
  }

  // ---- What is due was asked for last ----

  /** The command of a request, unless it is turned down. */
  function Request(s: State, e: Event): Option<Command> {
    if s.disabled then None
    else
      match e
      case StartServer(_, settings, _) => Some(Command(Server, settings))
      case StartClient(_, settings, _) => Some(Command(Client, settings))
      case _ => None
  }

  /** The last request in the events that was not turned down. */
  function LastRequest(s: State, events: seq<Event>): Option<Command>
    requires IsRun(s, events)
    decreases |events|
  {
    if events == [] then None
    else
      var later := LastRequest(Step(s, events[0]), events[1..]);
      if later.Some? then later else Request(s, events[0])
  }

  /** A step makes due what it requests, unless the process does not come up, and
      otherwise leaves due what was, unless it is shut down while it runs or its turn
      comes while disabled. */
  lemma DueAfterStep(s: State, e: Event)
    requires Sound(s) && Enabled(s, e)
    ensures
      var lost :=
        if Request(s, e).Some? then s.child.None? && !e.spawns
        else if e.Shutdown? then s.child.Some? && s.next.None?
        else if e.Exit? then s.child.value.expectingExit && s.disabled
        else e.Timeout? && s.disabled;
      Due(Step(s, e)) == if lost then None else if Request(s, e).Some? then Request(s, e) else Due(s)
  {
  }

  /** The command running or due to run is the last one requested. */
  lemma {:induction false} DueIsLastRequest(s: State, events: seq<Event>)
    requires Sound(s) && IsRun(s, events) && Due(Run(s, events)).Some?
    ensures Due(Run(s, events)) == if LastRequest(s, events).Some? then LastRequest(s, events) else Due(s)
    decreases |events|
  {
    if events != [] {
      var e, rest := events[0], events[1..];
      DueAfterStep(s, e);
      StepKeepsSound(s, e);
      DueIsLastRequest(Step(s, e), rest);
    }
  }

  /** From the start, nothing is ever due that was not asked for. */
  lemma DueWasRequested(events: seq<Event>)
    requires IsRun(Initial(), events) && Due(Run(Initial(), events)).Some?
    ensures Due(Run(Initial(), events)) == LastRequest(Initial(), events)
  {
    DueIsLastRequest(Initial(), events);
  }

  /** Unless disabled, what is due runs after one event at most. */
  lemma DueGetsToRun(s: State)
    requires Sound(s) && Due(s).Some? && !s.disabled
    ensures
      var running := Some(Child(Due(s).value, false));
      || s.child == running
      || (Enabled(s, Exit) && OnExit(s).child == running)
      || (Enabled(s, Timeout) && OnTimeout(s).child == running)
  {
  }

  // ---- Shutting down ----

  /** Nothing is asked for: the child may end and the timer run out. */
  predicate Quiet(events: seq<Event>) {
    forall e :: e in events ==> e in {Exit, Timeout, Shutdown}
  }

  lemma {:induction false} NothingDueNothingSpawned(s: State, events: seq<Event>)
    requires Sound(s) && IsRun(s, events) && Quiet(events) && (s.disabled || Due(s).None?)
    ensures Run(s, events).spawned == s.spawned
    decreases |events|
  {
    if events != [] {
      var e, rest := events[0], events[1..];
      assert e in events && forall x :: x in rest ==> x in events;
      StepKeepsSound(s, e);
      DueAfterStep(s, e);
      NothingDueNothingSpawned(Step(s, e), rest);
    }
  }

  /** After a shutdown nothing is started that was not asked for again, exactly if the
      process is disabled or nothing was waiting: neither a pending retry nor a pending
      replacement is called off. */
  lemma ShutdownIsFinalExactly(s: State)
    requires Sound(s)
    ensures
      var t := OnShutdown(s);
      (forall events :: IsRun(t, events) && Quiet(events) ==> Run(t, events).spawned == t.spawned)
      <==> s.disabled || (s.next.None? && s.retry.None?)
  {
    var t := OnShutdown(s);
    StepKeepsSound(s, Shutdown);
    DueAfterStep(s, Shutdown);
    if s.disabled || (s.next.None? && s.retry.None?) {
      forall events | IsRun(t, events) && Quiet(events) ensures Run(t, events).spawned == t.spawned {
        NothingDueNothingSpawned(t, events);
      }
    } else {
      var e := if s.next.Some? then Exit else Timeout;
      assert [e][1..] == [] && IsRun(Step(t, e), []);
      assert IsRun(t, [e]) && Run(t, [e]) == Step(t, e);
      assert Quiet([e]);
    }
  }

  lemma RunOfTwo(s: State, a: Event, b: Event, t: State, u: State)
    requires Enabled(s, a) && Step(s, a) == t && Enabled(t, b) && Step(t, b) == u
    ensures IsRun(s, [a, b]) && Run(s, [a, b]) == u
  {
    assert [a, b][1..] == [b] && [b][1..] == [];
    assert IsRun(u, []) && IsRun(t, [b]) && Run(t, [b]) == u;
  }

  const SERVER := Command(Server, 0)
  const CLIENT := Command(Client, 0)
  const RUNNING := State(Some(Child(SERVER, false)), None, Some(SERVER), None, Server, 1, false, 1, 1)
  const CRASHED := State(None, None, None, Some(SERVER), Server, 1, false, 0, 1)
  const REPLACED := State(Some(Child(SERVER, true)), Some(CLIENT), Some(SERVER), None, Client, 2, false, 1, 1)

  /** The failing case is reached: a server that has crashed is started again in spite of a shutdown. */
  lemma RetryOutlivesShutdown()
    ensures IsRun(Initial(), [StartServer(1, 0, true), Exit])
    ensures Run(Initial(), [StartServer(1, 0, true), Exit]) == CRASHED
    ensures Step(OnShutdown(CRASHED), Timeout).child == Some(Child(SERVER, false))
  {
    RunOfTwo(Initial(), StartServer(1, 0, true), Exit, RUNNING, CRASHED);
  }

  /** So is the other one: a client asked for while a server ends is started in spite of a shutdown. */
  lemma ReplacementOutlivesShutdown()
    ensures
      var events := [StartServer(1, 0, true), StartClient(2, 0, true)];
      IsRun(Initial(), events) && Run(Initial(), events) == REPLACED
    ensures OnShutdown(REPLACED) == REPLACED && Step(REPLACED, Exit).child == Some(Child(CLIENT, false))
  {
    RunOfTwo(Initial(), StartServer(1, 0, true), StartClient(2, 0, true), RUNNING, REPLACED);
  }

  // ---- The manager ----

  function Pause(s: State): State {
    OnShutdown(s.(disabled := true))
  }

  function Restart(s: State, local: int, settings: nat, spawns: bool): State {
    match s.mode
    case Unknown => s
    case Server => OnStart(s, Server, local, settings, spawns)
    case Client => OnStart(s, Client, s.serverId, settings, spawns)
  }

  function Resume(s: State, local: int, settings: nat, spawns: bool): State {
    Restart(s.(disabled := false), local, settings, spawns)
  }

  lemma {:induction false} QuietKeepsMode(s: State, events: seq<Event>)
    requires IsRun(s, events) && Quiet(events)
    ensures Run(s, events).mode == s.mode && Run(s, events).serverId == s.serverId
    ensures Run(s, events).disabled == s.disabled
    decreases |events|
  {
    if events != [] {
      assert events[0] in events && forall x :: x in events[1..] ==> x in events;
      QuietKeepsMode(Step(s, events[0]), events[1..]);
    }
  }

  /** Pausing and resuming, whatever exits and runs out in between, makes the same kind
      of process due for the same server, and nothing was started meanwhile. */
  lemma PauseThenResume(s: State, events: seq<Event>, local: int, settings: nat)
    requires Sound(s) && s.mode != Unknown && IsRun(Pause(s), events) && Quiet(events)
    ensures
      var paused := Run(Pause(s), events);
      var t := Resume(paused, local, settings, true);
      && paused.spawned == s.spawned
      && Sound(t) && Due(t) == Some(Command(s.mode, settings)) && t.mode == s.mode
      && t.serverId == if s.mode == Server then local else s.serverId
  {
    StepKeepsSound(s, SetDisabled(true));
    StepKeepsSound(s.(disabled := true), Shutdown);
    NothingDueNothingSpawned(Pause(s), events);
    RunsAreSound(Pause(s), events);
    QuietKeepsMode(Pause(s), events);
    var paused := Run(Pause(s), events);
    var back := paused.(disabled := false);
    StepKeepsSound(paused, SetDisabled(false));
    var e := if s.mode == Server then StartServer(local, settings, true) else StartClient(s.serverId, settings, true);
    StepKeepsSound(back, e);
    DueAfterStep(back, e);
  }

  lemma {:induction false} StaysDown(s: State, events: seq<Event>)
    requires Sound(s) && s.disabled && (s.child.Some? ==> s.child.value.expectingExit)
    requires IsRun(s, events) && Quiet(events)
    ensures
      var t := Run(s, events);
      t.disabled && (t.child.Some? ==> t.child.value.expectingExit && s.child.Some? && Exit !in events)
    decreases |events|
  {
    if events != [] {
      assert events[0] in events && forall x :: x in events[1..] ==> x in events;
      StepKeepsSound(s, events[0]);
      StaysDown(Step(s, events[0]), events[1..]);
    }
  }

  /** A paused process stays down: its child has been told to end, nothing takes the place
      of one that has ended, and requests are turned down. */
  lemma PauseEndsTheProcess(s: State, events: seq<Event>)
    requires Sound(s) && IsRun(Pause(s), events) && Quiet(events)
    ensures
      var t := Run(Pause(s), events);
      && t.disabled
      && (t.child.Some? ==> t.child.value.expectingExit && s.child.Some? && Exit !in events)
      && forall e: Event :: e.StartServer? || e.StartClient? ==> Step(t, e) == t
  {
    StepKeepsSound(s, SetDisabled(true));
    StepKeepsSound(s.(disabled := true), Shutdown);
    StaysDown(Pause(s), events);
  }

  /** Without a mode there has been no request, so nothing was ever started: pausing and
      resuming only turn the process off and on. */
  lemma {:induction false} NoModeNothingStarted(s: State, events: seq<Event>)
    requires Sound(s) && IsRun(s, events) && Run(s, events).mode == Unknown
    requires s.mode == Unknown ==> s.spawned == 0 && s.last.None?
    ensures s.mode == Unknown && Run(s, events).spawned == 0 && Due(Run(s, events)).None?
    ensures Run(s, events).child.None? && Run(s, events).last.None?
    decreases |events|
  {
    if events != [] {
      StepKeepsSound(s, events[0]);
      NoModeNothingStarted(Step(s, events[0]), events[1..]);
    }
  }

  lemma ResumeWithoutMode(events: seq<Event>, local: int, settings: nat, spawns: bool)
    requires IsRun(Initial(), events) && Run(Initial(), events).mode == Unknown
    ensures
      var s := Run(Initial(), events);
      && s.spawned == 0 && Pause(s) == s.(disabled := true)
      && Resume(s, local, settings, spawns) == s.(disabled := false)
  {
    NoModeNothingStarted(Initial(), events);
  }

  /** The process, and the server the proxy was last pointed at. */
  datatype Managed = Managed(process: State, proxy: Option<int>)

  function Follow(m: Managed, server: int, settings: nat, spawns: bool): Managed {
    Managed(OnStart(m.process, Client, server, settings, spawns), Some(server))
  }

  /** `switchServer` */
  function Switch(m: Managed, local: int, server: int, settings: nat, spawns: bool): Managed {
    if local == server then
      if m.process.mode == Server then m
      else m.(process := OnStart(m.process, Server, local, settings, spawns))
    else Follow(m, server, settings, spawns)
  }

  /** The own screen is claimed again and again, each time with other settings. */
  function Claims(m: Managed, local: int, claims: seq<(nat, bool)>): Managed {
    if claims == [] then m
    else
      var n := |claims| - 1;
      Switch(Claims(m, local, claims[..n]), local, local, claims[n].0, claims[n].1)
  }

  /** Once a server, claims of the own screen are ignored: the child, whether it is to end,
      what is pending and what was ever started stay as they are. */
  lemma {:induction false} ServerIgnoresClaims(m: Managed, local: int, claims: seq<(nat, bool)>)
    requires m.process.mode == Server
    ensures Claims(m, local, claims) == m
  {
    if claims != [] { ServerIgnoresClaims(m, local, claims[..|claims| - 1]); }
  }

  /** Switching to this screen twice is switching to it once, and so is claiming it any number of times more. */
  lemma SwitchingTwiceIsOnce(m: Managed, local: int, settings: nat, spawns: bool, claims: seq<(nat, bool)>)
    ensures
      var once := Switch(m, local, local, settings, spawns);
      && Claims(once, local, claims) == once
      && once.proxy == m.proxy
      && (once.process.mode == Server || (m.process.disabled && once == m))
  {
    var once := Switch(m, local, local, settings, spawns);
    if once.process.mode == Server {
      ServerIgnoresClaims(once, local, claims);
    } else {
      DisabledIgnoresClaims(m, local, claims);
    }
  }

  lemma {:induction false} DisabledIgnoresClaims(m: Managed, local: int, claims: seq<(nat, bool)>)
    requires m.process.disabled
    ensures Claims(m, local, claims) == m
  {
    if claims != [] { DisabledIgnoresClaims(m, local, claims[..|claims| - 1]); }
  }

  /** A server is recorded as its own, with `local` the id of this screen. */
  predicate KnowsItself(s: State, local: int) {
    s.mode == Server ==> s.serverId == local
  }

  /** The mode and the server are the ones asked for, unless disabled: then they stay. */
  lemma SwitchFollows(m: Managed, local: int, server: int, settings: nat, spawns: bool)
    requires Sound(m.process) && KnowsItself(m.process, local)
    ensures
      var s, t := m.process, Switch(m, local, server, settings, spawns).process;
      && Sound(t) && KnowsItself(t, local)
      && (s.disabled || (s.mode == Server && local == server) ==> t == s)
      && Switch(m, local, server, settings, spawns).proxy == (if local == server then m.proxy else Some(server))
      && (!s.disabled ==> t.mode == (if local == server then Server else Client) && t.serverId == server)
      && (!s.disabled && (spawns || s.child.Some?) && !(s.mode == Server && local == server) ==>
            Due(t) == Some(Command(t.mode, settings)))
  {
    var s := m.process;
    var e := if local == server then StartServer(local, settings, spawns) else StartClient(server, settings, spawns);
    StepKeepsSound(s, e);
    DueAfterStep(s, e);
  }

  /** A client's proxy leads to its server. */
  predicate ProxyAgrees(m: Managed) {
    m.process.mode == Client ==> m.proxy == Some(m.process.serverId)
  }

  /** The proxy is pointed at the new server even if the client is disabled and stays
      with the old one, which is what resuming brings back. */
  lemma ProxyAgreesExactly(m: Managed, local: int, server: int, settings: nat, spawns: bool)
    requires ProxyAgrees(m)
    ensures
      var s := m.process;
      ProxyAgrees(Switch(m, local, server, settings, spawns)) <==>
        !s.disabled || s.mode != Client || server == local || server == s.serverId
    ensures
      var t := Switch(m, local, server, settings, spawns);
      !ProxyAgrees(t) ==> !ProxyAgrees(t.(process := Resume(t.process, local, settings, spawns)))
  {
  }

  /** The failing case is reached: a client of 2 is paused and switched to 3; resumed, it
      is a client of 2 again, behind a proxy that leads to 3. */
  lemma ResumedBehindTheWrongProxy(local: int, settings: nat)
    requires local != 2 && local != 3
    ensures
      var client := Switch(Managed(Initial(), None), local, 2, settings, true);
      var paused := client.(process := Pause(client.process));
      var switched := Switch(paused, local, 3, settings, true);
      var resumed := switched.(process := Resume(switched.process, local, settings, true));
      && ProxyAgrees(client) && ProxyAgrees(paused)
      && resumed.process.mode == Client && !resumed.process.disabled
      && resumed.process.serverId == 2 && resumed.proxy == Some(3)
  {
  }
}
