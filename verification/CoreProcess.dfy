/** The objects that run the core process, each step of which is one of the supervisor's. */
module CoreProcess {
  import opened Options
  import opened Supervisor

  class CoreProcessImpl {
    const command: Command
    var expectingExit: bool
    /** How often the process was told to terminate. */
    var terminations: nat

    ghost predicate Valid()
      reads this
    {
      terminations == if expectingExit then 1 else 0
    }

    constructor (command: Command)
      ensures Valid() && this.command == command && !expectingExit
    {
      this.command, expectingExit, terminations := command, false, 0;
    }

    /** The process is told to terminate; a second request is ignored. */
    method Shutdown()
      requires Valid()
      modifies this
      ensures Valid() && expectingExit
      ensures terminations == old(terminations) + if old(expectingExit) then 0 else 1
    {
      if expectingExit { return; }
      expectingExit := true;
      terminations := terminations + 1;
    }
  }

  class CoreProcess {
    var impl: CoreProcessImpl?
    var nextCommand: Option<Command>
    var lastCommand: Option<Command>
    var retry: Option<Command>
    var mode: Mode
    var serverId: int
    var disabled: bool
    /** Processes that exist, and that ever existed. */
    ghost var children: nat
    ghost var spawned: nat

    /** A child has been told to terminate exactly if its exit is expected. */
    ghost predicate Valid()
      reads this, impl
    {
      impl != null ==> impl.Valid()
    }

    ghost function Now(): State
      reads this, impl
    {
      State(if impl == null then None else Some(Child(impl.command, impl.expectingExit)),
            nextCommand, lastCommand, retry, mode, serverId, disabled, children, spawned)
    }

    constructor ()
      ensures Valid() && Now() == Initial() && Sound(Now()) && impl == null
    {
      impl, nextCommand, lastCommand, retry := null, None, None, None;
      mode, serverId, disabled := Unknown, -1, false;
      children, spawned := 0, 0;
    }

    method Shutdown()
      requires Valid()
      modifies impl
      ensures Valid() && Now() == OnShutdown(old(Now()))
    {
      if impl == null { return; }
      impl.Shutdown();
    }

    /** `start`, with the state left behind if the process cannot be started. */
    method StartCommand(command: Command, spawns: bool)
      requires Valid()
      modifies this, impl
      ensures Valid() && Now() == Start(old(Now()), command, spawns)
      ensures impl == null || impl == old(impl) || fresh(impl)
    {
      if disabled { return; }
      retry := None;
      if impl != null {
        nextCommand := Some(command);
        Shutdown();
        return;
      }
      lastCommand := Some(command);
      impl := new CoreProcessImpl(command);
      if spawns {
        children, spawned := children + 1, spawned + 1;
      } else {
        impl := null;
      }
    }

    method StartServer(local: int, settings: nat, spawns: bool)
      requires Valid()
      modifies this, impl
      ensures Valid() && Now() == Step(old(Now()), Event.StartServer(local, settings, spawns))
      ensures impl == null || impl == old(impl) || fresh(impl)
    {
      if disabled { return; }
      mode, serverId := Server, local;
      StartCommand(Command(Server, settings), spawns);
    }

    method StartClient(server: int, settings: nat, spawns: bool)
      requires Valid()
      modifies this, impl
      ensures Valid() && Now() == Step(old(Now()), Event.StartClient(server, settings, spawns))
      ensures impl == null || impl == old(impl) || fresh(impl)
    {
      if disabled { return; }
      mode, serverId := Client, server;
      StartCommand(Command(Client, settings), spawns);
    }

    /** The handlers of `expectedExit` and `unexpectedExit`. */
    method Exited()
      requires Valid() && Enabled(Now(), Exit)
      modifies this, impl
      ensures Valid() && Now() == Step(old(Now()), Exit)
      ensures impl == null || fresh(impl)
    {
      var expected := impl.expectingExit;
      impl := null;
      children := children - 1;
      if expected {
        if nextCommand.Some? {
          var command := nextCommand.value;
          nextCommand := None;
          StartCommand(command, true);
        }
      } else if lastCommand.Some? {
        retry, lastCommand := lastCommand, None;
      }
    }

    /** The retry timer runs out. */
    method TimedOut()
      requires Valid() && Enabled(Now(), Timeout)
      modifies this, impl
      ensures Valid() && Now() == Step(old(Now()), Timeout)
      ensures impl == null || impl == old(impl) || fresh(impl)
    {
      var command := retry.value;
      retry := None;
      StartCommand(command, true);
    }

    method SetDisabled(disabled: bool)
      requires Valid()
      modifies this
      ensures Valid() && Now() == Step(old(Now()), Event.SetDisabled(disabled)) && impl == old(impl)
    {
      this.disabled := disabled;
    }
  }

  class CoreManager {
    const process: CoreProcess
    /** Where the server proxy was last pointed at. */
    var proxy: Option<int>

    ghost function Now(): Managed
      reads this, process, process.impl
    {
      Managed(process.Now(), proxy)
    }

    constructor ()
      ensures fresh(process) && process.Valid() && Now() == Managed(Initial(), None)
    {
      process := new CoreProcess();
      proxy := None;
    }

    method Pause()
      requires process.Valid()
      modifies process, process.impl
      ensures process.Valid() && Now() == old(Now()).(process := Supervisor.Pause(old(Now()).process))
    {
      process.SetDisabled(true);
      process.Shutdown();
    }

    method Restart(local: int, settings: nat, spawns: bool) returns (ok: bool)
      requires process.Valid()
      modifies process, process.impl
      ensures process.Valid()
      ensures Now() == old(Now()).(process := Supervisor.Restart(old(Now()).process, local, settings, spawns))
      ensures ok == (old(process.mode) != Unknown)
    {
      if process.mode == Unknown { return false; }
      if process.mode == Server {
        process.StartServer(local, settings, spawns);
      } else {
        process.StartClient(process.serverId, settings, spawns);
      }
      ok := true;
    }

    method Resume(local: int, settings: nat, spawns: bool)
      requires process.Valid()
      modifies process, process.impl
      ensures process.Valid()
      ensures Now() == old(Now()).(process := Supervisor.Resume(old(Now()).process, local, settings, spawns))
    {
      process.SetDisabled(false);
      var ok := Restart(local, settings, spawns);
    }

    method SwitchServer(local: int, server: int, settings: nat, spawns: bool)
      requires process.Valid()
      modifies this, process, process.impl
      ensures process.Valid() && Now() == Switch(old(Now()), local, server, settings, spawns)
    {
      match process.mode {
        case Server =>
          if local != server {
            proxy := Some(server);
            process.StartClient(server, settings, spawns);
          }
        case _ =>
          if local == server {
            process.StartServer(local, settings, spawns);
          } else {
            proxy := Some(server);
            process.StartClient(server, settings, spawns);
          }
      }
    }
  }
}
