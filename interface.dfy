/** The `BRLInterface` class: the lifecycle methods over the global slots,
    the wrapped streams, the line listeners, and `createInterface`. */
module Brl {
  import opened Objects
  import opened Slots
  import opened Lifecycle
  import opened Interceptor

  /** The process-wide objects `process` and `global`, seen through the
      three slots the interface takes over. */
  class Globals {
    var slots: map<Slot, Descriptor>

    constructor(slots: map<Slot, Descriptor>)
      ensures this.slots == slots
    {
      this.slots := slots;
    }
  }

  /** What the real streams and the line editor have put on the terminal. */
  class Terminal {
    var trace: seq<Event>

    constructor()
      ensures trace == []
    {
      trace := [];
    }
  }

  /** A listener of the line editor's 'line' event. */
  datatype LineListener = OnLineCallback(callback: Callback) | RePrompt

  /** A listener of the line editor's 'close' event. */
  datatype CloseListener = StopOnClose

  /** The line editor, reduced to its registered listeners. */
  class ReadLine {
    var lineListeners: seq<LineListener>
    var closeListeners: seq<CloseListener>

    constructor()
      ensures lineListeners == [] && closeListeners == []
    {
      lineListeners := [];
      closeListeners := [];
    }
  }

  /** `Object.create(writable)` with its own `write`: a new object distinct
      from the stream it delegates to. */
  function WrapWritable(writable: Obj): Obj {
    Delegate(writable)
  }

  class Interface {
    const globals: Globals
    const terminal: Terminal
    const readline: ReadLine

    const stdout: Obj
    const stderr: Obj
    /** The value of `global.console` when the interface was built; the
        constructor requires that the slot can give it. */
    const console: Obj

    const wrappedStdout: Obj
    const wrappedStderr: Obj
    const wrappedConsole: Obj

    var state: InterfaceState

    var stdoutPD: Option<Descriptor>
    var stderrPD: Option<Descriptor>
    var consolePD: Option<Descriptor>

    /** The base and wrapped object of each slot, the `cases` of `start`. */
    function Bound(): Bindings {
      Bindings(Pair(stdout, wrappedStdout), Pair(stderr, wrappedStderr), Pair(console, wrappedConsole))
    }

    ghost function Snapshot(): Machine
      reads this, globals
    {
      Machine(state, globals.slots, SavedDescriptors(stdoutPD, stderrPD, consolePD))
    }

    ghost predicate Valid()
      reads this, globals
    {
      WellFormed(Snapshot(), Bound())
    }

    constructor(globals: Globals, terminal: Terminal, stdout: Obj, stderr: Obj, console: Obj)
      requires HasSlots(globals.slots)
      requires CanRead(globals.slots[GlobalConsole], console)
      ensures Valid() && state == Stopped
      ensures this.globals == globals && this.terminal == terminal
      ensures this.stdout == stdout && this.stderr == stderr && this.console == console
      ensures wrappedStdout == WrapWritable(stdout) && wrappedStderr == WrapWritable(stderr)
      ensures wrappedConsole == ConsoleOver(wrappedStdout, wrappedStderr)
      ensures fresh(readline) && readline.lineListeners == [] && readline.closeListeners == []
      ensures stdoutPD == None && stderrPD == None && consolePD == None
    {
      this.globals := globals;
      this.terminal := terminal;
      this.stdout := stdout;
      this.stderr := stderr;
      this.console := console;
      readline := new ReadLine();
      wrappedStdout := WrapWritable(stdout);
      wrappedStderr := WrapWritable(stderr);
      wrappedConsole := ConsoleOver(WrapWritable(stdout), WrapWritable(stderr));
      state := Stopped;
      stdoutPD, stderrPD, consolePD := None, None, None;
    }

    /** The `write` of a wrapped stream: clear the line, forward the call to
        the real stream, redraw the prompt, and return what the real
        stream's write returned (`accepted`). */
    method WrappedWrite(writable: Obj, call: WriteCall, accepted: bool) returns (result: bool)
      modifies terminal`trace
      ensures terminal.trace == old(terminal.trace) + WrappedWriteEvents(writable, call)
      ensures result == accepted
    {
      terminal.trace := terminal.trace + [Written(writable, Plain(ClearLine))];
      terminal.trace := terminal.trace + [Written(writable, call)];
      result := accepted;
      terminal.trace := terminal.trace + [Refreshed];
    }

    /** `target.write(...)` on a stream object: the wrapped streams use their
        own write, every other stream its own. A console built over two
        streams (`ConsoleOver`), such as the wrapped console, has no `write`,
        so it is not a target. */
    method WriteTo(target: Obj, call: WriteCall, accepted: bool) returns (result: bool)
      requires !target.ConsoleOver?
      modifies terminal`trace
      ensures target == wrappedStdout ==>
                terminal.trace == old(terminal.trace) + WrappedWriteEvents(stdout, call)
      ensures target == wrappedStderr && target != wrappedStdout ==>
                terminal.trace == old(terminal.trace) + WrappedWriteEvents(stderr, call)
      ensures target != wrappedStdout && target != wrappedStderr ==>
                terminal.trace == old(terminal.trace) + [Written(target, call)]
      ensures result == accepted
    {
      if target == wrappedStdout {
        result := WrappedWrite(stdout, call, accepted);
      } else if target == wrappedStderr {
        result := WrappedWrite(stderr, call, accepted);
      } else {
        terminal.trace := terminal.trace + [Written(target, call)];
        result := accepted;
      }
    }

    /** `onLine`: register one more 'line' listener, keeping the earlier ones. */
    method OnLine(cb: Callback)
      modifies readline`lineListeners
      ensures readline.lineListeners == old(readline.lineListeners) + [OnLineCallback(cb)]
    {
      readline.lineListeners := readline.lineListeners + [OnLineCallback(cb)];
    }

    /** `prompt`: the line editor shows the prompt. */
    method Prompt()
      modifies terminal`trace
      ensures terminal.trace == old(terminal.trace) + [Prompted]
    {
      terminal.trace := terminal.trace + [Prompted];
    }

    /** The getter `start` installs on a slot, read while it is installed:
        the state is consulted at each read. */
    method Get(slot: Slot) returns (value: Obj)
      requires Valid() && state != Stopped
      ensures state == Paused ==> value == Bound().For(slot).base
      ensures state == Started ==> value == Bound().For(slot).wrapped
    {
      var d := globals.slots[slot];
      value := Resolve(d.base, d.wrapped, state);
    }

    /** The body of `start` past its assertion: save the three descriptors,
        then install the getters in the order of `cases`. */
    method Activate()
      requires Valid() && state == Stopped
      modifies this`stdoutPD, this`stderrPD, this`consolePD, globals`slots
      ensures globals.slots == Install(old(globals.slots), Cases(Bound()))
      ensures SavedDescriptors(stdoutPD, stderrPD, consolePD) == Capture(old(globals.slots))
      ensures InstalledAll(globals.slots, Bound()) && HasSlots(globals.slots)
    {
      stdoutPD := Some(globals.slots[ProcessStdout]);
      stderrPD := Some(globals.slots[ProcessStderr]);
      consolePD := Some(globals.slots[GlobalConsole]);
      ghost var g0 := old(globals.slots);
      var cases := Cases(Bound());
      for i := 0 to |cases|
        modifies globals`slots
        invariant globals.slots == Install(g0, cases[..i])
      {
        var c := cases[i];
        InstallExtend(g0, cases, i);
        globals.slots := globals.slots[c.slot := Getter(c.pair)];
      }
      assert cases[..|cases|] == cases;
      InstallManages(g0, Bound());
    }

    /** `start`: legal only when stopped; saves the descriptors and installs
        the getters, then marks the interface started. */
    method Start() returns (r: Outcome)
      requires Valid()
      modifies this`state, this`stdoutPD, this`stderrPD, this`consolePD, globals`slots
      ensures Valid()
      ensures r.Pass? <==> old(state) == Stopped
      ensures r.Pass? ==> state == Started
      ensures old(Apply(Snapshot(), Op.Start, Bound())) == Step(r, Snapshot())
      ensures r.Fail? ==> unchanged(this, globals)
    {
      if state != Stopped {
        return Fail(Message(Op.Start));
      }
      Activate();
      state := Started;
      r := Pass;
    }

    /** `pause`: legal only when started; turns the flag on and nothing else. */
    method Pause() returns (r: Outcome)
      requires Valid()
      modifies this`state
      ensures Valid()
      ensures r.Pass? <==> old(state) == Started
      ensures r.Pass? ==> state == Paused
      ensures old(Apply(Snapshot(), Op.Pause, Bound())) == Step(r, Snapshot())
      ensures r.Fail? ==> state == old(state)
    {
      if state != Started {
        return Fail(Message(Op.Pause));
      }
      state := Paused;
      r := Pass;
    }

    /** `resume`: legal only when paused; turns the flag off and nothing else. */
    method Resume() returns (r: Outcome)
      requires Valid()
      modifies this`state
      ensures Valid()
      ensures r.Pass? <==> old(state) == Paused
      ensures r.Pass? ==> state == Started
      ensures old(Apply(Snapshot(), Op.Resume, Bound())) == Step(r, Snapshot())
      ensures r.Fail? ==> state == old(state)
    {
      if state != Paused {
        return Fail(Message(Op.Resume));
      }
      state := Started;
      r := Pass;
    }

    /** `stop`: legal when started or paused; puts the saved descriptors back. */
    method Stop() returns (r: Outcome)
      requires Valid()
      modifies this`state, globals`slots
      ensures Valid()
      ensures r.Pass? <==> old(state) != Stopped
      ensures r.Pass? ==> state == Stopped
      ensures old(Apply(Snapshot(), Op.Stop, Bound())) == Step(r, Snapshot())
      ensures r.Fail? ==> unchanged(this, globals)
    {
      if state == Stopped {
        return Fail(Message(Op.Stop));
      }
      globals.slots := globals.slots[ProcessStdout := stdoutPD.value];
      globals.slots := globals.slots[ProcessStderr := stderrPD.value];
      globals.slots := globals.slots[GlobalConsole := consolePD.value];
      state := Stopped;
      r := Pass;
    }

    /** `promptLoop`: register the callback if any and the re-prompting
        listener, start unless already started, then prompt. From a paused
        interface `start`'s assertion fails after the listeners are added. */
    method PromptLoop(cb: Option<Callback>) returns (r: Outcome)
      requires Valid()
      modifies this`state, this`stdoutPD, this`stderrPD, this`consolePD, globals`slots
      modifies readline`lineListeners, terminal`trace
      ensures Valid()
      ensures readline.lineListeners ==
                old(readline.lineListeners) + (if cb.Some? then [OnLineCallback(cb.value)] else []) + [RePrompt]
      ensures r.Pass? <==> old(state) != Paused
      ensures r.Pass? ==> state == Started && terminal.trace == old(terminal.trace) + [Prompted]
      ensures old(state) == Stopped ==> Snapshot() == old(Apply(Snapshot(), Op.Start, Bound())).next
      ensures old(state) != Stopped ==> Snapshot() == old(Snapshot())
      ensures r.Fail? ==> r == Fail(Message(Op.Start)) && terminal.trace == old(terminal.trace)
    {
      if cb.Some? {
        OnLine(cb.value);
      }
      readline.lineListeners := readline.lineListeners + [RePrompt];
      if state != Started {
        r := Start();
        if r.Fail? {
          return;
        }
      } else {
        r := Pass;
      }
      Prompt();
    }
  }

  /** `createInterface`: build an interface over `output` and `stderr`
      (the value of `process.stderr` at the call), start it, and stop it
      when the line editor closes. */
  method CreateInterface(globals: Globals, terminal: Terminal, output: Obj, stderr: Obj, console: Obj)
    returns (iface: Interface)
    requires HasSlots(globals.slots)
    requires CanRead(globals.slots[ProcessStderr], stderr) && CanRead(globals.slots[GlobalConsole], console)
    modifies globals`slots
    ensures fresh(iface) && fresh(iface.readline)
    ensures iface.globals == globals && iface.terminal == terminal
    ensures iface.stdout == output && iface.stderr == stderr && iface.console == console
    ensures iface.Valid() && iface.state == Started
    ensures iface.wrappedStdout == WrapWritable(output) && iface.wrappedStderr == WrapWritable(stderr)
    ensures iface.wrappedConsole == ConsoleOver(iface.wrappedStdout, iface.wrappedStderr)
    ensures globals.slots == Install(old(globals.slots), Cases(iface.Bound()))
    ensures SavedDescriptors(iface.stdoutPD, iface.stderrPD, iface.consolePD) == Capture(old(globals.slots))
    ensures iface.readline.lineListeners == [] && iface.readline.closeListeners == [StopOnClose]
  {
    iface := new Interface(globals, terminal, output, stderr, console);
    var started := iface.Start();
    assert started == Pass;
    iface.readline.closeListeners := iface.readline.closeListeners + [StopOnClose];
  }

  /** Start, write while started, pause, write while paused, resume, stop:
      the terminal sees one wrapped write then one plain write, and the
      slots end as they began. */
  method ScenarioStartPauseStop()
  {
    var original := map[ProcessStdout := Accessor(1), ProcessStderr := Accessor(2), GlobalConsole := Value(Host(3))];
    var globals := new Globals(original);
    var terminal := new Terminal();
    var iface := new Interface(globals, terminal, Host(1), Host(2), Host(3));

    var r := iface.Start();
    assert r == Pass;
    var out := iface.Get(ProcessStdout);
    assert out == Delegate(Host(1));
    var accepted := iface.WriteTo(out, Plain("hello"), true);
    assert accepted;
    assert terminal.trace == [Written(Host(1), Plain(ClearLine)), Written(Host(1), Plain("hello")), Refreshed];

    r := iface.Pause();
    assert r == Pass;
    out := iface.Get(ProcessStdout);
    assert out == Host(1);
    accepted := iface.WriteTo(out, WriteCall("bye", Some(Function(7)), None), false);
    assert !accepted;
    assert terminal.trace[3..] == [Written(Host(1), WriteCall("bye", Some(Function(7)), None))];

    r := iface.Resume();
    assert r == Pass;
    r := iface.Stop();
    assert r == Pass;
    RestoreAfterInstall(original, iface.Bound());
    assert globals.slots == original;
  }

  /** `stop` before any `start` fails and leaves the slots alone; a second
      `start` fails and leaves the interface started. */
  method ScenarioStopBeforeStart()
  {
    var original := map[ProcessStdout := Value(Host(1)), ProcessStderr := Value(Host(2)), GlobalConsole := Value(Host(3))];
    var globals := new Globals(original);
    var terminal := new Terminal();
    var iface := new Interface(globals, terminal, Host(1), Host(2), Host(3));

    var r := iface.Stop();
    assert r == Fail("interface already stopped") && globals.slots == original;
    r := iface.Resume();
    assert r == Fail("interface not paused");
    r := iface.Start();
    r := iface.Start();
    assert r == Fail("interface already started") && iface.state == Started;
  }

  /** `promptLoop` on a paused interface registers its listeners and then
      fails `start`'s assertion. */
  method ScenarioPromptLoopWhilePaused()
  {
    var original := map[ProcessStdout := Value(Host(1)), ProcessStderr := Value(Host(2)), GlobalConsole := Value(Host(3))];
    var globals := new Globals(original);
    var terminal := new Terminal();
    var iface := new Interface(globals, terminal, Host(1), Host(2), Host(3));

    var r := iface.Start();
    r := iface.Pause();
    assert iface.state == Paused;
    r := iface.PromptLoop(Some(5));
    assert r == Fail("interface already started");
    assert iface.readline.lineListeners == [OnLineCallback(5), RePrompt];
    assert iface.state == Paused;
  }

  /** A client of `createInterface`: `global.console` holds the getter
      whose started value is the console over the wrappers of the given
      output and of `stderr`. */
  method ScenarioCreateReads(globals: Globals, terminal: Terminal)
    requires HasSlots(globals.slots)
    requires CanRead(globals.slots[ProcessStderr], Host(2)) && CanRead(globals.slots[GlobalConsole], Host(3))
    modifies globals
  {
    var iface := CreateInterface(globals, terminal, Host(4), Host(2), Host(3));
    assert iface.Bound().For(GlobalConsole).wrapped == ConsoleOver(Delegate(Host(4)), Delegate(Host(2)));
    assert globals.slots[GlobalConsole] == Managed(Host(3), ConsoleOver(Delegate(Host(4)), Delegate(Host(2))));
  }

  /** A client of `createInterface`: the close listener's `stop` puts the
      slots back as they were. */
  method ScenarioCreateThenClose()
  {
    var original := map[ProcessStdout := Accessor(1), ProcessStderr := Accessor(2), GlobalConsole := Value(Host(3))];
    var globals := new Globals(original);
    var terminal := new Terminal();
    var iface := CreateInterface(globals, terminal, Host(4), Host(2), Host(3));
    assert iface.readline.closeListeners[0] == StopOnClose;
    var r := iface.Stop();
    assert r == Pass;
    RestoreAfterInstall(original, iface.Bound());
    assert globals.slots == original;
  }

  /** A paused interface's `console` is the one `global.console` held when
      the interface was built, before `start` replaced it. */
  method ScenarioPausedConsole()
  {
    var original := map[ProcessStdout := Value(Host(1)), ProcessStderr := Value(Host(2)), GlobalConsole := Value(Host(3))];
    var globals := new Globals(original);
    var terminal := new Terminal();
    var iface := new Interface(globals, terminal, Host(1), Host(2), Host(3));
    var r := iface.Start();
    r := iface.Pause();
    var con := iface.Get(GlobalConsole);
    assert con == original[GlobalConsole].value;
  }
}
