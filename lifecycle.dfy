/** The three-state lifecycle of the interface, as a pure specification: a
    snapshot of everything `start`, `pause`, `resume` and `stop` touch, the
    effect of each call on it, and what follows for whole call sequences. */
module Lifecycle {
  import opened Objects
  import opened Slots

  /** `InterfaceState`, in the source's declaration order. */
  datatype InterfaceState = Started | Paused | Stopped

  datatype Op = Start | Pause | Resume | Stop

  /** A lifecycle call either completes or throws the `assert` error with its message. */
  datatype Outcome = Pass | Fail(message: string)

  /** The interface's state, the global slots, and the saved descriptors. */
  datatype Machine = Machine(state: InterfaceState, globals: map<Slot, Descriptor>, saved: SavedDescriptors)

  /** What a call reports, and the snapshot it leaves behind. */
  datatype Step = Step(outcome: Outcome, next: Machine)

  /** The getter that `start` installs, evaluated against the state at the
      moment of the read. */
  function Resolve(base: Obj, wrapped: Obj, state: InterfaceState): Obj {
    if state == Paused then base else wrapped
  }

  /** The transition table: from which states each call is legal ... */
  predicate Allowed(s: InterfaceState, op: Op) {
    match op
    case Start => s == Stopped
    case Pause => s == Started
    case Resume => s == Paused
    case Stop => s == Started || s == Paused
  }

  /** ... and the state it leads to. */
  function Target(op: Op): InterfaceState {
    match op
    case Start => Started
    case Pause => Paused
    case Resume => Started
    case Stop => Stopped
  }

  /** The message of the assertion each call fails with. */
  function Message(op: Op): string {
    match op
    case Start => "interface already started"
    case Pause => "interface stopped or already paused"
    case Resume => "interface not paused"
    case Stop => "interface already stopped"
  }

  /** What holds of every snapshot the calls can produce: the slots exist,
      and while the interface is not stopped the descriptors are saved and
      every slot holds the interface's getter. */
  predicate WellFormed(m: Machine, b: Bindings) {
    HasSlots(m.globals) &&
    (m.state != Stopped ==> m.saved.Complete() && InstalledAll(m.globals, b))
  }

  /** One lifecycle call, branch for branch as the class's methods do it.
      The assertion comes before any change, so a failed call leaves the
      snapshot as it was. */
  function Apply(m: Machine, op: Op, b: Bindings): (r: Step)
    requires WellFormed(m, b)
    ensures r.outcome.Pass? <==> Allowed(m.state, op)
    ensures r.outcome.Fail? ==> r.outcome.message == Message(op) && r.next == m
    ensures r.outcome.Pass? ==> r.next.state == Target(op)
    ensures WellFormed(r.next, b)
    ensures r.outcome.Pass? && (op == Pause || op == Resume) ==> r.next.globals == m.globals && r.next.saved == m.saved
  {
    match op
    case Start =>
      if m.state != Stopped then Step(Fail(Message(Op.Start)), m)
      else
        InstallManages(m.globals, b);
        Step(Pass, Machine(Started, Install(m.globals, Cases(b)), Capture(m.globals)))
    case Pause =>
      if m.state != Started then Step(Fail(Message(Op.Pause)), m)
      else Step(Pass, m.(state := Paused))
    case Resume =>
      if m.state != Paused then Step(Fail(Message(Op.Resume)), m)
      else Step(Pass, m.(state := Started))
    case Stop =>
      if m.state == Stopped then Step(Fail(Message(Op.Stop)), m)
      else Step(Pass, m.(state := Stopped, globals := Restore(m.globals, m.saved)))
  }

  /** A sequence of calls; the first failing call ends it, leaving the
      snapshot it failed on. */
  function Run(m: Machine, ops: seq<Op>, b: Bindings): (r: Step)
    requires WellFormed(m, b)
    ensures WellFormed(r.next, b)
    ensures r.outcome.Fail? ==> exists i :: 0 <= i < |ops| && r.outcome.message == Message(ops[i])
    decreases |ops|
  {
    if ops == [] then Step(Pass, m)
    else
      var first := Apply(m, ops[0], b);
      if first.outcome.Fail? then first
      else
        var r := Run(first.next, ops[1..], b);
        assert r.outcome.Fail? ==> exists i :: 1 <= i < |ops| && r.outcome.message == Message(ops[i]) by {
          if r.outcome.Fail? {
            var j :| 0 <= j < |ops| - 1 && r.outcome.message == Message(ops[1..][j]);
            assert ops[1..][j] == ops[j + 1];
          }
        }
        r
  }

  lemma {:induction false} RunAppend(m: Machine, xs: seq<Op>, ys: seq<Op>, b: Bindings)
    requires WellFormed(m, b)
    ensures Run(m, xs + ys, b) == var mid := Run(m, xs, b);
                                  if mid.outcome.Fail? then mid else Run(mid.next, ys, b)
    decreases |xs|
  {
    if xs == [] {
      assert xs + ys == ys;
    } else {
      assert (xs + ys)[0] == xs[0];
      assert (xs + ys)[1..] == xs[1..] + ys;
      var first := Apply(m, xs[0], b);
      if first.outcome.Pass? {
        RunAppend(first.next, xs[1..], ys, b);
      }
    }
  }

  predicate IsToggle(op: Op) {
    op == Pause || op == Resume
  }

  /** Pausing and resuming change nothing but the state: the installed slots
      and the saved descriptors stay as they are. */
  lemma {:induction false} TogglesChangeOnlyState(m: Machine, ops: seq<Op>, b: Bindings)
    requires WellFormed(m, b)
    requires forall i :: 0 <= i < |ops| ==> IsToggle(ops[i])
    ensures Run(m, ops, b).next.globals == m.globals
    ensures Run(m, ops, b).next.saved == m.saved
    decreases |ops|
  {
    if ops != [] {
      var first := Apply(m, ops[0], b);
      if first.outcome.Pass? {
        assert forall i :: 0 <= i < |ops[1..]| ==> ops[1..][i] == ops[i + 1];
        TogglesChangeOnlyState(first.next, ops[1..], b);
      }
    }
  }

  /** The toggle that is legal at position i of a sequence of pauses and
      resumes that begins in state s. */
  function Expected(s: InterfaceState, i: nat): Op {
    if (i % 2 == 0) == (s == Started) then Pause else Resume
  }

  /** After one legal toggle, position i of the remaining sequence expects
      what position i + 1 expected before it. */
  lemma ExpectedShift(s: InterfaceState, op: Op, i: nat)
    requires s != Stopped && IsToggle(op) && Allowed(s, op)
    ensures Expected(Target(op), i) == Expected(s, i + 1)
  {
  }

  /** From a started or paused interface, a sequence of pauses and resumes
      completes exactly when it alternates, beginning with the call the
      current state allows; every other call fails its assertion. */
  lemma {:induction false} TogglesLegalIff(m: Machine, ops: seq<Op>, b: Bindings)
    requires WellFormed(m, b) && m.state != Stopped
    requires forall i :: 0 <= i < |ops| ==> IsToggle(ops[i])
    ensures Run(m, ops, b).outcome.Pass? <==> forall i :: 0 <= i < |ops| ==> ops[i] == Expected(m.state, i)
    ensures Run(m, ops, b).next.state != Stopped
    decreases |ops|
  {
    if ops != [] {
      var first := Apply(m, ops[0], b);
      if first.outcome.Pass? {
        var rest := ops[1..];
        var next := first.next;
        assert Run(m, ops, b) == Run(next, rest, b);
        assert forall i :: 0 <= i < |rest| ==> rest[i] == ops[i + 1];
        TogglesLegalIff(next, rest, b);
        forall i: nat ensures Expected(next.state, i) == Expected(m.state, i + 1) {
          ExpectedShift(m.state, ops[0], i);
        }
      } else {
        assert Run(m, ops, b) == first;
        assert ops[0] != Expected(m.state, 0);
      }
    }
  }

  /** Relation between the snapshot before the first `start` (m0) and a later
      snapshot m: stopped, the slots are the original ones; otherwise the
      originals are saved and the getters installed over them. */
  ghost predicate Tracks(m0: Machine, m: Machine, b: Bindings)
    requires HasSlots(m0.globals)
  {
    if m.state == Stopped then m.globals == m0.globals
    else m.globals == Install(m0.globals, Cases(b)) && m.saved == Capture(m0.globals)
  }

  lemma ApplyTracks(m0: Machine, m: Machine, op: Op, b: Bindings)
    requires HasSlots(m0.globals) && WellFormed(m, b) && Tracks(m0, m, b)
    ensures Tracks(m0, Apply(m, op, b).next, b)
  {
    if op == Stop {
      RestoreAfterInstall(m0.globals, b);
    }
  }

  lemma {:induction false} RunTracks(m0: Machine, m: Machine, ops: seq<Op>, b: Bindings)
    requires HasSlots(m0.globals) && WellFormed(m, b) && Tracks(m0, m, b)
    ensures Tracks(m0, Run(m, ops, b).next, b)
    decreases |ops|
  {
    if ops != [] {
      ApplyTracks(m0, m, ops[0], b);
      var first := Apply(m, ops[0], b);
      if first.outcome.Pass? {
        RunTracks(m0, first.next, ops[1..], b);
      }
    }
  }

  /** Round trip: any sequence of lifecycle calls from a stopped interface
      that leaves it stopped (whether it completes or stops at a failed
      assertion) leaves the three slots holding exactly the descriptors they
      held before; and whenever the interface is not stopped, the saved
      descriptors are those originals. */
  lemma LifecycleRoundTrip(m0: Machine, ops: seq<Op>, b: Bindings)
    requires WellFormed(m0, b) && m0.state == Stopped
    ensures Run(m0, ops, b).next.state == Stopped ==> Run(m0, ops, b).next.globals == m0.globals
    ensures Run(m0, ops, b).next.state != Stopped ==> Run(m0, ops, b).next.saved == Capture(m0.globals)
  {
    RunTracks(m0, m0, ops, b);
  }

  /** `start; (pause|resume)*; stop` completes exactly when the pauses and
      resumes alternate beginning with a pause; it then ends stopped with the
      slots restored, and `start` is legal again. */
  lemma StartTogglesStop(m0: Machine, ts: seq<Op>, b: Bindings)
    requires WellFormed(m0, b) && m0.state == Stopped
    requires forall i :: 0 <= i < |ts| ==> IsToggle(ts[i])
    ensures Run(m0, [Start] + ts + [Stop], b).outcome.Pass? <==> forall i :: 0 <= i < |ts| ==> ts[i] == Expected(Started, i)
    ensures Run(m0, [Start] + ts + [Stop], b).outcome.Pass? ==>
              var m := Run(m0, [Start] + ts + [Stop], b).next;
              m.state == Stopped && m.globals == m0.globals && Apply(m, Start, b).outcome.Pass?
  {
    var started := Apply(m0, Start, b).next;
    RunAppend(m0, [Start], ts, b);
    RunAppend(m0, [Start] + ts, [Stop], b);
    assert Run(m0, [Start], b) == Step(Pass, started) by {
      assert [Start][1..] == [];
    }
    TogglesLegalIff(started, ts, b);
    LifecycleRoundTrip(m0, [Start] + ts + [Stop], b);
  }
}
