/** The process-wide property slots that the interface takes over
    (`process.stdout`, `process.stderr`, `global.console`), their property
    descriptors, and the capture / install / restore steps on them. */
module Slots {
  import opened Objects

  datatype Slot = ProcessStdout | ProcessStderr | GlobalConsole

  /** A property descriptor, abstracted to what the interface relies on. */
  datatype Descriptor =
    | Value(value: Obj)                // a data property
    | Accessor(getter: nat)            // a getter installed by code outside the model
    | Managed(base: Obj, wrapped: Obj) // the getter installed by `start`

  /** The original object of a slot and the wrapped object that replaces it. */
  datatype Pair = Pair(base: Obj, wrapped: Obj)

  /** The three (base, wrapped) pairs of one interface. */
  datatype Bindings = Bindings(stdout: Pair, stderr: Pair, console: Pair) {
    function For(s: Slot): Pair {
      match s
      case ProcessStdout => stdout
      case ProcessStderr => stderr
      case GlobalConsole => console
    }
  }

  datatype Case = Case(slot: Slot, pair: Pair)

  /** The `cases` table of `start`, in its order. */
  function Cases(b: Bindings): seq<Case> {
    [Case(ProcessStdout, b.stdout), Case(ProcessStderr, b.stderr), Case(GlobalConsole, b.console)]
  }

  /** The table holds one case per slot, no slot twice, each carrying that
      slot's own base and wrapped object. */
  lemma CasesCoverSlots(b: Bindings)
    ensures |Cases(b)| == 3
    ensures SlotsOf(Cases(b)) == {ProcessStdout, ProcessStderr, GlobalConsole}
    ensures forall i :: 0 <= i < |Cases(b)| ==> Cases(b)[i].pair == b.For(Cases(b)[i].slot)
    ensures forall i, j :: 0 <= i < j < |Cases(b)| ==> Cases(b)[i].slot != Cases(b)[j].slot
  {
    var table := Cases(b);
    assert table[0] in table && table[1] in table && table[2] in table;
  }

  function SlotsOf(cases: seq<Case>): set<Slot> {
    set c | c in cases :: c.slot
  }

  /** The descriptor `start` defines for one pair. */
  function Getter(p: Pair): Descriptor {
    Managed(p.base, p.wrapped)
  }

  predicate HasSlots(g: map<Slot, Descriptor>) {
    ProcessStdout in g && ProcessStderr in g && GlobalConsole in g
  }

  /** Reading a property with descriptor `d` can give `v`: a data property
      gives its value, another interface's getter its base or its wrapped
      object, and any other getter runs code outside this model. */
  predicate CanRead(d: Descriptor, v: Obj) {
    match d
    case Value(x) => v == x
    case Accessor(_) => true
    case Managed(base, wrapped) => v == base || v == wrapped
  }

  /** Every slot holds the getter installed for its pair. */
  predicate InstalledAll(g: map<Slot, Descriptor>, b: Bindings) {
    && ProcessStdout in g && g[ProcessStdout] == Getter(b.stdout)
    && ProcessStderr in g && g[ProcessStderr] == Getter(b.stderr)
    && GlobalConsole in g && g[GlobalConsole] == Getter(b.console)
  }

  /** The fields `stdoutPD`, `stderrPD` and `consolePD`; None while never assigned. */
  datatype SavedDescriptors = SavedDescriptors(
    stdoutPD: Option<Descriptor>,
    stderrPD: Option<Descriptor>,
    consolePD: Option<Descriptor>)
  {
    predicate Complete() {
      stdoutPD.Some? && stderrPD.Some? && consolePD.Some?
    }
  }

  /** The three `getOwnPropertyDescriptor` reads at the head of `start`. */
  function Capture(g: map<Slot, Descriptor>): (saved: SavedDescriptors)
    requires HasSlots(g)
    ensures saved.Complete()
    ensures saved.stdoutPD.value == g[ProcessStdout]
    ensures saved.stderrPD.value == g[ProcessStderr]
    ensures saved.consolePD.value == g[GlobalConsole]
  {
    SavedDescriptors(Some(g[ProcessStdout]), Some(g[ProcessStderr]), Some(g[GlobalConsole]))
  }

  /** The `defineProperty` loop of `start`, one case after the other. Only the
      slots named by the cases change; no slot disappears. */
  function Install(g: map<Slot, Descriptor>, cases: seq<Case>): (r: map<Slot, Descriptor>)
    ensures r.Keys == g.Keys + SlotsOf(cases)
    ensures forall s :: s in g && s !in SlotsOf(cases) ==> r[s] == g[s]
    decreases |cases|
  {
    if cases == [] then g
    else
      var c := cases[|cases| - 1];
      var prefix := cases[..|cases| - 1];
      assert SlotsOf(cases) == SlotsOf(prefix) + {c.slot} by {
        assert cases == prefix + [c];
      }
      Install(g, prefix)[c.slot := Getter(c.pair)]
  }

  /** One more step of the install loop defines one more getter. */
  lemma InstallExtend(g: map<Slot, Descriptor>, cases: seq<Case>, i: nat)
    requires i < |cases|
    ensures Install(g, cases[..i + 1]) == Install(g, cases[..i])[cases[i].slot := Getter(cases[i].pair)]
  {
    assert cases[..i + 1][..i] == cases[..i];
  }

  /** The three `defineProperty` calls of `stop`: each slot gets back the
      descriptor saved for it, and nothing else changes. */
  function Restore(g: map<Slot, Descriptor>, saved: SavedDescriptors): (r: map<Slot, Descriptor>)
    requires saved.Complete()
    ensures HasSlots(r) && r.Keys == g.Keys + {ProcessStdout, ProcessStderr, GlobalConsole}
    ensures r[ProcessStdout] == saved.stdoutPD.value
    ensures r[ProcessStderr] == saved.stderrPD.value
    ensures r[GlobalConsole] == saved.consolePD.value
  {
    g[ProcessStdout := saved.stdoutPD.value]
     [ProcessStderr := saved.stderrPD.value]
     [GlobalConsole := saved.consolePD.value]
  }

  /** Installing the three cases defines exactly the three getters. */
  lemma InstallCases(g: map<Slot, Descriptor>, b: Bindings)
    ensures Install(g, Cases(b))
         == g[ProcessStdout := Getter(b.stdout)][ProcessStderr := Getter(b.stderr)][GlobalConsole := Getter(b.console)]
  {
    var cs := Cases(b);
    assert cs[..|cs| - 1] == cs[..2] == [cs[0], cs[1]];
    assert cs[..2][..1] == [cs[0]];
    assert [cs[0]][..0] == [];
    var one := Install(g, [cs[0]]);
    assert one == g[ProcessStdout := Getter(b.stdout)];
    var two := Install(g, cs[..2]);
    assert two == one[ProcessStderr := Getter(b.stderr)];
    assert Install(g, cs) == two[GlobalConsole := Getter(b.console)];
  }

  /** After installing, every slot resolves through the interface's getter. */
  lemma InstallManages(g: map<Slot, Descriptor>, b: Bindings)
    ensures InstalledAll(Install(g, Cases(b)), b)
  {
    InstallCases(g, b);
  }

  /** Restoring what was captured before installing gives back the slots
      exactly as they were. */
  lemma RestoreAfterInstall(g: map<Slot, Descriptor>, b: Bindings)
    requires HasSlots(g)
    ensures Restore(Install(g, Cases(b)), Capture(g)) == g
  {
    InstallCases(g, b);
  }
}
