/**
 * The main loop of src/main.c: start-up with its exit codes, quit in
 * NORMAL mode, Ctrl-C from any mode, and delegation of every other key to
 * dbt_session_handle_input.
 */
module Main {
  import opened Wrappers
  import opened Libpq
  import opened Dbt
  import opened Editor
  import opened SessionState
  import Servers
  import Input

  /** How the program ends: exit with a code, or still waiting for the next key. */
  datatype Exit = Exited(code: int) | Waiting

  /** The mode after one key the loop does not quit on: Ctrl-C returns to NORMAL, every other key goes to the session. */
  function MainMode(m: Mode, key: int): Mode {
    if key == Ctrl('c' as int) then Normal else NextMode(m, key)
  }

  /** Whether the loop, starting in mode m, reaches a 'q' typed in NORMAL mode within keys. */
  predicate Quits(m: Mode, keys: seq<int>)
    decreases |keys|
  {
    keys != [] && ((m == Normal && keys[0] == 'q' as int) || Quits(MainMode(m, keys[0]), keys[1..]))
  }

  /**
   * 'q' quits only in NORMAL mode, elsewhere it is text; Ctrl-C followed by
   * 'q' quits from any mode.
   */
  lemma QuitKeys(m: Mode)
    ensures Quits(m, ['q' as int]) <==> m == Normal
    ensures Quits(m, [Ctrl('c' as int), 'q' as int])
  {
    CtrlFacts('c' as int);
    assert ['q' as int][1..] == [];
    assert [Ctrl('c' as int), 'q' as int][1..] == ['q' as int];
  }

  /** Ctrl-C: NORMAL mode and an all-zero line; the query slots, their head and the active slot stay. */
  function CancelEditor(ed: Editor): (r: Editor)
    requires EditorOk(ed)
    ensures EditorOk(r)
  {
    ResetClears(ed.line, LineSize);
    ed.(mode := Normal, line := Reset(ed.line))
  }

  /** After Ctrl-C the line is empty, the mode is NORMAL, and the editor's slots and head are as they were. */
  lemma CancelClears(ed: Editor)
    requires EditorOk(ed)
    ensures var r := CancelEditor(ed);
      && r.mode == Normal && r.line == Buffer(Zeros(LineSize), 0) && CString(r.line.bytes) == ""
      && r.slots == ed.slots && r.queryHead == ed.queryHead && r.active == ed.active
  {
    ResetClears(ed.line, LineSize);
  }

  /** The Ctrl-C branch of the loop. */
  method Cancel(s: Session)
    requires s.Valid()
    modifies s`mode, s`bufferHead, s.inputBuffer
    ensures s.Valid() && s.EditorView() == CancelEditor(old(s.EditorView()))
  {
    s.mode := Normal;
    s.ResetLine();
  }

  /** One pass of the loop for one key; stop says the loop ends. */
  method Dispatch(key: int, s: Session) returns (stop: bool)
    requires s.Valid()
    modifies {s, s.adapter} + s.Repr
    ensures s.Valid() && fresh(s.Repr - old(s.Repr))
    ensures stop <==> old(s.mode) == Normal && key == 'q' as int
    ensures !stop ==> s.mode == MainMode(old(s.mode), key)
    ensures !stop && key == Ctrl('c' as int) ==>
      s.EditorView() == CancelEditor(old(s.EditorView())) && s.Hierarchy() == old(s.Hierarchy())
    ensures !stop && key != Ctrl('c' as int) ==>
      && s.EditorView() == Step(old(s.EditorView()), key)
      && var o := Input.KeyEffect(old(s.EditorView()), old(s.Hierarchy()), s.adapter.engine, s.config, key);
        s.Hierarchy() == o.nav && s.adapter.calls == old(s.adapter.calls) + o.calls
  {
    if s.mode == Normal && key == 'q' as int {
      return true;
    } else if key == Ctrl('c' as int) {
      Cancel(s);
      return false;
    }
    var rc := Input.HandleInput(key, s);
    stop := rc != 0;
  }

  /**
   * main: exit 1 when the configuration cannot be loaded, exit 2 when the
   * server list cannot be drawn; otherwise exit 0 exactly when some 'q' is
   * typed in NORMAL mode, and wait for more keys when none is.
   */
  method Run(config: Option<ParsedConfig>, engine: SoundEngine, keys: seq<int>) returns (exit: Exit)
    ensures config.None? ==> exit == Exited(1)
    ensures config.Some? && config.value.servers.None? ==> exit == Exited(2)
    ensures config.Some? && config.value.servers.Some? ==>
      (exit == Exited(0) <==> Quits(Normal, keys)) && (exit != Exited(0) ==> exit == Waiting)
  {
    if config.None? {
      return Exited(1);
    }
    var s := new Session(config.value, engine);
    var rc, rows := Servers.Refresh(s);
    if rc != 0 {
      return Exited(2);
    }
    var i := 0;
    while i < |keys|
      invariant 0 <= i <= |keys|
      invariant s.Valid() && fresh(s.Repr) && fresh(s.adapter)
      invariant Quits(Normal, keys) == Quits(s.mode, keys[i..])
    {
      assert keys[i..][1..] == keys[i + 1..];
      var stop := Dispatch(keys[i], s);
      if stop {
        return Exited(0);
      }
      i := i + 1;
    }
    return Waiting;
  }
}
