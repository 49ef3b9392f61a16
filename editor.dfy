/**
 * The editing rules of dbt_session_handle_input (src/dbt_session.c) as pure
 * functions: the key-to-mode map of NORMAL mode, the two fixed-size
 * buffers with their head index (the 64-byte select line and the 4096-byte
 * query slots), and the effect of one keystroke on them.
 */
module Editor {
  import opened Wrappers
  import opened Dbt

  /** The range both editors accept: ' ' through '~'. */
  predicate Printable(input: int) {
    ' ' as int <= input <= '~' as int
  }

  predicate IsBackspace(input: int) {
    input == 8 || input == 127
  }

  /** A fixed-size char buffer and the index of its next free byte. */
  datatype Buffer = Buffer(bytes: seq<char>, head: int)

  /**
   * What the editors keep true of a buffer: the bytes before head are
   * printable, every byte from head on is zero, and head stays below the
   * size so a terminating zero always follows the text.
   */
  predicate Clean(b: Buffer, size: nat) {
    && |b.bytes| == size
    && 0 <= b.head < size
    && (forall i :: 0 <= i < b.head ==> ' ' <= b.bytes[i] <= '~')
    && (forall i :: b.head <= i < size ==> b.bytes[i] == '\0')
  }

  function Zeros(n: nat): (z: seq<char>)
    ensures |z| == n && forall i :: 0 <= i < n ==> z[i] == '\0'
  {
    seq(n, _ => '\0')
  }

  /** The C string a char buffer holds: every byte before the first zero byte. */
  function CString(bytes: seq<char>): (s: string)
    ensures |s| <= |bytes| && s == bytes[..|s|]
    ensures forall i :: 0 <= i < |s| ==> s[i] != '\0'
    ensures |s| < |bytes| ==> bytes[|s|] == '\0'
  {
    if bytes == [] || bytes[0] == '\0' then [] else [bytes[0]] + CString(bytes[1..])
  }

  /** A zero byte at n with no zero before it ends the C string at n. */
  lemma {:induction false} CStringEndsAt(bytes: seq<char>, n: nat)
    requires n < |bytes| && bytes[n] == '\0'
    requires forall i :: 0 <= i < n ==> bytes[i] != '\0'
    ensures CString(bytes) == bytes[..n]
  {
    if n > 0 {
      CStringEndsAt(bytes[1..], n - 1);
      assert bytes[..n] == [bytes[0]] + bytes[1..][..n - 1];
    }
  }

  /** The text a clean buffer holds is exactly its bytes before head. */
  lemma CleanText(b: Buffer, size: nat)
    requires Clean(b, size)
    ensures CString(b.bytes) == b.bytes[..b.head]
  {
    CStringEndsAt(b.bytes, b.head);
  }

  /** Typing one printable character; a full buffer drops it. */
  function Append(b: Buffer, c: char, size: nat): (r: Buffer)
    requires |b.bytes| == size && 0 <= b.head < size && ' ' <= c <= '~'
    ensures |r.bytes| == size && 0 <= r.head < size
    ensures Clean(b, size) ==> Clean(r, size)
  {
    if b.head >= size - 1 then b else Buffer(b.bytes[b.head := c], b.head + 1)
  }

  /** Backspace: nothing at head 0, otherwise step back and zero that byte. */
  function Erase(b: Buffer, size: nat): (r: Buffer)
    requires Clean(b, size)
    ensures Clean(r, size)
  {
    if b.head <= 0 then b else Buffer(b.bytes[b.head - 1 := '\0'], b.head - 1)
  }

  /** The reset loop: zero bytes 0 through head (inclusive), then head := 0. */
  function Reset(b: Buffer): Buffer
    requires 0 <= b.head < |b.bytes|
  {
    Buffer(seq(|b.bytes|, i requires 0 <= i < |b.bytes| => if i <= b.head then '\0' else b.bytes[i]), 0)
  }

  /** Appending extends the text by one character, unless the head is at the bound, which drops it. */
  lemma AppendText(b: Buffer, c: char, size: nat)
    requires Clean(b, size) && ' ' <= c <= '~'
    ensures Append(b, c, size).head <= size - 1
    ensures CString(Append(b, c, size).bytes) == if b.head < size - 1 then CString(b.bytes) + [c] else CString(b.bytes)
  {
    var r := Append(b, c, size);
    CleanText(b, size);
    CleanText(r, size);
    if b.head < size - 1 {
      assert r.bytes[..r.head] == b.bytes[..b.head] + [c];
    }
  }

  /** Backspace removes the last character of the text, and does nothing to an empty one. */
  lemma EraseText(b: Buffer, size: nat)
    requires Clean(b, size)
    ensures b.head == 0 ==> Erase(b, size) == b
    ensures b.head > 0 ==> CString(Erase(b, size).bytes) == CString(b.bytes)[..b.head - 1]
  {
    var r := Erase(b, size);
    CleanText(b, size);
    CleanText(r, size);
    if b.head > 0 {
      assert r.bytes[..r.head] == b.bytes[..b.head - 1];
    }
  }

  /** On a clean buffer the reset loop leaves every byte zero and the text empty. */
  lemma ResetClears(b: Buffer, size: nat)
    requires Clean(b, size)
    ensures Reset(b) == Buffer(Zeros(size), 0)
    ensures Clean(Reset(b), size) && CString(Reset(b).bytes) == ""
  {
    assert Reset(b).bytes == Zeros(size);
  }

  /**
   * The editing state of a session: the mode, the select line, the seven
   * query slots (None while unallocated), the shared query head and the
   * active slot index.
   */
  datatype Editor = Editor(mode: Mode, line: Buffer, slots: seq<Option<seq<char>>>, queryHead: int, active: int)

  predicate EditorOk(ed: Editor) {
    && Clean(ed.line, LineSize)
    && |ed.slots| == SlotCount
    && 0 <= ed.active < SlotCount
    && 0 <= ed.queryHead < QuerySize
    && (forall k :: 0 <= k < |ed.slots| && ed.slots[k].Some? ==> |ed.slots[k].value| == QuerySize)
    && (ed.slots[ed.active].Some? ==> Clean(Buffer(ed.slots[ed.active].value, ed.queryHead), QuerySize))
    && (ed.mode == Query ==> ed.slots[ed.active].Some?)
  }

  /** The active slot as a buffer. */
  function QueryBuffer(ed: Editor): Buffer
    requires 0 <= ed.active < |ed.slots| && ed.slots[ed.active].Some?
  {
    Buffer(ed.slots[ed.active].value, ed.queryHead)
  }

  function WithQueryBuffer(ed: Editor, b: Buffer): Editor
    requires 0 <= ed.active < |ed.slots|
  {
    ed.(slots := ed.slots[ed.active := Some(b.bytes)], queryHead := b.head)
  }

  /** The NORMAL-mode key map. */
  function NormalKey(input: int): Mode {
    if input == 'S' as int then ServerSelect
    else if input == 'd' as int then DatabaseSelect
    else if input == 's' as int then SchemaSelect
    else if input == 't' as int then TableViewSelect
    else if input == 'c' as int then ColumnSelect
    else if input == 'i' as int then Query
    else Normal
  }

  /** The mode after one keystroke handled by dbt_session_handle_input. */
  function NextMode(m: Mode, input: int): Mode {
    match m
    case Normal => NormalKey(input)
    case Query => Query
    case _ => if input == 13 then Normal else m
  }

  /** One keystroke's effect on the editing state. */
  function Step(ed: Editor, input: int): (r: Editor)
    requires EditorOk(ed)
    ensures EditorOk(r)
    ensures r.mode == NextMode(ed.mode, input) && r.active == ed.active
  {
    match ed.mode
    case Normal =>
      var m := NormalKey(input);
      if m == Query && ed.slots[ed.active].None? then
        AllocatedOk(ed, m);
        ed.(mode := m, slots := ed.slots[ed.active := Some(Zeros(QuerySize))], queryHead := 0)
      else
        ed.(mode := m)
    case Query =>
      if input == Ctrl(13) then ed
      else if IsBackspace(input) then
        var b := Erase(QueryBuffer(ed), QuerySize);
        QueryBufferOk(ed, b);
        WithQueryBuffer(ed, b)
      else if !Printable(input) then ed
      else
        var b := Append(QueryBuffer(ed), input as char, QuerySize);
        QueryBufferOk(ed, b);
        WithQueryBuffer(ed, b)
    case _ =>
      if input == 13 then
        ResetClears(ed.line, LineSize);
        ed.(mode := Normal, line := Reset(ed.line))
      else if IsBackspace(input) then ed.(line := Erase(ed.line, LineSize))
      else if !Printable(input) then ed
      else ed.(line := Append(ed.line, input as char, LineSize))
  }

  /** A freshly allocated, zeroed active slot with head 0 keeps the editing invariant in any mode. */
  lemma AllocatedOk(ed: Editor, m: Mode)
    requires EditorOk(ed)
    ensures EditorOk(ed.(mode := m, slots := ed.slots[ed.active := Some(Zeros(QuerySize))], queryHead := 0))
  {
    var r := ed.(mode := m, slots := ed.slots[ed.active := Some(Zeros(QuerySize))], queryHead := 0);
    assert Clean(Buffer(r.slots[r.active].value, 0), QuerySize);
  }

  /** Writing a clean buffer back into the allocated active slot keeps the editing invariant. */
  lemma QueryBufferOk(ed: Editor, b: Buffer)
    requires EditorOk(ed) && ed.slots[ed.active].Some? && Clean(b, QuerySize)
    ensures EditorOk(WithQueryBuffer(ed, b))
  {
    var r := WithQueryBuffer(ed, b);
    assert r.slots[r.active].value == b.bytes;
  }

  /** 'S', 'd', 's', 't', 'c' and 'i' enter the five select modes and the query editor; every other key stays in NORMAL. */
  lemma NormalKeyMap(input: int)
    ensures NormalKey('S' as int) == SelectMode(Server) && NormalKey('d' as int) == SelectMode(Database)
    ensures NormalKey('s' as int) == SelectMode(Schema) && NormalKey('t' as int) == SelectMode(TableView)
    ensures NormalKey('c' as int) == SelectMode(Column) && NormalKey('i' as int) == Query
    ensures NormalKey(input) == Normal <==> input !in {'S' as int, 'd' as int, 's' as int, 't' as int, 'c' as int, 'i' as int}
  {
  }

  /** In NORMAL mode only the mode can change, apart from allocating the query slot on entering the editor. */
  lemma NormalStep(ed: Editor, input: int)
    requires EditorOk(ed) && ed.mode == Normal
    ensures Step(ed, input).mode == NormalKey(input) && Step(ed, input).line == ed.line
    ensures NormalKey(input) != Query ==> Step(ed, input) == ed.(mode := NormalKey(input))
  {
  }

  /**
   * Entering the editor allocates the active slot, zeroed with head 0, only
   * when it is unallocated; an allocated slot keeps its text and head, so
   * editing resumes where it stopped.
   */
  lemma QueryEntry(ed: Editor)
    requires EditorOk(ed) && ed.mode == Normal
    ensures var r := Step(ed, 'i' as int);
      && r.mode == Query
      && (ed.slots[ed.active].Some? ==> r.slots == ed.slots && r.queryHead == ed.queryHead)
      && (ed.slots[ed.active].None? ==>
            r.slots == ed.slots[ed.active := Some(Zeros(QuerySize))] && r.queryHead == 0
            && CString(QueryBuffer(r).bytes) == "")
  {
    var r := Step(ed, 'i' as int);
    if ed.slots[ed.active].None? {
      CleanText(QueryBuffer(r), QuerySize);
    }
  }

  /** The execute key (CTRL(13), which is Enter) leaves the editor, its slots and its head as they were. */
  lemma QueryExecute(ed: Editor)
    requires EditorOk(ed) && ed.mode == Query
    ensures Step(ed, 13) == ed
  {
  }

  /**
   * Typing in the editor writes only the active slot: its text grows by the
   * character unless the head is at 4095, the other slots are unchanged.
   */
  lemma QueryTyping(ed: Editor, input: int)
    requires EditorOk(ed) && ed.mode == Query && Printable(input)
    ensures var r := Step(ed, input);
      && r.queryHead <= QuerySize - 1
      && (forall k :: 0 <= k < SlotCount && k != ed.active ==> r.slots[k] == ed.slots[k])
      && CString(QueryBuffer(r).bytes) ==
           if ed.queryHead < QuerySize - 1 then CString(QueryBuffer(ed).bytes) + [input as char]
           else CString(QueryBuffer(ed).bytes)
  {
    CtrlFacts(13);
    var b := Append(QueryBuffer(ed), input as char, QuerySize);
    assert Step(ed, input) == WithQueryBuffer(ed, b);
    assert QueryBuffer(WithQueryBuffer(ed, b)) == b;
    AppendText(QueryBuffer(ed), input as char, QuerySize);
  }

  /** Backspace in the editor: a no-op at head 0, otherwise the text loses its last character. */
  lemma QueryBackspace(ed: Editor, input: int)
    requires EditorOk(ed) && ed.mode == Query && IsBackspace(input)
    ensures var r := Step(ed, input);
      && (forall k :: 0 <= k < SlotCount && k != ed.active ==> r.slots[k] == ed.slots[k])
      && (ed.queryHead == 0 ==> r == ed)
      && (ed.queryHead > 0 ==>
            && r.queryHead == ed.queryHead - 1
            && CString(QueryBuffer(r).bytes) == CString(QueryBuffer(ed).bytes)[..ed.queryHead - 1])
  {
    CtrlFacts(13);
    var b := Erase(QueryBuffer(ed), QuerySize);
    assert Step(ed, input) == WithQueryBuffer(ed, b);
    assert QueryBuffer(WithQueryBuffer(ed, b)) == b;
    EraseText(QueryBuffer(ed), QuerySize);
  }

  /** Typing at a select prompt: the line grows by the character unless 63 are already there. */
  lemma LineTyping(ed: Editor, input: int)
    requires EditorOk(ed) && ed.mode.IsSelect() && Printable(input)
    ensures var r := Step(ed, input);
      && r.mode == ed.mode && r.slots == ed.slots && r.queryHead == ed.queryHead
      && r.line.head <= LineSize - 1
      && CString(r.line.bytes) ==
           if ed.line.head < LineSize - 1 then CString(ed.line.bytes) + [input as char] else CString(ed.line.bytes)
  {
    AppendText(ed.line, input as char, LineSize);
  }

  /** Backspace at a select prompt: a no-op on an empty line, otherwise the last character goes. */
  lemma LineBackspace(ed: Editor, input: int)
    requires EditorOk(ed) && ed.mode.IsSelect() && IsBackspace(input)
    ensures var r := Step(ed, input);
      && r.mode == ed.mode && r.slots == ed.slots
      && (ed.line.head == 0 ==> r == ed)
      && (ed.line.head > 0 ==> CString(r.line.bytes) == CString(ed.line.bytes)[..ed.line.head - 1])
  {
    EraseText(ed.line, LineSize);
  }

  /** Enter at a select prompt returns to NORMAL with an all-zero line; the query slots are untouched. */
  lemma LineCommit(ed: Editor)
    requires EditorOk(ed) && ed.mode.IsSelect()
    ensures var r := Step(ed, 13);
      && r.mode == Normal && r.line == Buffer(Zeros(LineSize), 0)
      && r.slots == ed.slots && r.queryHead == ed.queryHead
  {
    ResetClears(ed.line, LineSize);
  }

  /** Outside NORMAL, keys other than Enter, backspace and the printable range change nothing. */
  lemma IgnoredInput(ed: Editor, input: int)
    requires EditorOk(ed) && ed.mode != Normal
    requires input != 13 && !IsBackspace(input) && !Printable(input)
    ensures Step(ed, input) == ed
  {
  }
}
