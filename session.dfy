/**
 * struct dbt_session as the .c files use it, and the buffer and mode
 * initialisation of dbt_session_init (src/dbt_session.c).
 */
module SessionState {
  import opened Wrappers
  import opened Libpq
  import opened Dbt
  import opened Editor
  import opened PsqlAdapter

  class Session {
    const config: ParsedConfig
    /** adapter_handle, embedded in the session. */
    const adapter: Adapter

    var mode: Mode
    /** char input_buffer[64] and its head. */
    const inputBuffer: array<char>
    var bufferHead: int
    /** char *q_buffers[7] (null until allocated), the shared head and the active slot. */
    const qBuffers: array<array?<char>>
    var qBufferHead: int
    var qBufferInd: int

    var currentServer: Option<ServerEntry>
    var databaseList: Option<seq<string>>
    var currentDatabase: Option<string>
    var schemaList: Option<seq<string>>
    var currentSchema: Option<string>
    var tableList: Option<seq<string>>
    var currentTable: Option<string>
    var columnList: Option<seq<ColumnInfo>>
    var currentColumn: Option<string>

    ghost var Repr: set<object>

    /**
     * The buffers' invariant: the line and the active slot are clean, every
     * allocated slot is its own 4096-byte array, distinct from the line and
     * from every other slot, and the editor never runs without its slot.
     */
    ghost predicate Valid()
      reads this`Repr, this`mode, this`bufferHead, this`qBufferHead, this`qBufferInd, Repr - {this}
    {
      && this in Repr && inputBuffer in Repr && qBuffers in Repr && adapter !in Repr
      && inputBuffer.Length == LineSize && qBuffers.Length == SlotCount
      && (forall k :: 0 <= k < SlotCount && qBuffers[k] != null ==>
            qBuffers[k] in Repr && qBuffers[k].Length == QuerySize && qBuffers[k] != inputBuffer)
      && (forall j, k :: 0 <= j < k < SlotCount && qBuffers[j] != null ==> qBuffers[j] != qBuffers[k])
      && Clean(Buffer(inputBuffer[..], bufferHead), LineSize)
      && 0 <= qBufferInd < SlotCount
      && 0 <= qBufferHead < QuerySize
      && (qBuffers[qBufferInd] != null ==> Clean(Buffer(qBuffers[qBufferInd][..], qBufferHead), QuerySize))
      && (mode == Query ==> qBuffers[qBufferInd] != null)
    }

    /** The contents of slot k, or None while it is unallocated. */
    ghost function Slot(k: nat): Option<seq<char>>
      requires k < qBuffers.Length
      reads qBuffers, qBuffers[k]
    {
      if qBuffers[k] == null then None else Some(qBuffers[k][..])
    }

    /** The editing state the session holds. */
    ghost function EditorView(): (ed: Editor)
      requires Valid()
      reads this`Repr, this`mode, this`bufferHead, this`qBufferHead, this`qBufferInd, Repr - {this}
      ensures EditorOk(ed)
    {
      Editor(mode, Buffer(inputBuffer[..], bufferHead),
        seq(SlotCount, k requires 0 <= k < qBuffers.Length reads qBuffers, if 0 <= k < qBuffers.Length then {qBuffers[k]} else {} => Slot(k)),
        qBufferHead, qBufferInd)
    }

    /** The hierarchy the session holds, with the adapter's handles. */
    ghost function Hierarchy(): Nav
      reads this`currentServer, this`databaseList, this`currentDatabase, this`schemaList, this`currentSchema
      reads this`tableList, this`currentTable, this`columnList, this`currentColumn, adapter
    {
      Nav(currentServer, databaseList, currentDatabase, schemaList, currentSchema,
        tableList, currentTable, columnList, currentColumn, adapter.State())
    }

    /**
     * dbt_session_init after the configuration has loaded: NORMAL mode, an
     * all-zero line with head 0, seven unallocated slots, head and slot
     * index 0. Nothing is selected and the adapter holds no connection.
     */
    constructor (config: ParsedConfig, engine: SoundEngine)
      ensures Valid() && fresh(Repr) && fresh(adapter)
      ensures this.config == config && adapter.engine == engine && adapter.calls == []
      ensures EditorView() == Editor(Normal, Buffer(Zeros(LineSize), 0), seq(SlotCount, _ => None), 0, 0)
      ensures Hierarchy() == Nav(None, None, None, None, None, None, None, None, None, Handles(None, None, None, None, None))
    {
      this.config := config;
      adapter := new Adapter(engine);
      mode := Normal;
      inputBuffer := new char[LineSize](_ => '\0');
      bufferHead := 0;
      qBuffers := new array?<char>[SlotCount](_ => null);
      qBufferHead := 0;
      qBufferInd := 0;
      currentServer := None;
      databaseList, currentDatabase := None, None;
      schemaList, currentSchema := None, None;
      tableList, currentTable := None, None;
      columnList, currentColumn := None, None;
      Repr := {this, inputBuffer, qBuffers};
      new;
      assert inputBuffer[..] == Zeros(LineSize);
    }

    /** The reset loop of the commit path and of Ctrl-C: zero bytes 0 through head, then head 0. */
    method ResetLine()
      requires Valid()
      modifies this`bufferHead, inputBuffer
      ensures Valid()
      ensures Buffer(inputBuffer[..], bufferHead) == Reset(old(Buffer(inputBuffer[..], bufferHead)))
      ensures Buffer(inputBuffer[..], bufferHead) == Buffer(Zeros(LineSize), 0)
    {
      ghost var before := Buffer(inputBuffer[..], bufferHead);
      var i := 0;
      while i <= bufferHead
        invariant bufferHead == before.head < inputBuffer.Length == LineSize
        invariant 0 <= i <= bufferHead + 1
        invariant forall k :: 0 <= k < LineSize ==> inputBuffer[k] == if k < i then '\0' else before.bytes[k]
      {
        inputBuffer[i] := '\0';
        i := i + 1;
      }
      bufferHead := 0;
      ResetClears(before, LineSize);
      assert inputBuffer[..] == Reset(before).bytes;
    }

    /** A mode change; the editor may only be entered once its slot is allocated. */
    method SetMode(m: Mode)
      requires Valid() && (m == Query ==> qBuffers[qBufferInd] != null)
      modifies this`mode
      ensures Valid()
      ensures EditorView() == old(EditorView()).(mode := m)
    {
      ghost var ed := EditorView();
      mode := m;
      assert EditorView().slots == ed.slots;
    }

    /** Backspace at a select prompt: nothing at head 0, otherwise step back and zero that byte. */
    method EraseLine()
      requires Valid()
      modifies this`bufferHead, inputBuffer
      ensures Valid()
      ensures EditorView() == old(EditorView()).(line := Erase(old(EditorView()).line, LineSize))
    {
      ghost var ed := EditorView();
      if bufferHead <= 0 {
        return;
      }
      bufferHead := bufferHead - 1;
      inputBuffer[bufferHead] := '\0';
      assert EditorView().slots == ed.slots;
    }

    /** A printable key at a select prompt: stored at head unless 63 bytes are taken. */
    method AppendLine(c: char)
      requires Valid() && ' ' <= c <= '~'
      modifies this`bufferHead, inputBuffer
      ensures Valid()
      ensures EditorView() == old(EditorView()).(line := Append(old(EditorView()).line, c, LineSize))
    {
      ghost var ed := EditorView();
      if bufferHead >= LineSize - 1 {
        return;
      }
      inputBuffer[bufferHead] := c;
      bufferHead := bufferHead + 1;
      assert EditorView().slots == ed.slots;
    }

    /** Backspace in the editor, on the active slot. */
    method EraseQuery()
      requires Valid() && mode == Query
      modifies this`qBufferHead, qBuffers[qBufferInd]
      ensures Valid()
      ensures EditorView() == WithQueryBuffer(old(EditorView()), Erase(QueryBuffer(old(EditorView())), QuerySize))
    {
      ghost var ed := EditorView();
      var slot := qBuffers[qBufferInd];
      if qBufferHead <= 0 {
        return;
      }
      qBufferHead := qBufferHead - 1;
      slot[qBufferHead] := '\0';
      assert EditorView().slots == ed.slots[qBufferInd := Some(slot[..])];
    }

    /** A printable key in the editor: stored in the active slot at the shared head unless 4095 bytes are taken. */
    method AppendQuery(c: char)
      requires Valid() && mode == Query && ' ' <= c <= '~'
      modifies this`qBufferHead, qBuffers[qBufferInd]
      ensures Valid()
      ensures EditorView() == WithQueryBuffer(old(EditorView()), Append(QueryBuffer(old(EditorView())), c, QuerySize))
    {
      ghost var ed := EditorView();
      var slot := qBuffers[qBufferInd];
      if qBufferHead >= QuerySize - 1 {
        return;
      }
      slot[qBufferHead] := c;
      qBufferHead := qBufferHead + 1;
      assert EditorView().slots == ed.slots[qBufferInd := Some(slot[..])];
    }

    /** Entering the editor: the active slot is allocated zeroed, with head 0, only when it is still null. */
    method AllocateSlot()
      requires Valid()
      modifies this`qBufferHead, this`Repr, qBuffers
      ensures Valid() && fresh(Repr - old(Repr)) && qBuffers[qBufferInd] != null
      ensures var ed := old(EditorView());
        EditorView() ==
          if ed.slots[ed.active].None? then ed.(slots := ed.slots[ed.active := Some(Zeros(QuerySize))], queryHead := 0)
          else ed
    {
      ghost var ed := EditorView();
      if qBuffers[qBufferInd] != null {
        return;
      }
      var slot := new char[QuerySize](_ => '\0');
      qBuffers[qBufferInd] := slot;
      qBufferHead := 0;
      Repr := Repr + {slot};
      assert slot[..] == Zeros(QuerySize);
      assert EditorView().slots == ed.slots[qBufferInd := Some(Zeros(QuerySize))];
    }
  }

  /** The select line as dbt_session_init leaves it: byte 0 zeroed, bytes 1 to 63 whatever the stack held. */
  function InitLineAsWritten(stale: seq<char>): (line: Buffer)
    requires |stale| == LineSize
    ensures |line.bytes| == LineSize && line.head == 0 && line.bytes[0] == '\0' && line.bytes[1..] == stale[1..]
  {
    Buffer(['\0'] + stale[1..], 0)
  }

  /** With a stale 'x' in byte 1, typing 'a' and pressing Enter commits the name "ax", not "a". */
  lemma StaleLineCommitsStaleBytes()
    ensures var line := InitLineAsWritten(['\0', 'x'] + Zeros(LineSize - 2));
      CString(Append(line, 'a', LineSize).bytes) == "ax"
  {
    var line := InitLineAsWritten(['\0', 'x'] + Zeros(LineSize - 2));
    var typed := Append(line, 'a', LineSize).bytes;
    assert typed == line.bytes[0 := 'a'];
    CStringEndsAt(typed, 2);
    assert typed[..2] == "ax";
  }
}
