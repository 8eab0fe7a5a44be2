/** The render-command interpreter of the Nitro model format.

    A render-command stream is bytecode: one opcode byte, then an operand
    block whose length the opcode fixes (only the blend opcode 0x09 sizes its
    block from a count byte it peeks at). The interpreter decodes one command
    at a time, updates its two registers (current material, current matrix
    stack slot) and forwards ids to a renderer capability, the `Sink`, until
    the end command 0x01 or the first error.

    The specification is the pair of functions `Fetch` (decode one command)
    and `Exec` (its effect), folded over the stream by `Run`; the class
    `RenderInterpreterState` is the imperative interpreter, proved to do what
    `Run` says. */
module RenderCmds {
  import opened Cursor

  // ---------------------------------------------------------------- errors

  datatype Error =
    | UnexpectedEndOfStream
    | UnknownOpcode(opcode: Byte)
    | InvalidBlendTermCount(count: Byte)
    | SinkError  // a renderer call failed; the renderer's reason is opaque here

  datatype Result<+T> = Ok(value: T) | Err(error: Error)

  // ------------------------------------------------------------------ sink

  /** One weighted term of a blend: matrix_stack[stackId] * blend_matrix[blendId]
      scaled by `weight`. */
  datatype BlendTerm = BlendTerm(stackId: Byte, blendId: Byte, weight: real)

  /** A call on the renderer capability, as recorded in the call trace. */
  datatype SinkCall =
    | LoadMatrix(stackPos: Byte)
    | StoreMatrix(stackPos: Byte)
    | MulByObject(objectId: Byte)
    | Blend(stackPos: Byte, terms: seq<BlendTerm>)
    | Draw(meshId: Byte, materialId: Byte)

  /** How the renderer answers a call: it fails exactly on the calls it does
      not accept. */
  function Answer(accepts: SinkCall -> bool, c: SinkCall): Result<()> {
    if accepts(c) then Ok(()) else Err(SinkError)
  }

  /** The renderer capability as a call trace. Every call is appended to
      `calls` (a failing call too, since it was made); `accepts` says which
      calls the renderer carries out. */
  class Sink {
    const accepts: SinkCall -> bool
    var calls: seq<SinkCall>

    constructor (accepts: SinkCall -> bool)
      ensures this.accepts == accepts && calls == []
    {
      this.accepts := accepts;
      calls := [];
    }

    /** cur_matrix := matrix_stack[stackPos] */
    method LoadMatrix(stackPos: Byte) returns (r: Result<()>)
      modifies this
      ensures calls == old(calls) + [SinkCall.LoadMatrix(stackPos)]
      ensures r == Answer(accepts, SinkCall.LoadMatrix(stackPos))
    {
      calls := calls + [SinkCall.LoadMatrix(stackPos)];
      r := Answer(accepts, SinkCall.LoadMatrix(stackPos));
    }

    /** matrix_stack[stackPos] := cur_matrix */
    method StoreMatrix(stackPos: Byte) returns (r: Result<()>)
      modifies this
      ensures calls == old(calls) + [SinkCall.StoreMatrix(stackPos)]
      ensures r == Answer(accepts, SinkCall.StoreMatrix(stackPos))
    {
      calls := calls + [SinkCall.StoreMatrix(stackPos)];
      r := Answer(accepts, SinkCall.StoreMatrix(stackPos));
    }

    /** cur_matrix := cur_matrix * object_matrices[objectId] */
    method MulByObject(objectId: Byte) returns (r: Result<()>)
      modifies this
      ensures calls == old(calls) + [SinkCall.MulByObject(objectId)]
      ensures r == Answer(accepts, SinkCall.MulByObject(objectId))
    {
      calls := calls + [SinkCall.MulByObject(objectId)];
      r := Answer(accepts, SinkCall.MulByObject(objectId));
    }

    /** Blends the terms, in order, and stores the result at stackPos. */
    method Blend(stackPos: Byte, terms: seq<BlendTerm>) returns (r: Result<()>)
      modifies this
      ensures calls == old(calls) + [SinkCall.Blend(stackPos, terms)]
      ensures r == Answer(accepts, SinkCall.Blend(stackPos, terms))
    {
      calls := calls + [SinkCall.Blend(stackPos, terms)];
      r := Answer(accepts, SinkCall.Blend(stackPos, terms));
    }

    /** Draws mesh meshId with material materialId. */
    method Draw(meshId: Byte, materialId: Byte) returns (r: Result<()>)
      modifies this
      ensures calls == old(calls) + [SinkCall.Draw(meshId, materialId)]
      ensures r == Answer(accepts, SinkCall.Draw(meshId, materialId))
    {
      calls := calls + [SinkCall.Draw(meshId, materialId)];
      r := Answer(accepts, SinkCall.Draw(meshId, materialId));
    }
  }

  // ----------------------------------------------------- operand lengths

  predicate IsZeroOperandOpcode(op: Byte) {
    op == 0x00 || op == 0x01 || op == 0x0b || op == 0x2b || op == 0x40 || op == 0x80
  }
  predicate IsOneOperandOpcode(op: Byte) {
    op == 0x03 || op == 0x04 || op == 0x05 || op == 0x07 || op == 0x08 || op == 0x24 || op == 0x44
  }
  const BlendOpcode: Byte := 0x09
  /** The opcodes whose operand length can be determined. */
  predicate IsKnownOpcode(op: Byte) {
    IsZeroOperandOpcode(op) || IsOneOperandOpcode(op)
    || op == 0x02 || op == 0x06 || op == 0x26 || op == 0x46 || op == 0x66 || op == BlendOpcode
  }

  /** The aliases of "set the current material". */
  predicate IsMaterialOpcode(op: Byte) { op == 0x04 || op == 0x24 || op == 0x44 }
  /** The four variants of "multiply by an object matrix and store". */
  predicate IsObjectOpcode(op: Byte) { op == 0x06 || op == 0x26 || op == 0x46 || op == 0x66 }
  /** Opcodes of the length table that have no effect besides their length. */
  predicate IsInertOpcode(op: Byte) {
    op == 0x00 || op == 0x02 || op == 0x07 || op == 0x08 || op == 0x0b || op == 0x2b || op == 0x40 || op == 0x80
  }

  /** Number of operand bytes after `opcode`; `cur` is positioned just after
      the opcode. Only 0x09 looks at the stream: it reads its count byte
      through a copy of the cursor, so nothing is consumed. */
  function CmdSize(opcode: Byte, cur: Cur): (r: Result<nat>)
    ensures IsZeroOperandOpcode(opcode) ==> r == Ok(0)
    ensures IsOneOperandOpcode(opcode) ==> r == Ok(1)
    ensures opcode == 0x02 ==> r == Ok(2)
    ensures opcode == 0x06 ==> r == Ok(3)
    ensures opcode == 0x26 || opcode == 0x46 ==> r == Ok(4)
    ensures opcode == 0x66 ==> r == Ok(5)
    ensures opcode == BlendOpcode ==> (r.Ok? <==> cur.Remaining() >= 2)
    ensures opcode == BlendOpcode && r.Ok? ==> r.value == 2 + 3 * (cur.bytes[cur.pos + 1] as int)
    ensures opcode == BlendOpcode && r.Err? ==> r.error == UnexpectedEndOfStream
    ensures !IsKnownOpcode(opcode) ==> r == Err(UnknownOpcode(opcode))
  {
    match opcode
    case 0x00 => Ok(0)
    case 0x01 => Ok(0)
    case 0x02 => Ok(2)
    case 0x03 => Ok(1)
    case 0x04 => Ok(1)
    case 0x05 => Ok(1)
    case 0x06 => Ok(3)
    case 0x07 => Ok(1)
    case 0x08 => Ok(1)
    case 0x09 =>
      // the only variable-length command: stack slot, count, count triples
      (match cur.NextN(2)
       case None => Err(UnexpectedEndOfStream)
       case Some((peeked, _)) => Ok(2 + 3 * (peeked[1] as int)))
    case 0x0b => Ok(0)
    case 0x24 => Ok(1)
    case 0x26 => Ok(4)
    case 0x2b => Ok(0)
    case 0x40 => Ok(0)
    case 0x44 => Ok(1)
    case 0x46 => Ok(4)
    case 0x66 => Ok(5)
    case 0x80 => Ok(0)
    case _ => Err(UnknownOpcode(opcode))
  }

  /** The operand block of `opcode` is `params`: sizing it from its own bytes
      gives back its length (for 0x09, the count byte that was peeked at is
      the count byte that was then consumed). */
  predicate WellSized(opcode: Byte, params: seq<Byte>) {
    CmdSize(opcode, Cur(params, 0)) == Ok(|params|)
  }

  /** One decoded command and the cursor just after it. */
  datatype Instruction = Instruction(opcode: Byte, params: seq<Byte>, next: Cur)

  /** Reads one opcode, sizes its operand block and reads exactly that block. */
  function Fetch(cur: Cur): (r: Result<Instruction>)
    ensures r.Ok? ==> cur.pos < |cur.bytes| && r.value.opcode == cur.bytes[cur.pos]
    ensures r.Ok? ==> r.value.next == Cur(cur.bytes, cur.pos + 1 + |r.value.params|)
    ensures r.Ok? ==> (r.value.next.pos <= |cur.bytes|
                       && r.value.params == cur.bytes[cur.pos + 1 .. r.value.next.pos])
    ensures r.Ok? ==> WellSized(r.value.opcode, r.value.params)
    ensures r.Ok? ==> r.value.next.Remaining() < cur.Remaining()
    ensures cur.Remaining() == 0 ==> r == Err(UnexpectedEndOfStream)
    ensures cur.Remaining() >= 1 && !IsKnownOpcode(cur.bytes[cur.pos])
            ==> r == Err(UnknownOpcode(cur.bytes[cur.pos]))
    ensures r.Err? ==> r.error == UnexpectedEndOfStream || r.error.UnknownOpcode?
    ensures r.Err? && r.error.UnknownOpcode? ==> cur.Remaining() >= 1 && !IsKnownOpcode(cur.bytes[cur.pos])
  {
    match cur.Next()
    case None => Err(UnexpectedEndOfStream)
    case Some((opcode, afterOpcode)) =>
      match CmdSize(opcode, afterOpcode)
      case Err(e) => Err(e)
      case Ok(n) =>
        match afterOpcode.NextN(n)
        case None => Err(UnexpectedEndOfStream)
        case Some((params, next)) => Ok(Instruction(opcode, params, next))
  }

  /** Decoding runs out of input exactly when the stream is empty, or the
      opcode is in the table and either its length cannot be worked out
      (a 0x09 without its count byte) or its operand block is cut short. */
  lemma FetchRunsOut(cur: Cur)
    ensures Fetch(cur) == Err(UnexpectedEndOfStream) <==>
      cur.Remaining() == 0
      || (IsKnownOpcode(cur.bytes[cur.pos])
          && var after := Cur(cur.bytes, cur.pos + 1);
             var n := CmdSize(cur.bytes[cur.pos], after);
             n.Err? || after.Remaining() < n.value)
  {
  }

  // ------------------------------------------------------------- dispatch

  /** The interpreter's registers. */
  datatype State = State(material: Byte, stackPos: Byte)

  /** The `u8` increment of the stack slot, wrapping at 256. */
  function Inc(p: Byte): (q: Byte)
    ensures q as int == (p as int + 1) % 256
  {
    if p == 255 then 0 else p + 1
  }

  /** The effect of one command: the sink calls made (in order, the last one
      possibly failing), the registers afterwards, and whether the run stops
      here (`Some(result)`) or goes on to the next command (`None`). */
  datatype Step = Step(calls: seq<SinkCall>, state: State, halt: Option<Result<()>>)

  /** One sink call whose failure stops the run. */
  function Call(accepts: SinkCall -> bool, c: SinkCall, st: State): Step {
    var r := Answer(accepts, c);
    Step([c], st, if r.Ok? then None else Some(r))
  }

  /** A weight byte as the fraction byte / 256. */
  function Weight(b: Byte): (w: real)
    ensures 0.0 <= w < 1.0
    ensures w * 256.0 == b as real
  {
    b as real / 256.0
  }

  /** Decodes `count` blend terms from consecutive (stack id, blend id,
      weight) triples. */
  function BlendTerms(triples: seq<Byte>, count: nat): (terms: seq<BlendTerm>)
    requires 3 * count <= |triples|
    ensures |terms| == count
    ensures forall i :: 0 <= i < count ==>
      terms[i] == BlendTerm(triples[3 * i], triples[3 * i + 1], Weight(triples[3 * i + 2]))
    decreases count
  {
    if count == 0 then []
    else [BlendTerm(triples[0], triples[1], Weight(triples[2]))] + BlendTerms(triples[3..], count - 1)
  }

  /** Commands 0x06, 0x26, 0x46, 0x66: optionally load a matrix to restore,
      multiply by an object matrix, store to a stack slot and advance the
      slot. params[1] (parent id) and params[2] (filler) reach no call. */
  function ExecObject(accepts: SinkCall -> bool, st: State, opcode: Byte, params: seq<Byte>): (s: Step)
    requires IsObjectOpcode(opcode)
    requires |params| == if opcode == 0x06 then 3 else if opcode == 0x66 then 5 else 4
    ensures s.state.material == st.material
    ensures opcode == 0x06 && s.halt.None? ==>
      s.calls == [MulByObject(params[0]), StoreMatrix(st.stackPos)]
      && s.state.stackPos == Inc(st.stackPos)
    ensures opcode == 0x26 && s.halt.None? ==>
      s.calls == [MulByObject(params[0]), StoreMatrix(params[3])]
      && s.state.stackPos == Inc(params[3])
    ensures opcode == 0x46 && s.halt.None? ==>
      s.calls == [LoadMatrix(params[3]), MulByObject(params[0]), StoreMatrix(st.stackPos)]
      && s.state.stackPos == Inc(st.stackPos)
    ensures opcode == 0x66 && s.halt.None? ==>
      s.calls == [LoadMatrix(params[4]), MulByObject(params[0]), StoreMatrix(params[3])]
      && s.state.stackPos == Inc(params[3])
    ensures s.halt.Some? ==> s.halt.value == Err(SinkError) && s.calls != []
  {
    var objectId := params[0];
    var stackId: Option<Byte> := if opcode == 0x26 || opcode == 0x66 then Some(params[3]) else None;
    var restoreId: Option<Byte> :=
      if opcode == 0x46 then Some(params[3]) else if opcode == 0x66 then Some(params[4]) else None;
    var restore := if restoreId.Some? then [LoadMatrix(restoreId.value)] else [];
    if restoreId.Some? && !accepts(LoadMatrix(restoreId.value)) then
      Step(restore, st, Some(Err(SinkError)))
    else if !accepts(MulByObject(objectId)) then
      Step(restore + [MulByObject(objectId)], st, Some(Err(SinkError)))
    else
      // an explicit slot is written to the register before the store
      var st' := if stackId.Some? then st.(stackPos := stackId.value) else st;
      var calls := restore + [MulByObject(objectId), StoreMatrix(st'.stackPos)];
      if !accepts(StoreMatrix(st'.stackPos)) then Step(calls, st', Some(Err(SinkError)))
      else Step(calls, st'.(stackPos := Inc(st'.stackPos)), None)
  }

  /** The registers an object command leaves behind when the renderer
      rejects one of its calls: a rejected store comes after the explicit
      slot was written to the register, any other rejection leaves the
      registers as they were. */
  lemma ObjectHaltState(accepts: SinkCall -> bool, st: State, opcode: Byte, params: seq<Byte>)
    requires IsObjectOpcode(opcode)
    requires |params| == if opcode == 0x06 then 3 else if opcode == 0x66 then 5 else 4
    ensures var s := ExecObject(accepts, st, opcode, params);
      s.halt.Some? ==>
        s.state == if s.calls[|s.calls| - 1].StoreMatrix? && (opcode == 0x26 || opcode == 0x66)
                   then st.(stackPos := params[3]) else st
  {
  }

  /** Command 0x09: one blend of up to four weighted terms into a stack
      slot, which then becomes the current slot (no advance). */
  function ExecBlend(accepts: SinkCall -> bool, st: State, params: seq<Byte>): (s: Step)
    requires 2 <= |params| && |params| == 2 + 3 * (params[1] as int)
    ensures s.state.material == st.material
    ensures params[1] > 4 ==> s == Step([], st, Some(Err(InvalidBlendTermCount(params[1]))))
    ensures params[1] <= 4 ==>
      |s.calls| == 1 && s.calls[0].Blend? && s.calls[0].stackPos == params[0]
      && |s.calls[0].terms| == params[1]
      && (forall i: int :: 0 <= i < params[1] as int ==>
            s.calls[0].terms[i] == BlendTerm(params[2 + 3 * i], params[3 + 3 * i], Weight(params[4 + 3 * i])))
    ensures params[1] <= 4 ==>
      (s.halt.None? <==> accepts(s.calls[0])) && (s.halt.Some? ==> s.halt.value == Err(SinkError))
    ensures params[1] <= 4 && s.halt.None? ==> s.state.stackPos == params[0]
    ensures s.halt.Some? ==> s.state == st
  {
    var stackPos := params[0];
    var count := params[1];
    if count > 4 then Step([], st, Some(Err(InvalidBlendTermCount(count))))
    else
      var c := Blend(stackPos, BlendTerms(params[2..], count));
      if accepts(c) then Step([c], st.(stackPos := stackPos), None)
      else Step([c], st, Some(Err(SinkError)))
  }

  /** The effect of one decoded command. */
  function Exec(accepts: SinkCall -> bool, st: State, opcode: Byte, params: seq<Byte>): (s: Step)
    requires WellSized(opcode, params)
    ensures s.halt == Some(Ok(())) <==> opcode == 0x01
    ensures opcode == 0x01 ==> s.calls == [] && s.state == st
    ensures IsInertOpcode(opcode) ==> s == Step([], st, None)
    ensures IsMaterialOpcode(opcode) ==> s == Step([], st.(material := params[0]), None)
    ensures !IsMaterialOpcode(opcode) ==> s.state.material == st.material
    ensures opcode == 0x03 ==> s.calls == [LoadMatrix(params[0])] && s.state == st
    ensures opcode == 0x05 ==> s.calls == [Draw(params[0], st.material)] && s.state == st
    ensures !IsObjectOpcode(opcode) && opcode != BlendOpcode ==> s.state.stackPos == st.stackPos
    ensures opcode == 0x03 || opcode == 0x05 || (opcode == BlendOpcode && params[1] <= 4) ==>
      |s.calls| == 1 && (s.halt.None? <==> accepts(s.calls[0])) && (s.halt.Some? ==> s.halt.value == Err(SinkError))
  {
    match opcode
    case 0x01 => Step([], st, Some(Ok(())))
    case 0x03 => Call(accepts, LoadMatrix(params[0]), st)
    case 0x04 | 0x24 | 0x44 => Step([], st.(material := params[0]), None)
    case 0x05 => Call(accepts, Draw(params[0], st.material), st)
    case 0x06 | 0x26 | 0x46 | 0x66 => ExecObject(accepts, st, opcode, params)
    case 0x09 => ExecBlend(accepts, st, params)
    case _ => Step([], st, None)
  }

  /** The object commands take effect as `ExecObject` says and the blend
      command as `ExecBlend` says. */
  lemma ExecDispatch(accepts: SinkCall -> bool, st: State, opcode: Byte, params: seq<Byte>)
    requires WellSized(opcode, params)
    ensures IsObjectOpcode(opcode) ==> Exec(accepts, st, opcode, params) == ExecObject(accepts, st, opcode, params)
    ensures opcode == BlendOpcode ==> Exec(accepts, st, opcode, params) == ExecBlend(accepts, st, params)
  {
  }

  // ------------------------------------------------------------------ run

  /** How a run ends: its result, every sink call made, and the registers. */
  datatype RunOutcome = RunOutcome(result: Result<()>, calls: seq<SinkCall>, state: State)

  /** `o` preceded by the calls of earlier commands. */
  function Then(earlier: seq<SinkCall>, o: RunOutcome): RunOutcome {
    o.(calls := earlier + o.calls)
  }

  /** The whole run from `cur` with registers `st`: command after command
      until one halts or a command cannot be decoded. A run only fails on the
      renderer after calling it. */
  function Run(accepts: SinkCall -> bool, cur: Cur, st: State): (o: RunOutcome)
    ensures o.result == Err(SinkError) ==> o.calls != []
    decreases cur.Remaining(), 1
  {
    match Fetch(cur)
    case Err(e) => RunOutcome(Err(e), [], st)
    case Ok(ins) => Continue(accepts, ins, st)
  }

  /** The run from a decoded command on: its effect, then (unless it halts)
      the run from the cursor after it. */
  function Continue(accepts: SinkCall -> bool, ins: Instruction, st: State): (o: RunOutcome)
    requires WellSized(ins.opcode, ins.params)
    ensures o.result == Err(SinkError) ==> o.calls != []
    decreases ins.next.Remaining() + 1, 0
  {
    var s := Exec(accepts, st, ins.opcode, ins.params);
    if s.halt.Some? then RunOutcome(s.halt.value, s.calls, s.state)
    else Then(s.calls, Run(accepts, ins.next, s.state))
  }

  /** Run takes one command step, as its definition says; stated once so
      that the interpreter loop does not unfold the definition itself. */
  lemma RunStep(accepts: SinkCall -> bool, cur: Cur, st: State)
    ensures Fetch(cur).Err? ==> Run(accepts, cur, st) == RunOutcome(Err(Fetch(cur).error), [], st)
    ensures Fetch(cur).Ok? ==>
      var ins := Fetch(cur).value;
      var s := Exec(accepts, st, ins.opcode, ins.params);
      Run(accepts, cur, st) ==
        if s.halt.Some? then RunOutcome(s.halt.value, s.calls, s.state)
        else Then(s.calls, Run(accepts, ins.next, s.state))
  {
  }

  lemma ConcatAssoc(a: seq<SinkCall>, b: seq<SinkCall>, c: seq<SinkCall>)
    ensures a + (b + c) == (a + b) + c
  {
  }

  // ---------------------------------------------------------- interpreter

  /** Fills the fixed four-slot term buffer from the operand block of a
      blend command and returns its first `count` slots. */
  method FillBlendTerms(params: seq<Byte>, count: nat) returns (terms: seq<BlendTerm>)
    requires count <= 4 && |params| == 2 + 3 * count
    ensures terms == BlendTerms(params[2..], count)
  {
    var slots := new BlendTerm[4](_ => BlendTerm(0, 0, 0.0));
    var paramIdx := 2;
    for i := 0 to count
      invariant paramIdx == 2 + 3 * i
      invariant forall k :: 0 <= k < i ==>
        slots[k] == BlendTerm(params[2 + 3 * k], params[3 + 3 * k], Weight(params[4 + 3 * k]))
    {
      slots[i] := BlendTerm(params[paramIdx], params[paramIdx + 1], Weight(params[paramIdx + 2]));
      paramIdx := paramIdx + 3;
    }
    terms := slots[..count];
    ghost var expected := BlendTerms(params[2..], count);
    assert forall k :: 0 <= k < count ==> terms[k] == expected[k];
  }

  class RenderInterpreterState {
    var curMaterial: Byte
    var curStackPos: Byte

    function Registers(): State
      reads this
    {
      State(curMaterial, curStackPos)
    }

    constructor ()
      ensures Registers() == State(0, 0)
    {
      curMaterial := 0;
      curStackPos := 0;
    }

    /** Carries out one decoded command. */
    method Execute(sink: Sink, opcode: Byte, params: seq<Byte>) returns (halt: Option<Result<()>>)
      requires WellSized(opcode, params)
      modifies this, sink
      ensures var s := Exec(sink.accepts, old(Registers()), opcode, params);
        halt == s.halt && sink.calls == old(sink.calls) + s.calls && Registers() == s.state
    {
      halt := None;
      match opcode
      case 0x00 =>
        // no-op
      case 0x01 =>
        // end of the render commands
        return Some(Ok(()));
      case 0x02 =>
        // reserved
      case 0x03 =>
        var r := sink.LoadMatrix(params[0]);
        if r.Err? { return Some(r); }
      case 0x04 | 0x24 | 0x44 =>
        curMaterial := params[0];
      case 0x05 =>
        var r := sink.Draw(params[0], curMaterial);
        if r.Err? { return Some(r); }
      case 0x06 | 0x26 | 0x46 | 0x66 =>
        halt := ExecuteObject(sink, opcode, params);
      case 0x09 =>
        halt := ExecuteBlend(sink, params);
      case _ =>
        // in the length table but without a handler: skipped
    }

    method ExecuteObject(sink: Sink, opcode: Byte, params: seq<Byte>) returns (halt: Option<Result<()>>)
      requires IsObjectOpcode(opcode)
      requires |params| == if opcode == 0x06 then 3 else if opcode == 0x66 then 5 else 4
      modifies this, sink
      ensures var s := ExecObject(sink.accepts, old(Registers()), opcode, params);
        halt == s.halt && sink.calls == old(sink.calls) + s.calls && Registers() == s.state
    {
      var objectId := params[0];
      var stackId: Option<Byte> := None;
      var restoreId: Option<Byte> := None;
      if opcode == 0x26 {
        stackId := Some(params[3]);
      } else if opcode == 0x46 {
        restoreId := Some(params[3]);
      } else if opcode == 0x66 {
        stackId, restoreId := Some(params[3]), Some(params[4]);
      }
      ghost var restore := if restoreId.Some? then [SinkCall.LoadMatrix(restoreId.value)] else [];
      if restoreId.Some? {
        var r := sink.LoadMatrix(restoreId.value);
        if r.Err? { return Some(r); }
      }
      assert sink.calls == old(sink.calls) + restore;
      var r := sink.MulByObject(objectId);
      if r.Err? {
        assert sink.calls == old(sink.calls) + (restore + [SinkCall.MulByObject(objectId)]);
        return Some(r);
      }
      if stackId.Some? {
        curStackPos := stackId.value;
      }
      r := sink.StoreMatrix(curStackPos);
      assert sink.calls == old(sink.calls)
        + (restore + [SinkCall.MulByObject(objectId), SinkCall.StoreMatrix(curStackPos)]);
      if r.Err? { return Some(r); }
      curStackPos := Inc(curStackPos);
      halt := None;
    }

    method ExecuteBlend(sink: Sink, params: seq<Byte>) returns (halt: Option<Result<()>>)
      requires 2 <= |params| && |params| == 2 + 3 * (params[1] as int)
      modifies this, sink
      ensures var s := ExecBlend(sink.accepts, old(Registers()), params);
        halt == s.halt && sink.calls == old(sink.calls) + s.calls && Registers() == s.state
    {
      var stackPos := params[0];
      var count := params[1];
      if count > 4 {
        return Some(Err(InvalidBlendTermCount(count)));
      }
      var terms := FillBlendTerms(params, count);
      var r := sink.Blend(stackPos, terms);
      if r.Err? { return Some(r); }
      curStackPos := stackPos;
      halt := None;
    }

    /** Runs commands from `cur` until the end command or the first error. */
    method RunCommands(sink: Sink, cur: Cur) returns (r: Result<()>)
      modifies this, sink
      ensures var o := Run(sink.accepts, cur, old(Registers()));
        r == o.result && sink.calls == old(sink.calls) + o.calls && Registers() == o.state
    {
      var c := cur;
      ghost var made: seq<SinkCall> := [];
      while true
        invariant sink.calls == old(sink.calls) + made
        invariant Run(sink.accepts, cur, old(Registers())) == Then(made, Run(sink.accepts, c, Registers()))
        decreases c.Remaining()
      {
        ghost var start, before := c, Registers();
        assert made + [] == made;
        var next := c.Next();
        RunStep(sink.accepts, start, before);
        if next.None? {
          return Err(UnexpectedEndOfStream);
        }
        var opcode := next.value.0;
        c := next.value.1;
        var size := CmdSize(opcode, c);
        if size.Err? {
          return Err(size.error);
        }
        var operands := c.NextN(size.value);
        if operands.None? {
          return Err(UnexpectedEndOfStream);
        }
        var params := operands.value.0;
        c := operands.value.1;
        assert Fetch(start) == Ok(Instruction(opcode, params, c));
        ghost var s := Exec(sink.accepts, before, opcode, params);
        var halt := Execute(sink, opcode, params);
        if halt.Some? {
          ConcatAssoc(old(sink.calls), made, s.calls);
          return halt.value;
        }
        ConcatAssoc(made, s.calls, Run(sink.accepts, c, s.state).calls);
        ConcatAssoc(old(sink.calls), made, s.calls);
        made := made + s.calls;
      }
    }
  }

  /** Entry point: a fresh interpreter runs one command stream. */
  method RunCommands(cur: Cur, sink: Sink) returns (r: Result<()>)
    modifies sink
    ensures var o := Run(sink.accepts, cur, State(0, 0));
      r == o.result && sink.calls == old(sink.calls) + o.calls
  {
    var state := new RenderInterpreterState();
    r := state.RunCommands(sink, cur);
  }
}
