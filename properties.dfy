/** Properties of the render-command interpreter that relate several
    commands, several runs or several sinks. */
module RenderCmdsProperties {
  import opened Cursor
  import opened RenderCmds

  /** A renderer that carries out every call. */
  function AcceptAll(c: SinkCall): bool { true }

  /** Every call in `calls` was carried out. */
  predicate AllAccepted(accepts: SinkCall -> bool, calls: seq<SinkCall>) {
    forall i :: 0 <= i < |calls| ==> accepts(calls[i])
  }

  lemma AllAcceptedConcat(accepts: SinkCall -> bool, a: seq<SinkCall>, b: seq<SinkCall>)
    requires AllAccepted(accepts, a) && AllAccepted(accepts, b)
    ensures AllAccepted(accepts, a + b)
  {
  }

  // ------------------------------------------------------ sink failures

  /** A failing sink call ends the command: it is the last call made, every
      earlier call succeeded, and the calls made are the ones a sink that
      accepts everything would have received, cut short. A command that does
      not fail on the sink behaves as with a sink that accepts everything. */
  lemma ExecStopsAtFirstRejectedCall(accepts: SinkCall -> bool, st: State, opcode: Byte, params: seq<Byte>)
    requires WellSized(opcode, params)
    ensures var s := Exec(accepts, st, opcode, params);
      && (s.halt == Some(Err(SinkError)) ==>
            s.calls != [] && AllAccepted(accepts, s.calls[..|s.calls| - 1]) && !accepts(s.calls[|s.calls| - 1]))
      && (s.halt != Some(Err(SinkError)) ==>
            AllAccepted(accepts, s.calls) && s == Exec(AcceptAll, st, opcode, params))
      && s.calls <= Exec(AcceptAll, st, opcode, params).calls
  {
    if IsObjectOpcode(opcode) {
      ObjectStopsAtFirstRejectedCall(accepts, st, opcode, params);
    }
  }

  /** `ExecStopsAtFirstRejectedCall` for the object commands, whose three
      calls can each fail. */
  lemma ObjectStopsAtFirstRejectedCall(accepts: SinkCall -> bool, st: State, opcode: Byte, params: seq<Byte>)
    requires IsObjectOpcode(opcode)
    requires |params| == if opcode == 0x06 then 3 else if opcode == 0x66 then 5 else 4
    ensures var s := ExecObject(accepts, st, opcode, params);
      && (s.halt.Some? ==>
            s.calls != [] && AllAccepted(accepts, s.calls[..|s.calls| - 1]) && !accepts(s.calls[|s.calls| - 1]))
      && (s.halt.None? ==> AllAccepted(accepts, s.calls) && s == ExecObject(AcceptAll, st, opcode, params))
      && s.calls <= ExecObject(AcceptAll, st, opcode, params).calls
  {
    ObjectHaltsOnRejectedCall(accepts, st, opcode, params);
    ObjectGoesOnAsAcceptAll(accepts, st, opcode, params);
  }

  lemma ObjectHaltsOnRejectedCall(accepts: SinkCall -> bool, st: State, opcode: Byte, params: seq<Byte>)
    requires IsObjectOpcode(opcode)
    requires |params| == if opcode == 0x06 then 3 else if opcode == 0x66 then 5 else 4
    ensures var s := ExecObject(accepts, st, opcode, params);
      s.halt.Some? ==>
        s.calls != [] && AllAccepted(accepts, s.calls[..|s.calls| - 1]) && !accepts(s.calls[|s.calls| - 1])
  {
  }

  lemma ObjectGoesOnAsAcceptAll(accepts: SinkCall -> bool, st: State, opcode: Byte, params: seq<Byte>)
    requires IsObjectOpcode(opcode)
    requires |params| == if opcode == 0x06 then 3 else if opcode == 0x66 then 5 else 4
    ensures var s, t := ExecObject(accepts, st, opcode, params), ExecObject(AcceptAll, st, opcode, params);
      && (s.halt.None? ==> AllAccepted(accepts, s.calls) && s == t)
      && s.calls <= t.calls
  {
    var t := ExecObject(AcceptAll, st, opcode, params);
    assert t.halt.None?;
  }

  /** Over a whole run: a run that ends on a sink failure ends with the
      failing call, all earlier calls having succeeded; any other run had
      all of its calls carried out. */
  lemma {:induction false} RunStopsAtFirstRejectedCall(accepts: SinkCall -> bool, cur: Cur, st: State)
    ensures var o := Run(accepts, cur, st);
      && (o.result == Err(SinkError) ==>
            o.calls != [] && AllAccepted(accepts, o.calls[..|o.calls| - 1]) && !accepts(o.calls[|o.calls| - 1]))
      && (o.result != Err(SinkError) ==> AllAccepted(accepts, o.calls))
    decreases cur.Remaining()
  {
    RunStep(accepts, cur, st);
    match Fetch(cur)
    case Err(_) =>
    case Ok(ins) =>
      var s := Exec(accepts, st, ins.opcode, ins.params);
      ExecStopsAtFirstRejectedCall(accepts, st, ins.opcode, ins.params);
      if s.halt.Some? {
        assert Run(accepts, cur, st) == RunOutcome(s.halt.value, s.calls, s.state);
      } else {
        RunStopsAtFirstRejectedCall(accepts, ins.next, s.state);
        var o' := Run(accepts, ins.next, s.state);
        assert Run(accepts, cur, st) == RunOutcome(o'.result, s.calls + o'.calls, o'.state);
        AcceptedThenStops(accepts, s.calls, o'.result, o'.calls);
      }
  }

  /** Accepted calls followed by calls that stop at their first rejection
      still stop at their first rejection. */
  lemma AcceptedThenStops(accepts: SinkCall -> bool, earlier: seq<SinkCall>, result: Result<()>, later: seq<SinkCall>)
    requires AllAccepted(accepts, earlier)
    requires result == Err(SinkError) ==>
      later != [] && AllAccepted(accepts, later[..|later| - 1]) && !accepts(later[|later| - 1])
    requires result != Err(SinkError) ==> AllAccepted(accepts, later)
    ensures var calls := earlier + later;
      && (result == Err(SinkError) ==>
            calls != [] && AllAccepted(accepts, calls[..|calls| - 1]) && !accepts(calls[|calls| - 1]))
      && (result != Err(SinkError) ==> AllAccepted(accepts, calls))
  {
    var calls := earlier + later;
    if result == Err(SinkError) {
      assert calls[..|calls| - 1] == earlier + later[..|later| - 1];
      AllAcceptedConcat(accepts, earlier, later[..|later| - 1]);
    } else {
      AllAcceptedConcat(accepts, earlier, later);
    }
  }

  /** The calls a run makes on a failing sink are a prefix of the calls it
      makes on a sink that accepts everything; unless the sink failed, the
      two runs are the same. */
  lemma {:induction false} FailingSinkCutsTraceShort(accepts: SinkCall -> bool, cur: Cur, st: State)
    ensures Run(accepts, cur, st).calls <= Run(AcceptAll, cur, st).calls
    ensures Run(accepts, cur, st).result != Err(SinkError) ==> Run(accepts, cur, st) == Run(AcceptAll, cur, st)
    decreases cur.Remaining()
  {
    RunStep(accepts, cur, st);
    RunStep(AcceptAll, cur, st);
    match Fetch(cur)
    case Err(_) =>
    case Ok(ins) =>
      var s := Exec(accepts, st, ins.opcode, ins.params);
      ExecStopsAtFirstRejectedCall(accepts, st, ins.opcode, ins.params);
      if s.halt == Some(Err(SinkError)) {
        var t := Exec(AcceptAll, st, ins.opcode, ins.params);
        assert s.calls <= t.calls;
        assert t.calls <= Run(AcceptAll, cur, st).calls;
      } else if s.halt.None? {
        FailingSinkCutsTraceShort(accepts, ins.next, s.state);
      }
  }

  // ------------------------------------------------------- stream shape

  /** The end command stops the run at once, with no call, whatever follows. */
  lemma TerminatorEndsRun(accepts: SinkCall -> bool, bytes: seq<Byte>, pos: nat, st: State)
    requires pos < |bytes| && bytes[pos] == 0x01
    ensures Run(accepts, Cur(bytes, pos), st) == RunOutcome(Ok(()), [], st)
  {
  }

  /** The run from `cur` with registers `st` decodes an end command at
      position `p`: every command before it is decoded and lets the run go
      on. */
  predicate ReachesEnd(accepts: SinkCall -> bool, cur: Cur, st: State, p: nat)
    decreases cur.Remaining()
  {
    match Fetch(cur)
    case Err(_) => false
    case Ok(ins) =>
      (ins.opcode == 0x01 && cur.pos == p)
      || (var s := Exec(accepts, st, ins.opcode, ins.params);
          s.halt.None? && ReachesEnd(accepts, ins.next, s.state, p))
  }

  /** Only the end command lets a run succeed: a run returns Ok exactly when
      it decodes an end command, and that command is a 0x01 byte at or after
      the start. */
  lemma RunSucceedsOnlyAtTerminator(accepts: SinkCall -> bool, cur: Cur, st: State)
    ensures Run(accepts, cur, st).result == Ok(()) <==> exists p: nat :: ReachesEnd(accepts, cur, st, p)
    ensures forall p: nat :: ReachesEnd(accepts, cur, st, p) ==>
      cur.pos <= p < |cur.bytes| && cur.bytes[p] == 0x01
  {
    if Run(accepts, cur, st).result == Ok(()) {
      SucceedingRunReachesEnd(accepts, cur, st);
    }
    forall p: nat | ReachesEnd(accepts, cur, st, p)
      ensures Run(accepts, cur, st).result == Ok(())
      ensures cur.pos <= p < |cur.bytes| && cur.bytes[p] == 0x01
    {
      ReachedEndSucceeds(accepts, cur, st, p);
    }
  }

  lemma {:induction false} SucceedingRunReachesEnd(accepts: SinkCall -> bool, cur: Cur, st: State)
    requires Run(accepts, cur, st).result == Ok(())
    ensures exists p: nat :: ReachesEnd(accepts, cur, st, p)
    decreases cur.Remaining()
  {
    RunStep(accepts, cur, st);
    var ins := Fetch(cur).value;
    var s := Exec(accepts, st, ins.opcode, ins.params);
    if s.halt.Some? {
      assert ReachesEnd(accepts, cur, st, cur.pos);
    } else {
      SucceedingRunReachesEnd(accepts, ins.next, s.state);
      var p: nat :| ReachesEnd(accepts, ins.next, s.state, p);
      assert ReachesEnd(accepts, cur, st, p);
    }
  }

  lemma {:induction false} ReachedEndSucceeds(accepts: SinkCall -> bool, cur: Cur, st: State, p: nat)
    requires ReachesEnd(accepts, cur, st, p)
    ensures Run(accepts, cur, st).result == Ok(())
    ensures cur.pos <= p < |cur.bytes| && cur.bytes[p] == 0x01
    decreases cur.Remaining()
  {
    RunStep(accepts, cur, st);
    var ins := Fetch(cur).value;
    var s := Exec(accepts, st, ins.opcode, ins.params);
    if !(ins.opcode == 0x01 && cur.pos == p) {
      ReachedEndSucceeds(accepts, ins.next, s.state, p);
    }
  }

  /** Every complete command of the length table decodes: the opcode is in
      the table, its length can be worked out and its whole operand block is
      present. */
  lemma CompleteCommandDecodes(cur: Cur)
    requires cur.Remaining() >= 1 && IsKnownOpcode(cur.bytes[cur.pos])
    requires var after := Cur(cur.bytes, cur.pos + 1);
      var n := CmdSize(cur.bytes[cur.pos], after);
      n.Ok? && n.value <= after.Remaining()
    ensures Fetch(cur).Ok?
    ensures Fetch(cur).value.next.pos == cur.pos + 1 + CmdSize(cur.bytes[cur.pos], Cur(cur.bytes, cur.pos + 1)).value
  {
    FetchRunsOut(cur);
  }

  /** Decoding a command never looks past the command: bytes appended to the
      stream do not change a decode that did not run out of input. */
  lemma FetchIgnoresTrailingBytes(bytes: seq<Byte>, extra: seq<Byte>, pos: nat)
    requires Fetch(Cur(bytes, pos)) != Err(UnexpectedEndOfStream)
    ensures var r, r' := Fetch(Cur(bytes, pos)), Fetch(Cur(bytes + extra, pos));
      && r'.Ok? == r.Ok?
      && (r.Err? ==> r' == r)
      && (r.Ok? ==> r'.value == r.value.(next := Cur(bytes + extra, r.value.next.pos)))
  {
    FetchRunsOut(Cur(bytes, pos));
    assert (bytes + extra)[pos] == bytes[pos];
    if IsKnownOpcode(bytes[pos]) {
      CompleteCommandIgnoresTrailingBytes(bytes, extra, pos);
    }
  }

  /** `FetchIgnoresTrailingBytes` for a complete command of the table. */
  lemma CompleteCommandIgnoresTrailingBytes(bytes: seq<Byte>, extra: seq<Byte>, pos: nat)
    requires pos < |bytes| && IsKnownOpcode(bytes[pos])
    requires var n := CmdSize(bytes[pos], Cur(bytes, pos + 1)); n.Ok? && n.value <= |bytes| - pos - 1
    ensures Fetch(Cur(bytes, pos)).Ok? && Fetch(Cur(bytes + extra, pos)).Ok?
    ensures Fetch(Cur(bytes + extra, pos)).value ==
      Fetch(Cur(bytes, pos)).value.(next := Cur(bytes + extra, Fetch(Cur(bytes, pos)).value.next.pos))
  {
    var opcode := bytes[pos];
    assert (bytes + extra)[pos] == opcode;
    CmdSizeIgnoresTrailingBytes(opcode, bytes, extra, pos + 1);
    var n := CmdSize(opcode, Cur(bytes, pos + 1)).value;
    CompleteCommandDecodes(Cur(bytes, pos));
    CompleteCommandDecodes(Cur(bytes + extra, pos));
    var ins, ins' := Fetch(Cur(bytes, pos)).value, Fetch(Cur(bytes + extra, pos)).value;
    assert ins'.next.pos == ins.next.pos == pos + 1 + n;
    assert (bytes + extra)[pos + 1 .. pos + 1 + n] == bytes[pos + 1 .. pos + 1 + n];
    assert ins'.params == ins.params;
  }

  /** The operand count of a command that fits in the stream does not
      depend on bytes appended to the stream. */
  lemma CmdSizeIgnoresTrailingBytes(opcode: Byte, bytes: seq<Byte>, extra: seq<Byte>, pos: nat)
    requires IsKnownOpcode(opcode) && pos <= |bytes|
    requires var n := CmdSize(opcode, Cur(bytes, pos)); n.Ok? && n.value <= |bytes| - pos
    ensures CmdSize(opcode, Cur(bytes + extra, pos)) == CmdSize(opcode, Cur(bytes, pos))
  {
    if opcode == BlendOpcode {
      assert (bytes + extra)[pos + 1] == bytes[pos + 1];
    }
  }

  /** A run that did not run out of input is unaffected by bytes appended to
      the stream; in particular everything after the end command is ignored. */
  lemma {:induction false} RunIgnoresTrailingBytes(
    accepts: SinkCall -> bool, bytes: seq<Byte>, extra: seq<Byte>, pos: nat, st: State)
    requires Run(accepts, Cur(bytes, pos), st).result != Err(UnexpectedEndOfStream)
    ensures Run(accepts, Cur(bytes + extra, pos), st) == Run(accepts, Cur(bytes, pos), st)
    decreases Cur(bytes, pos).Remaining()
  {
    var cur, cur' := Cur(bytes, pos), Cur(bytes + extra, pos);
    RunStep(accepts, cur, st);
    RunStep(accepts, cur', st);
    FetchIgnoresTrailingBytes(bytes, extra, pos);
    match Fetch(cur)
    case Err(_) =>
    case Ok(ins) =>
      var s := Exec(accepts, st, ins.opcode, ins.params);
      if s.halt.None? {
        RunIgnoresTrailingBytes(accepts, bytes, extra, ins.next.pos, s.state);
      }
  }

  /** A stream that ends inside a command (at its opcode or inside its operand
      block) fails with end-of-stream, and that command makes no sink call. */
  lemma TruncatedCommandFails(accepts: SinkCall -> bool, bytes: seq<Byte>, pos: nat, cut: nat, st: State)
    requires Fetch(Cur(bytes, pos)).Ok?
    requires pos <= cut < Fetch(Cur(bytes, pos)).value.next.pos
    ensures Run(accepts, Cur(bytes[..cut], pos), st) == RunOutcome(Err(UnexpectedEndOfStream), [], st)
  {
    var short := Cur(bytes[..cut], pos);
    if cut > pos {
      var opcode := bytes[pos];
      assert bytes[..cut][pos] == opcode;
      var after, after' := Cur(bytes[..cut], pos + 1), Cur(bytes, pos + 1);
      if opcode == BlendOpcode && cut > pos + 2 {
        assert bytes[..cut][pos + 2] == bytes[pos + 2];
        assert CmdSize(opcode, after) == CmdSize(opcode, after');
      }
    }
    assert Fetch(short) == Err(UnexpectedEndOfStream);
    RunStep(accepts, short, st);
  }

  // ---------------------------------------------------- register effects

  /** A draw right after a material command uses that material. */
  lemma DrawUsesLatestMaterial(accepts: SinkCall -> bool, bytes: seq<Byte>, pos: nat, st: State)
    requires pos + 3 < |bytes|
    requires IsMaterialOpcode(bytes[pos]) && bytes[pos + 2] == 0x05
    ensures var o := Run(accepts, Cur(bytes, pos), st);
      |o.calls| >= 1 && o.calls[0] == Draw(bytes[pos + 3], bytes[pos + 1])
  {
    RunStep(accepts, Cur(bytes, pos), st);
    assert Fetch(Cur(bytes, pos)).value.params == [bytes[pos + 1]];
    RunStep(accepts, Cur(bytes, pos + 2), st.(material := bytes[pos + 1]));
    assert Fetch(Cur(bytes, pos + 2)).value.params == [bytes[pos + 3]];
  }

  lemma IncShift(p: Byte, k: nat, n: nat)
    requires n == k + 1
    ensures (Inc(p) as int + k) % 256 == (p as int + n) % 256
  {
    if p == 255 {
      assert p as int + n == k + 256;
    }
  }

  /** One 0x06 command with a sink that accepts everything: multiply by the
      object, store to the current slot, advance the slot, go on four bytes
      later. */
  lemma ObjectCommandStep(bytes: seq<Byte>, pos: nat, st: State)
    requires pos + 3 < |bytes| && bytes[pos] == 0x06
    ensures Run(AcceptAll, Cur(bytes, pos), st)
         == Then([MulByObject(bytes[pos + 1]), StoreMatrix(st.stackPos)],
                 Run(AcceptAll, Cur(bytes, pos + 4), st.(stackPos := Inc(st.stackPos))))
  {
    RunStep(AcceptAll, Cur(bytes, pos), st);
    var params := bytes[pos + 1 .. pos + 4];
    assert Fetch(Cur(bytes, pos)) == Ok(Instruction(0x06, params, Cur(bytes, pos + 4)));
    ExecStopsAtFirstRejectedCall(AcceptAll, st, 0x06, params);
  }

  /** The calls of a chain of 0x06 commands, one multiply-and-store per
      object, storing from `slot` upwards. */
  function ChainCalls(objects: seq<Byte>, slot: Byte): (calls: seq<SinkCall>)
    ensures |calls| == 2 * |objects|
    decreases |objects|
  {
    if objects == [] then []
    else [MulByObject(objects[0]), StoreMatrix(slot)] + ChainCalls(objects[1..], Inc(slot))
  }

  /** The i-th object of a chain is multiplied in by call 2i and stored, by
      call 2i + 1, i slots above the starting slot. */
  lemma {:induction false} ChainCallsAt(objects: seq<Byte>, slot: Byte, i: nat)
    requires i < |objects|
    ensures ChainCalls(objects, slot)[2 * i] == MulByObject(objects[i])
    ensures ChainCalls(objects, slot)[2 * i + 1] == StoreMatrix((slot as int + i) % 256)
    decreases i
  {
    if i > 0 {
      ChainCallsAt(objects[1..], Inc(slot), i - 1);
      IncShift(slot, i - 1, i);
      var rest := ChainCalls(objects[1..], Inc(slot));
      assert ChainCalls(objects, slot) == [MulByObject(objects[0]), StoreMatrix(slot)] + rest;
      assert ChainCalls(objects, slot)[2 * i] == rest[2 * (i - 1)];
      assert ChainCalls(objects, slot)[2 * i + 1] == rest[2 * (i - 1) + 1];
    }
  }

  /** The slot reached from `p` by `n` wrapping increments. */
  function Advance(p: Byte, n: nat): Byte
    decreases n
  {
    if n == 0 then p else Advance(Inc(p), n - 1)
  }

  /** `n` increments of a `u8` slot move it `n` places modulo 256. */
  lemma {:induction false} AdvanceIsModular(p: Byte, n: nat)
    ensures Advance(p, n) as int == (p as int + n) % 256
    decreases n
  {
    if n > 0 {
      AdvanceIsModular(Inc(p), n - 1);
      IncShift(p, n - 1, n);
    }
  }

  /** A chain of 0x06 commands, ended by 0x01, multiplies by each object in
      turn and stores the results in consecutive stack slots starting at the
      current one (see `ChainCalls`), and leaves the slot register one past
      the last slot used, wrapping at 256 (see `AdvanceIsModular`); no matrix
      is loaded. The parent and filler operand bytes play no part. */
  lemma {:induction false} ObjectChainFillsConsecutiveSlots(bytes: seq<Byte>, pos: nat, objects: seq<Byte>, st: State)
    requires pos + 4 * |objects| < |bytes|
    requires forall i :: 0 <= i < |objects| ==> bytes[pos + 4 * i] == 0x06 && bytes[pos + 4 * i + 1] == objects[i]
    requires bytes[pos + 4 * |objects|] == 0x01
    ensures Run(AcceptAll, Cur(bytes, pos), st)
         == RunOutcome(Ok(()), ChainCalls(objects, st.stackPos), State(st.material, Advance(st.stackPos, |objects|)))
    decreases |objects|
  {
    if |objects| == 0 {
      TerminatorEndsRun(AcceptAll, bytes, pos, st);
    } else {
      assert bytes[pos] == 0x06 && bytes[pos + 1] == objects[0] by {
        assert bytes[pos + 4 * 0] == 0x06 && bytes[pos + 4 * 0 + 1] == objects[0];
      }
      var rest := objects[1..];
      forall i | 0 <= i < |rest|
        ensures bytes[pos + 4 + 4 * i] == 0x06 && bytes[pos + 4 + 4 * i + 1] == rest[i]
      {
        assert objects[i + 1] == rest[i];
        assert pos + 4 * (i + 1) == pos + 4 + 4 * i;
      }
      assert pos + 4 + 4 * |rest| == pos + 4 * |objects|;
      var st' := st.(stackPos := Inc(st.stackPos));
      ObjectChainFillsConsecutiveSlots(bytes, pos + 4, rest, st');
      ObjectCommandStep(bytes, pos, st);
      assert |rest| == |objects| - 1;
      assert ChainCalls(objects, st.stackPos)
          == [MulByObject(objects[0]), StoreMatrix(st.stackPos)] + ChainCalls(rest, st'.stackPos);
    }
  }

  // ------------------------------------------------------------- blends

  /** Weight bytes scale exactly: 128 is one half, 255 is 255/256. */
  lemma WeightExamples()
    ensures Weight(0) == 0.0 && Weight(128) == 0.5 && Weight(255) == 0.99609375
  {
  }

  /** A blend with more than four terms fails before any blend call, with
      the count error when its whole operand block is present and with
      end-of-stream otherwise (the block is read before the count is
      checked). */
  lemma BlendRejectsMoreThanFourTerms(accepts: SinkCall -> bool, bytes: seq<Byte>, pos: nat, st: State)
    requires pos + 2 < |bytes| && bytes[pos] == BlendOpcode && bytes[pos + 2] > 4
    ensures var o := Run(accepts, Cur(bytes, pos), st);
      && o.calls == [] && o.state == st
      && o.result == if pos + 3 + 3 * (bytes[pos + 2] as int) <= |bytes|
                     then Err(InvalidBlendTermCount(bytes[pos + 2]))
                     else Err(UnexpectedEndOfStream)
  {
    RunStep(accepts, Cur(bytes, pos), st);
  }
}
