# Nitro render-command interpreter, in Dafny

A Nitro model (`.nsbmd`) describes how to draw itself with a small bytecode,
the render commands. This project models the interpreter of that bytecode
(`src/nitro/mdl/render_cmds.rs`) and proves properties of it.

The interpreter reads one opcode byte. It works out the length of the operand
block from a fixed table (`cmd_size`); only the blend command 0x09 takes its
length from a count byte, which it peeks at without consuming. It then reads
the block and dispatches. A command may change the two registers (the current
material and the current matrix-stack slot). It may also forward ids to the
renderer through the `Sink` capability: load, store, multiply by an object
matrix, blend, draw. The run ends at the end command 0x01 or at the first
error.

Layout:

- `cursor.dfy` (module `Cursor`): the forward byte cursor. It is a value: a
  byte sequence and a position. `Next` reads one byte and `NextN` reads a
  block. A copy of the cursor reads independently, which is how the 0x09
  peek leaves the stream position alone.
- `render_cmds.dfy` (module `RenderCmds`): the specification and the
  interpreter.
  - The specification functions are `CmdSize` (operand lengths), `Fetch`
    (decode one command), `Exec`, `ExecObject` and `ExecBlend` (the effect of
    one command), and `Run` with `Continue` (the whole run).
  - `Sink` is the renderer as a call trace. It records every call it
    receives. `accepts` says which calls succeed; a call it rejects fails
    with `SinkError`, which ends the run.
  - `RenderInterpreterState` is the interpreter itself: a class with the two
    registers and the imperative decode-and-dispatch loop. `FillBlendTerms`
    fills the fixed four-slot term buffer. Each method is proved to do
    exactly what the specification functions say, down to the sink trace.
- `properties.dfy` (module `RenderCmdsProperties`): properties that involve
  several commands, runs or sinks.

Notes on the code:

- A byte that is not in the length table is rejected by `cmd_size` before
  dispatch. The catch-all arm of the dispatch therefore only ever sees table
  opcodes that have no handler (0x07, 0x08, 0x0b, 0x2b, 0x40, 0x80, besides
  the explicit no-ops 0x00 and 0x02). These are skipped: their operands are
  consumed and they have no effect. There is no second unknown-opcode path.
- For 0x09, the whole operand block (2 + 3·count bytes) is read before the
  `count <= 4` check. A stream too short for that block therefore fails with
  end-of-stream even when the count is too large. The model follows the code
  (`BlendRejectsMoreThanFourTerms`).

## Model

| member | source | states |
|---|---|---|
| Cursor.Cur.Next | src/nitro/mdl/render_cmds.rs:39 | reading an opcode succeeds exactly when a byte remains; it yields the byte at the position and a cursor one byte further over the same stream |
| Cursor.Cur.NextN | src/nitro/mdl/render_cmds.rs:41 | reading an n-byte block succeeds exactly when n bytes remain; it yields exactly the next n bytes of the stream and a cursor n bytes further |
| RenderCmds.Sink.LoadMatrix | src/nitro/mdl/render_cmds.rs:5-6 | the call is appended to the trace; it fails exactly when the renderer rejects it |
| RenderCmds.Sink.StoreMatrix | src/nitro/mdl/render_cmds.rs:7-8 | the call is appended to the trace; it fails exactly when the renderer rejects it |
| RenderCmds.Sink.MulByObject | src/nitro/mdl/render_cmds.rs:9-10 | the call is appended to the trace; it fails exactly when the renderer rejects it |
| RenderCmds.Sink.Blend | src/nitro/mdl/render_cmds.rs:11-15 | the call, with its terms in order, is appended to the trace; it fails exactly when the renderer rejects it |
| RenderCmds.Sink.Draw | src/nitro/mdl/render_cmds.rs:16 | the call is appended to the trace; it fails exactly when the renderer rejects it |
| RenderCmds.CmdSize | src/nitro/mdl/render_cmds.rs:123-151 | each table opcode has its fixed operand length (0, 1, 2, 3, 4 or 5). 0x09 has length 2 + 3·(second byte after the opcode) and fails with end-of-stream exactly when fewer than two bytes remain. Every byte outside the table is an unknown-opcode error |
| RenderCmds.Fetch | src/nitro/mdl/render_cmds.rs:38-41 | a decoded command is the opcode at the cursor plus exactly the next `CmdSize` bytes. The cursor moves past exactly 1 + `CmdSize` bytes and strictly advances. It fails with unknown-opcode exactly when the opcode is outside the table, and with no error other than that and end-of-stream |
| RenderCmds.FetchRunsOut | src/nitro/mdl/render_cmds.rs:38-41 | decoding fails with end-of-stream exactly when the stream is empty, or the opcode is in the table and either its 0x09 count byte or its operand block is cut short; with `Fetch`'s own contract, every complete table command decodes (`CompleteCommandDecodes`) |
| RenderCmds.Inc | src/nitro/mdl/render_cmds.rs:89 | the slot advance is (slot + 1) mod 256 |
| RenderCmds.Weight | src/nitro/mdl/render_cmds.rs:105 | a weight is byte/256 exactly, so it lies in [0, 1) |
| RenderCmds.BlendTerms | src/nitro/mdl/render_cmds.rs:100-111 | `count` terms; term i is (stack id, blend id, weight) taken from triple i, in input order |
| RenderCmds.ExecObject | src/nitro/mdl/render_cmds.rs:66-90 | per variant, the exact call order: the load of the restore slot (params[3] for 0x46, params[4] for 0x66) only for 0x46/0x66, then multiply by params[0], then store to params[3] (0x26/0x66) or the current slot. Afterwards the slot is one past the stored slot and the material is unchanged. A failing call ends the command with a sink error after at least one call |
| RenderCmds.ObjectHaltState | src/nitro/mdl/render_cmds.rs:81-89 | after a rejected call of an object command the registers are unchanged, except that a rejected store of 0x26/0x66 leaves the slot at params[3], which was written before the store |
| RenderCmds.ExecBlend | src/nitro/mdl/render_cmds.rs:91-114 | a count above 4 fails with no call and no change. Otherwise there is exactly one blend call, into slot params[0], carrying the `count` decoded terms in order, and the command goes on exactly when the renderer accepts that call (otherwise a sink error, with registers unchanged). On success the slot becomes params[0] (no advance). The material is never changed |
| RenderCmds.Exec | src/nitro/mdl/render_cmds.rs:43-118 | only 0x01 ends the run successfully, with no call. Material commands set the material with no call. 0x03 loads params[0]; 0x05 draws params[0] with the current material. A load, a draw or a blend of at most four terms makes exactly one call, and the run goes on exactly when the renderer accepts it (otherwise it stops with a sink error). Handler-less table opcodes have no effect at all. Only the object and blend commands move the slot |
| RenderCmds.ExecDispatch | src/nitro/mdl/render_cmds.rs:66-114 | the 0x06/0x26/0x46/0x66 commands have exactly the effect `ExecObject` gives and 0x09 exactly the effect `ExecBlend` gives |
| RenderCmds.Run | src/nitro/mdl/render_cmds.rs:37-120 | the run decodes a command and continues with `Continue`, or returns the decode error with no call; a run that fails on the renderer has made at least one call |
| RenderCmds.Continue | src/nitro/mdl/render_cmds.rs:43-119 | a decoded command takes effect by `Exec`; the run stops with its result if it halts and otherwise goes on from just after the command with the new registers, its calls coming first; a renderer failure comes only after a call |
| RenderCmds.FillBlendTerms | src/nitro/mdl/render_cmds.rs:100-111 | filling the four-slot buffer triple by triple with a running operand index yields exactly `BlendTerms` |
| RenderCmds.RenderInterpreterState.constructor | src/nitro/mdl/render_cmds.rs:30-35 | a new interpreter starts with material 0 and slot 0 |
| RenderCmds.RenderInterpreterState.Execute | src/nitro/mdl/render_cmds.rs:43-118 | carrying out one command returns what `Exec` says, appends its calls to the trace and leaves the registers as `Exec` says |
| RenderCmds.RenderInterpreterState.ExecuteObject | src/nitro/mdl/render_cmds.rs:66-90 | the imperative 0x06-family handler does what `ExecObject` says: same calls, same result, same registers |
| RenderCmds.RenderInterpreterState.ExecuteBlend | src/nitro/mdl/render_cmds.rs:91-114 | the imperative 0x09 handler does what `ExecBlend` says: same call, same result, same registers |
| RenderCmds.RenderInterpreterState.RunCommands | src/nitro/mdl/render_cmds.rs:37-120 | the loop returns the result of `Run`, leaves the sink holding exactly the calls of `Run` after its earlier calls, and leaves the registers as `Run` ends them |
| RenderCmds.RunCommands | src/nitro/mdl/render_cmds.rs:19-22 | the entry point runs `Run` from material 0 and slot 0 and returns its result and its calls |
| RenderCmdsProperties.ExecStopsAtFirstRejectedCall | src/nitro/mdl/render_cmds.rs:54-114 | a command that fails on the sink stops at the rejected call, which is its last call, and every earlier call succeeded. Otherwise all its calls succeeded and it behaves as with an accept-everything renderer. Its calls are always a prefix of the accept-everything calls |
| RenderCmdsProperties.ObjectStopsAtFirstRejectedCall | src/nitro/mdl/render_cmds.rs:81-89 | the same for the 0x06 family, whose load, multiply and store can each fail |
| RenderCmdsProperties.RunStopsAtFirstRejectedCall | src/nitro/mdl/render_cmds.rs:37-118 | a run that fails on the sink ends with the one rejected call, and every earlier call succeeded. Every other run had all its calls carried out |
| RenderCmdsProperties.FailingSinkCutsTraceShort | src/nitro/mdl/render_cmds.rs:37-118 | a run's calls on any renderer are a prefix of its calls on an accept-everything renderer. Unless the renderer failed, the two runs are identical |
| RenderCmdsProperties.RunSucceedsOnlyAtTerminator | src/nitro/mdl/render_cmds.rs:37-50 | a run returns Ok exactly when it decodes an end command (`ReachesEnd`: every earlier command decoded and let the run go on), and that command is a 0x01 byte at or after the start. An operand byte 0x01 does not count |
| RenderCmdsProperties.SucceedingRunReachesEnd | src/nitro/mdl/render_cmds.rs:47-50 | a run that returns Ok decodes an end command somewhere |
| RenderCmdsProperties.ReachedEndSucceeds | src/nitro/mdl/render_cmds.rs:47-50 | a run that decodes an end command at p returns Ok, and the byte at p is 0x01 |
| RenderCmdsProperties.TerminatorEndsRun | src/nitro/mdl/render_cmds.rs:47-50 | the end command ends the run at once with Ok and no call, whatever bytes follow |
| RenderCmdsProperties.FetchIgnoresTrailingBytes | src/nitro/mdl/render_cmds.rs:39-41 | decoding never reads past the command: appending bytes gives the same command (or the same unknown-opcode error) |
| RenderCmdsProperties.RunIgnoresTrailingBytes | src/nitro/mdl/render_cmds.rs:37-50 | a run that did not hit end-of-stream is unchanged by bytes appended after the stream, so nothing after the end command matters |
| RenderCmdsProperties.TruncatedCommandFails | src/nitro/mdl/render_cmds.rs:39-41 | a stream cut anywhere inside a command (at its opcode or in its operands) fails with end-of-stream before that command makes any call |
| RenderCmdsProperties.CompleteCommandDecodes | src/nitro/mdl/render_cmds.rs:39-41 | a table opcode whose length can be worked out and whose whole operand block is present decodes, and the cursor ends just after the block |
| RenderCmdsProperties.DrawUsesLatestMaterial | src/nitro/mdl/render_cmds.rs:58-65 | a draw right after a material command draws with the material it set |
| RenderCmdsProperties.ObjectCommandStep | src/nitro/mdl/render_cmds.rs:66-90 | on a renderer that accepts every call, one 0x06 command multiplies by params[0], stores to the current slot, advances the slot and continues four bytes later (for other renderers the calls are a prefix of these, by `FailingSinkCutsTraceShort`) |
| RenderCmdsProperties.ChainCallsAt | src/nitro/mdl/render_cmds.rs:84-89 | in a chain of 0x06 commands, the i-th object is multiplied in by call 2i and stored, by call 2i+1, to slot (start + i) mod 256 |
| RenderCmdsProperties.AdvanceIsModular | src/nitro/mdl/render_cmds.rs:89 | n slot advances move the slot n places modulo 256 |
| RenderCmdsProperties.ObjectChainFillsConsecutiveSlots | src/nitro/mdl/render_cmds.rs:66-90 | on a renderer that accepts every call, a chain of 0x06 commands ended by 0x01 succeeds (for other renderers the calls are a prefix of these, by `FailingSinkCutsTraceShort`). Its calls are exactly multiply-then-store per object, into consecutive slots from the current one; no load is made, the slot ends one past the last slot used, and the material is unchanged |
| RenderCmdsProperties.WeightExamples | src/nitro/mdl/render_cmds.rs:105 | weight bytes 0, 128 and 255 are exactly 0, 0.5 and 0.99609375 |
| RenderCmdsProperties.BlendRejectsMoreThanFourTerms | src/nitro/mdl/render_cmds.rs:96-98 | a blend with count above 4 ends the run with no call and no register change. The error is the count error when the whole operand block is present and end-of-stream otherwise |

## Left out

- Logging (`trace!` at line 42, `info!` at line 116) has no effect on the run and is not modelled.
- Error values are a datatype (`UnexpectedEndOfStream`, `UnknownOpcode`, `InvalidBlendTermCount`, `SinkError`). The formatted error messages are not modelled.
- A renderer's own failure reasons are collapsed into `SinkError`. Which calls fail is a parameter (`accepts`). A call that fails is still recorded in the trace, since it was made.
- `accepts` is fixed for the whole run, so in the model the renderer's answer depends on the call alone. A real `Sink` is mutable and may answer depending on the calls it received earlier; that history-dependent failure is not modelled.
- Concrete renderers and all matrix arithmetic are not modelled; the interpreter only forwards ids, so the renderer is a call trace.
- Weights are exact reals byte/256. The `f64` division in the source is exact for every byte, so nothing is lost.
- The cursor type `util::cur::Cur` is not part of this model. It is modelled by its behaviour as used here: reading a byte, reading a block, and cloning for a peek.
- `cur_stack_pos += 1` at slot 255 overflows a `u8`. A release build wraps and a debug build panics. The model wraps (`RenderCmds.Inc`); the panic is not modelled.
- `src/daesplit/daesplitter.py` (a COLLADA file splitter) is not part of this model.
