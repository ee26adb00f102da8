# Shared line-editing state of the elvish editor

This project models the concurrency-safe state container of elvish's new line
editor (`newedit/types/state.go`). The container wraps one `RawState` record:

- the input buffer `Code`, a byte string;
- the cursor `Dot`, a byte offset into `Code`;
- an optional `Pending` replacement region (`PendingCode`);
- a `Notes` log of messages added since the last redraw;
- the current `Mode`, the `LastKey` pressed and the `NextAction` a key handler asks for.

The render loop calls `PopForRedraw` on every redraw. That call takes a copy of
the whole state and empties the live notes. `Finalize` builds the snapshot for
the last redraw: the sentinel finalized mode, the cursor at the end of the
buffer, nothing pending, and the key and action at their zero values. `Reset`
returns the state to the zero value between sessions. The remaining methods
get or set one field, or read the buffer split at the cursor.

Files:

- `raw_state.dfy`, module `RawStates`: the records, the zero state, and the
  read-only views. `ZeroState`, `CodeBeforeDot`, `CodeAfterDot` and `FinalSnapshot` are
  defined here as functions on a `RawState`.
- `transitions.dfy`, module `Transitions`: every state-changing call as a pure
  transition `Step`, and `Run` over a sequence of calls. The lemmas here cover
  whole sessions. No note is lost or handed out twice. `Finalize` changes
  nothing. `Reset` forgets everything that came before.
- `state.dfy`, module `SharedState`: the class `State`, with one method per Go
  method. Each mutating method states its new state field by field and as the
  `Step` of the same call, so the run lemmas apply to any sequence of method
  calls.

The reader/writer lock is not modelled. Every method body runs as one atomic
step, which is what the lock guarantees. A concurrent history of calls is
therefore one of the sequences that `Run` covers.

The model follows the code in two places:

- The code slices `Code` by byte index (state.go:68, state.go:75) and never
  checks rune boundaries. So the only precondition of the split accessors is
  `0 <= Dot <= |Code|`.
- The comment on `State` (state.go:9-11) says the getters "paper over nil
  values". The code does not do this: `Mode()` returns the nil mode of a zero
  state as it is. The model returns `NoMode`.

## Model

| member | source | states |
|---|---|---|
| RawStates.CodeBeforeDot | newedit/types/state.go:64-69 | with `0 <= Dot <= len(Code)`, the part before the cursor is the prefix of `Code` of length `Dot` |
| RawStates.CodeAfterDot | newedit/types/state.go:71-76 | with `0 <= Dot <= len(Code)`, the part after the cursor has length `len(Code) - Dot` and appended to the part before it gives back `Code` |
| RawStates.SplitAtDotUnique | newedit/types/state.go:64-76 | a pair (before, after) concatenates to `Code` with `len(before) == Dot` exactly when it is (CodeBeforeDot, CodeAfterDot) |
| RawStates.ZeroState | newedit/types/state.go:113-118 | the zero value `RawState{}` that Reset stores: nil mode, nothing pending, no notes, zero key and action 0, and an empty buffer with the cursor at 0, so both split accessors are defined on it and return empty |
| RawStates.FinalSnapshot | newedit/types/state.go:28-34 | the final snapshot has the finalized sentinel mode, the whole buffer before the cursor and nothing after it, no pending code, the live notes, the zero key and action 0 |
| RawStates.FinalSnapshotDependsOnCodeAndNotes | newedit/types/state.go:32-33 | two states give the same final snapshot exactly when their code and notes are equal |
| Transitions.StepEffects | newedit/types/state.go:20-118 | what one call of `Step` (the model of one method call) does to the live state and what it returns: only PopForRedraw and Finalize return a snapshot; Finalize leaves the live state as it was; no call but Reset changes code, dot or pending; the notes grow by the added note on AddNote, are emptied by PopForRedraw and Reset, and are otherwise kept |
| Transitions.StepConservesNotes | newedit/types/state.go:20-83 | for one call other than Reset, the notes it hands to a redraw followed by the live notes after it equal the live notes before it followed by the note it adds |
| Transitions.PopTwiceDeliversOnce | newedit/types/state.go:20-26 | two pops in a row: the first returns the state, the second a copy with no notes, so together they hand out each note once |
| Transitions.NotesConserved | newedit/types/state.go:20-26 | over any run of calls without Reset, the notes of all redraw snapshots followed by the live notes are the initial notes followed by every note added by AddNote, in call order, so none is lost or duplicated |
| Transitions.NoNoteAfterPop | newedit/types/state.go:20-34 | from a state with no notes, a run that adds no note gives only empty notes to every redraw and every finalize, and leaves the live notes empty |
| Transitions.FinalizeLeavesStateAlone | newedit/types/state.go:28-34 | inserting a Finalize call anywhere in a run changes neither the final live state nor any redraw snapshot, so notes added before Finalize still reach the next pop |
| Transitions.ResetForgetsHistory | newedit/types/state.go:113-118 | after any run, Reset leaves the zero state and adds no redraw |
| SharedState.State.constructor | newedit/types/state.go:9-16 | the zero State value wraps the zero RawState |
| SharedState.State.PopForRedraw | newedit/types/state.go:18-26 | returns a copy equal to the whole pre-call state, empties the live notes and leaves every other field unchanged |
| SharedState.State.Finalize | newedit/types/state.go:28-34 | returns the finalized mode, the live code with `Dot == len(Code)`, nil pending, the live notes, the zero key and action 0; the live state is unchanged |
| SharedState.State.Mode | newedit/types/state.go:36-41 | returns the stored mode |
| SharedState.State.SetMode | newedit/types/state.go:43-48 | the mode becomes the given one; every other field is unchanged |
| SharedState.State.Code | newedit/types/state.go:50-55 | returns the stored buffer |
| SharedState.State.CodeAndDot | newedit/types/state.go:57-62 | returns the buffer and the cursor of the same state |
| SharedState.State.CodeBeforeDot | newedit/types/state.go:64-69 | requires `0 <= Dot <= len(Code)`; returns the prefix of `Code` of length `Dot`; changes nothing |
| SharedState.State.CodeAfterDot | newedit/types/state.go:71-76 | requires `0 <= Dot <= len(Code)`; returns the suffix that completes the prefix before the cursor to `Code`; changes nothing |
| SharedState.State.AddNote | newedit/types/state.go:78-83 | the notes become the old notes followed by the new one; every other field is unchanged |
| SharedState.State.LastKey | newedit/types/state.go:85-90 | returns the stored last key |
| SharedState.State.SetLastKey | newedit/types/state.go:92-97 | the last key becomes the given one; every other field is unchanged |
| SharedState.State.NextAction | newedit/types/state.go:99-104 | returns the stored next action |
| SharedState.State.SetNextAction | newedit/types/state.go:106-111 | the next action becomes the given one; every other field is unchanged |
| SharedState.State.Reset | newedit/types/state.go:113-118 | every field is back at its zero value: nil mode, empty code, dot 0, nil pending, no notes, zero key, action 0 |
| SharedState.RedrawCycle | newedit/types/state.go:20-26 | AddNote followed by two pops: the first snapshot is the pre-call state with the note appended to its notes, the second snapshot and the final live state are that same state with no notes |

## Left out

- The `sync.RWMutex` and every Lock, RLock and Unlock call. They only make each method atomic, and each method is one atomic step here.
- What a mode, a key event and a handler action mean. They come from other packages. A mode is `NoMode` (the nil interface), `FinalizedMode` (the `dummyMode{}` sentinel, whose definition is not part of this model) or an external mode known only by an identity. A key is an opaque identity with `Key(0)` as the zero key. A handler action is an integer with zero value 0.
- Character-boundary checks on `Dot`: the code has none (see above).
- Any well-formedness invariant of `PendingCode` (`Begin <= End <= len(Code)`). The record is plain data and nothing in this code enforces or relies on it.
- Slice and pointer aliasing. Notes and pending code are immutable values here, so every snapshot is detached from the live state. A nil `Notes` slice and an empty one are both the empty sequence.
- The width of Go's `int`: `Dot` and the `PendingCode` offsets are unbounded integers.
- Direct access to the exported `Raw` field by callers that take the lock themselves. `Run` covers only calls to the container's own methods.
- The panic of the split accessors on an out-of-range cursor is a precondition of `CodeBeforeDot` and `CodeAfterDot`, not a modelled failure.
