/**
 * The shared editor state container (newedit/types/state.go, type State).
 *
 * In the source every method holds the container's reader/writer lock for its
 * whole body; here each method is one atomic step on the field raw. The
 * methods that change the state are also stated as the transition Step of the
 * same call, so that the lemmas about runs in module Transitions apply to any
 * sequence of calls on a State.
 */
module SharedState {
  import opened RawStates
  import opened Transitions

  class State {
    /** The wrapped raw state; the source also allows direct, separately locked access to it. */
    var raw: RawState

    /** The zero State value: the zero RawState. */
    constructor ()
      ensures raw == ZeroState()
    {
      raw := ZeroState();
    }

    /** Returns a copy of the whole state and clears the live notes; nothing else changes. */
    method PopForRedraw() returns (snapshot: RawState)
      modifies this
      ensures snapshot == old(raw)
      ensures raw.notes == [] && raw == old(raw).(notes := [])
      ensures Step(old(raw), PopForRedrawOp) == Outcome(raw, Some(snapshot))
    {
      snapshot := raw;
      raw := raw.(notes := []);
    }

    /** Returns the terminal snapshot for the final redraw; the live state is left alone. */
    method Finalize() returns (f: RawState)
      ensures f.mode == FinalizedMode
      ensures f.code == raw.code && f.dot == |raw.code|
      ensures f.pending == None
      ensures f.notes == raw.notes
      ensures f.lastKey == ZeroKey && f.nextAction == NoAction
      ensures Step(raw, FinalizeOp) == Outcome(raw, Some(f))
    {
      f := RawState(FinalizedMode, raw.code, |raw.code|, None, raw.notes, ZeroKey, NoAction);
    }

    method Mode() returns (m: Mode)
      ensures m == raw.mode
    {
      m := raw.mode;
    }

    /** Sets the mode; every other field is unchanged. */
    method SetMode(mode: Mode)
      modifies this
      ensures raw.mode == mode && raw == old(raw).(mode := mode)
      ensures raw == Step(old(raw), SetModeOp(mode)).live
    {
      raw := raw.(mode := mode);
    }

    method Code() returns (code: Bytes)
      ensures code == raw.code
    {
      code := raw.code;
    }

    /** The buffer and the cursor, read together as one consistent pair. */
    method CodeAndDot() returns (code: Bytes, dot: int)
      ensures code == raw.code && dot == raw.dot
    {
      code, dot := raw.code, raw.dot;
    }

    /** The part of the buffer before the cursor: a prefix of the buffer of length dot. */
    method CodeBeforeDot() returns (before: Bytes)
      requires 0 <= raw.dot <= |raw.code|
      ensures |before| == raw.dot && before <= raw.code
      ensures before == RawStates.CodeBeforeDot(raw)
    {
      before := raw.code[..raw.dot];
    }

    /** The part of the buffer from the cursor on: what completes the prefix before the cursor to the whole buffer. */
    method CodeAfterDot() returns (after: Bytes)
      requires 0 <= raw.dot <= |raw.code|
      ensures |after| == |raw.code| - raw.dot && raw.code[..raw.dot] + after == raw.code
      ensures after == RawStates.CodeAfterDot(raw)
    {
      after := raw.code[raw.dot..];
    }

    /** Appends a note to the notes log; nothing else changes. */
    method AddNote(note: Bytes)
      modifies this
      ensures raw.notes == old(raw.notes) + [note]
      ensures raw == old(raw).(notes := raw.notes)
      ensures raw == Step(old(raw), AddNoteOp(note)).live
    {
      raw := raw.(notes := raw.notes + [note]);
    }

    method LastKey() returns (k: Key)
      ensures k == raw.lastKey
    {
      k := raw.lastKey;
    }

    /** Sets the last key; every other field is unchanged. */
    method SetLastKey(k: Key)
      modifies this
      ensures raw.lastKey == k && raw == old(raw).(lastKey := k)
      ensures raw == Step(old(raw), SetLastKeyOp(k)).live
    {
      raw := raw.(lastKey := k);
    }

    method NextAction() returns (a: HandlerAction)
      ensures a == raw.nextAction
    {
      a := raw.nextAction;
    }

    /** Sets the next handler action; every other field is unchanged. */
    method SetNextAction(a: HandlerAction)
      modifies this
      ensures raw.nextAction == a && raw == old(raw).(nextAction := a)
      ensures raw == Step(old(raw), SetNextActionOp(a)).live
    {
      raw := raw.(nextAction := a);
    }

    /** Puts every field back to its zero value. */
    method Reset()
      modifies this
      ensures raw == ZeroState()
      ensures raw.mode == NoMode && raw.code == [] && raw.dot == 0 && raw.pending == None
      ensures raw.notes == [] && raw.lastKey == ZeroKey && raw.nextAction == NoAction
      ensures raw == Step(old(raw), ResetOp).live
    {
      raw := RawState(NoMode, [], 0, None, [], ZeroKey, NoAction);
    }
  }

  /**
   * A redraw cycle as the render loop and a key handler drive it: a note is
   * added, the renderer pops it, and a second redraw with no note in between
   * finds none, while every other field stays as it was.
   */
  method RedrawCycle(st: State, note: Bytes) returns (first: RawState, second: RawState)
    modifies st
    ensures first == old(st.raw).(notes := old(st.raw.notes) + [note])
    ensures second == first.(notes := []) && st.raw == second
  {
    st.AddNote(note);
    first := st.PopForRedraw();
    second := st.PopForRedraw();
  }
}
