/**
 * The plain, unsynchronized record of the line editor's state at one instant
 * (newedit/types/state.go, types RawState and PendingCode), together with the
 * read-only views of it that the shared container hands out.
 *
 * Mode, the key event type and the handler action come from other packages;
 * they are kept opaque here. Only two modes are told apart: the nil mode of
 * the zero state and the sentinel mode of a finalized snapshot.
 */
module RawStates {

  newtype byte = x: int | 0 <= x < 256

  /** A Go string: a sequence of bytes, indexed by byte offset. */
  type Bytes = seq<byte>

  datatype Option<T> = None | Some(value: T)

  /**
   * The active input mode. NoMode is the nil interface value of a zero
   * RawState, FinalizedMode the sentinel placed in a finalized snapshot, and
   * ExternalMode any mode supplied by the mode-handling code, known here only
   * by an identity.
   */
  datatype Mode = NoMode | FinalizedMode | ExternalMode(id: nat)

  /** A key event, opaque here; Key(0) stands for the zero value of the key type. */
  datatype Key = Key(id: nat)

  const ZeroKey: Key := Key(0)

  /** The handler action is an integer type; 0 is its zero value. */
  type HandlerAction = int

  const NoAction: HandlerAction := 0

  /**
   * A proposed replacement of code[begin..end] by text, such as during
   * completion. Plain data: nothing here checks begin <= end <= |code|.
   */
  datatype PendingCode = PendingCode(begin: int, end: int, text: Bytes)

  /** All the state of the editor. dot is a byte offset into code. */
  datatype RawState = RawState(
    mode: Mode,
    code: Bytes,
    dot: int,
    pending: Option<PendingCode>,
    notes: seq<Bytes>,
    lastKey: Key,
    nextAction: HandlerAction)


  /** The cursor lies within the buffer, so that the buffer can be split at it. */
  predicate DotInRange(s: RawState) {
    0 <= s.dot <= |s.code|
  }

  /** The part of the buffer before the cursor. Slicing panics when the cursor is out of range. */
  function CodeBeforeDot(s: RawState): (before: Bytes)
    requires DotInRange(s)
    ensures |before| == s.dot
    ensures before <= s.code
  {
    s.code[..s.dot]
  }

  /** The part of the buffer from the cursor on. Slicing panics when the cursor is out of range. */
  function CodeAfterDot(s: RawState): (after: Bytes)
    requires DotInRange(s)
    ensures |after| == |s.code| - s.dot
    ensures CodeBeforeDot(s) + after == s.code
  {
    s.code[s.dot..]
  }

  /**
   * The zero value of RawState: nil mode, empty buffer, cursor at 0, nothing
   * pending, no notes, zero key and action. It is a valid state: the cursor
   * lies in the (empty) buffer, so both split accessors are defined on it.
   */
  function ZeroState(): (z: RawState)
    ensures z.mode == NoMode && z.pending == None && z.notes == []
    ensures z.lastKey == ZeroKey && z.nextAction == NoAction
    ensures DotInRange(z) && CodeBeforeDot(z) == [] && CodeAfterDot(z) == []
  {
    RawState(NoMode, [], 0, None, [], ZeroKey, NoAction)
  }

  /**
   * The terminal snapshot for the final redraw: the finalized sentinel mode,
   * the cursor at the end of the buffer, nothing pending, the notes kept and
   * the key and action fields back at their zero values.
   */
  function FinalSnapshot(s: RawState): (f: RawState)
    ensures f.mode == FinalizedMode
    ensures DotInRange(f) && CodeBeforeDot(f) == s.code && CodeAfterDot(f) == []
    ensures f.pending == None
    ensures f.notes == s.notes
    ensures f.lastKey == ZeroKey && f.nextAction == NoAction
  {
    RawState(FinalizedMode, s.code, |s.code|, None, s.notes, ZeroKey, NoAction)
  }

  /** A finalized snapshot depends on the buffer and the notes only. */
  lemma FinalSnapshotDependsOnCodeAndNotes(s: RawState, t: RawState)
    ensures FinalSnapshot(s) == FinalSnapshot(t) <==> s.code == t.code && s.notes == t.notes
  {
  }

  /** Splitting at the cursor is the only way to cut the buffer into a prefix of length dot and the rest. */
  lemma SplitAtDotUnique(s: RawState, before: Bytes, after: Bytes)
    requires DotInRange(s)
    ensures before + after == s.code && |before| == s.dot
            <==> before == CodeBeforeDot(s) && after == CodeAfterDot(s)
  {
  }
}
