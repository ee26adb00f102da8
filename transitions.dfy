/**
 * The state-changing operations of the shared container as pure transitions
 * on RawState, and runs of such calls as the editor issues them over one
 * session: the key handlers set fields and add notes, the render loop pops a
 * snapshot on every redraw and finalizes once at the end, and the session
 * code resets the state between sessions.
 *
 * Each call is one atomic step (the container's lock serializes them), so a
 * concurrent history is one of these sequences.
 */
module Transitions {
  import opened RawStates

  /** A call on the shared container that changes its state or returns a snapshot. */
  datatype Op =
    | SetModeOp(mode: Mode)
    | SetLastKeyOp(key: Key)
    | SetNextActionOp(action: HandlerAction)
    | AddNoteOp(note: Bytes)
    | PopForRedrawOp
    | FinalizeOp
    | ResetOp

  /** The live state after one call, and the snapshot the call returns, if any. */
  datatype Outcome = Outcome(live: RawState, reply: Option<RawState>)

  /** One call on a container whose live state is s. */
  function Step(s: RawState, op: Op): Outcome
  {
    match op
    case SetModeOp(m) => Outcome(s.(mode := m), None)
    case SetLastKeyOp(k) => Outcome(s.(lastKey := k), None)
    case SetNextActionOp(a) => Outcome(s.(nextAction := a), None)
    case AddNoteOp(n) => Outcome(s.(notes := s.notes + [n]), None)
    case PopForRedrawOp => Outcome(s.(notes := []), Some(s))
    case FinalizeOp => Outcome(s, Some(FinalSnapshot(s)))
    case ResetOp => Outcome(ZeroState(), None)
  }

  /**
   * What one call does. Only PopForRedraw and Finalize return a snapshot, and
   * Finalize leaves the live state as it was. No call but Reset touches the
   * buffer, the cursor or the pending code. The notes are extended by the one
   * note AddNote adds, emptied by PopForRedraw and Reset, and otherwise kept.
   */
  lemma StepEffects(s: RawState, op: Op)
    ensures Step(s, op).reply.Some? <==> op.PopForRedrawOp? || op.FinalizeOp?
    ensures op.FinalizeOp? ==> Step(s, op).live == s
    ensures op != ResetOp ==> Step(s, op).live.code == s.code && Step(s, op).live.dot == s.dot
                              && Step(s, op).live.pending == s.pending
    ensures Step(s, op).live.notes == (if op.AddNoteOp? then s.notes + [op.note]
                                       else if op.PopForRedrawOp? || op.ResetOp? then []
                                       else s.notes)
  {
  }

  /** The live state at the end of a run and the snapshots handed to the renderer by PopForRedraw, in order. */
  datatype Trace = Trace(live: RawState, redraws: seq<RawState>)

  function Run(s: RawState, ops: seq<Op>): Trace
    decreases |ops|
  {
    if ops == [] then Trace(s, [])
    else
      var t := Run(Step(s, ops[0]).live, ops[1..]);
      Trace(t.live, Redrawn(s, ops[0]) + t.redraws)
  }

  /** The snapshot one call hands to the renderer for a redraw: PopForRedraw's reply, if the call is one. */
  function Redrawn(s: RawState, op: Op): seq<RawState>
  {
    if op.PopForRedrawOp? then [Step(s, op).reply.value] else []
  }

  /** The note one call adds, if it is AddNote. */
  function AddedBy(op: Op): seq<Bytes>
  {
    if op.AddNoteOp? then [op.note] else []
  }

  /** The notes added by a run, in call order. */
  function Added(ops: seq<Op>): seq<Bytes>
  {
    if ops == [] then [] else AddedBy(ops[0]) + Added(ops[1..])
  }

  /** The notes carried by a sequence of snapshots, in order. */
  function Delivered(snapshots: seq<RawState>): seq<Bytes>
  {
    if snapshots == [] then [] else snapshots[0].notes + Delivered(snapshots[1..])
  }

  /** Two PopForRedraw calls in a row: the second snapshot has no notes, so no note is returned twice. */
  lemma PopTwiceDeliversOnce(s: RawState)
    ensures Run(s, [PopForRedrawOp, PopForRedrawOp]).redraws == [s, s.(notes := [])]
    ensures Delivered(Run(s, [PopForRedrawOp, PopForRedrawOp]).redraws) == s.notes
  {
    var ops := [PopForRedrawOp, PopForRedrawOp];
    var live := s.(notes := []);
    assert ops[1..] == [PopForRedrawOp];
    assert ops[1..][1..] == [];
    assert Run(live, []) == Trace(live, []);
    assert Run(live, [PopForRedrawOp]) == Trace(live, [live]);
    assert Delivered([live]) == [];
  }

  /** Running a then b is running b from where a left off. */
  lemma {:induction false} RunAppend(s: RawState, a: seq<Op>, b: seq<Op>)
    ensures Run(s, a + b).live == Run(Run(s, a).live, b).live
    ensures Run(s, a + b).redraws == Run(s, a).redraws + Run(Run(s, a).live, b).redraws
    decreases |a|
  {
    if a == [] {
      assert a + b == b;
    } else {
      var o := Step(s, a[0]);
      var first := if a[0].PopForRedrawOp? then [o.reply.value] else [];
      assert (a + b)[0] == a[0];
      assert (a + b)[1..] == a[1..] + b;
      RunAppend(o.live, a[1..], b);
      var mid := Run(o.live, a[1..]);
      var tail := Run(o.live, a[1..] + b);
      assert Run(s, a) == Trace(mid.live, first + mid.redraws);
      assert Run(s, a + b) == Trace(tail.live, first + tail.redraws);
      assert first + tail.redraws == (first + mid.redraws) + Run(mid.live, b).redraws;
    }
  }

  /**
   * One call other than Reset accounts for its notes: what it hands to a
   * redraw followed by the live notes after it are the live notes before it
   * followed by the note it adds.
   */
  lemma StepConservesNotes(s: RawState, op: Op)
    requires op != ResetOp
    ensures Delivered(Redrawn(s, op)) + Step(s, op).live.notes == s.notes + AddedBy(op)
  {
  }

  lemma DeliveredPrefix(p: seq<RawState>, t: seq<RawState>)
    requires |p| <= 1
    ensures Delivered(p + t) == Delivered(p) + Delivered(t)
  {
    if p == [] {
      assert p + t == t;
    } else {
      var x := p[0];
      assert p == [x];
      assert ([x] + t)[0] == x && ([x] + t)[1..] == t;
      assert [x][1..] == [];
      assert Delivered([x]) == x.notes;
    }
  }

  lemma SeqChain<T>(dp: seq<T>, dt: seq<T>, ln: seq<T>, ll: seq<T>, sn: seq<T>, ab: seq<T>, ar: seq<T>)
    requires dt + ll == ln + ar
    requires dp + ln == sn + ab
    ensures (dp + dt) + ll == sn + (ab + ar)
  {
    calc {
      (dp + dt) + ll;
      dp + (dt + ll);
      dp + (ln + ar);
      (dp + ln) + ar;
      (sn + ab) + ar;
    }
  }

  /**
   * No note is lost or duplicated: over a run without Reset, the notes
   * handed out by the redraws, followed by those still live, are exactly the
   * notes there were at the start followed by the notes added, in order.
   */
  lemma {:induction false} NotesConserved(s: RawState, ops: seq<Op>)
    requires ResetOp !in ops
    ensures Delivered(Run(s, ops).redraws) + Run(s, ops).live.notes == s.notes + Added(ops)
    decreases |ops|
  {
    if ops != [] {
      var op, rest := ops[0], ops[1..];
      assert ops == [op] + rest;
      var live := Step(s, op).live;
      NotesConserved(live, rest);
      StepConservesNotes(s, op);
      var t := Run(live, rest);
      var p := Redrawn(s, op);
      DeliveredPrefix(p, t.redraws);
      assert Run(s, ops) == Trace(t.live, p + t.redraws);
      assert Added(ops) == AddedBy(op) + Added(rest);
      SeqChain(Delivered(p), Delivered(t.redraws), live.notes, t.live.notes, s.notes, AddedBy(op), Added(rest));
    }
  }

  /**
   * Once the live notes are empty, a run that adds no note gives the
   * renderer only empty notes, whether redrawing or finalizing, and leaves
   * the live notes empty.
   */
  lemma {:induction false} NoNoteAfterPop(s: RawState, ops: seq<Op>)
    requires s.notes == []
    requires forall k | 0 <= k < |ops| :: !ops[k].AddNoteOp?
    ensures forall k | 0 <= k < |Run(s, ops).redraws| :: Run(s, ops).redraws[k].notes == []
    ensures forall k | 0 <= k < |ops| && ops[k] == FinalizeOp :: FinalSnapshot(Run(s, ops[..k]).live).notes == []
    ensures Run(s, ops).live.notes == []
    decreases |ops|
  {
    if ops != [] {
      var o := Step(s, ops[0]);
      NoNoteAfterPop(o.live, ops[1..]);
      forall k | 0 <= k < |ops| && ops[k] == FinalizeOp
        ensures FinalSnapshot(Run(s, ops[..k]).live).notes == []
      {
        if k == 0 {
          assert ops[..k] == [];
        } else {
          assert ops[..k][0] == ops[0];
          assert ops[..k][1..] == ops[1..][..k - 1];
          assert ops[1..][k - 1] == FinalizeOp;
        }
      }
    }
  }

  /** Finalize changes nothing: a run with a Finalize call in it ends as it would without, and redraws the same. */
  lemma FinalizeLeavesStateAlone(s: RawState, a: seq<Op>, b: seq<Op>)
    ensures Run(s, a + [FinalizeOp] + b) == Run(s, a + b)
  {
    var m := Run(s, a).live;
    RunFinalize(m);
    RunAppend(s, a, [FinalizeOp]);
    assert Run(s, a + [FinalizeOp]) == Trace(m, Run(s, a).redraws);
    RunAppend(s, a + [FinalizeOp], b);
    RunAppend(s, a, b);
  }

  /** A lone Finalize call leaves the live state and redraws nothing. */
  lemma RunFinalize(m: RawState)
    ensures Run(m, [FinalizeOp]) == Trace(m, [])
  {
  }

  /** Whatever came before, a Reset leaves the zero state and redraws nothing more. */
  lemma ResetForgetsHistory(s: RawState, a: seq<Op>)
    ensures Run(s, a + [ResetOp]).live == ZeroState()
    ensures Run(s, a + [ResetOp]).redraws == Run(s, a).redraws
  {
    RunAppend(s, a, [ResetOp]);
    assert [ResetOp][1..] == [];
  }
}
