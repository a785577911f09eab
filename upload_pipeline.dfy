/**
 * The audio upload pipeline of the recording session with its interleavings
 * (components/recording-session.tsx, the ondataavailable handler). Each
 * data event appends its chunk to the buffer and starts an upload of a
 * snapshot of the whole buffer; uploads settle later, in any order, and
 * more data events can arrive meanwhile. Chunks are named by their position
 * in the recording.
 *
 * As written, a successful upload empties the buffer, including chunks that
 * arrived after its snapshot was taken. If the upload carrying such a chunk
 * then fails, the chunk is gone: it is not delivered, not buffered and not in
 * flight. The corrected pipeline removes from the buffer only what the
 * successful upload carried, and never loses a chunk. When uploads do not
 * overlap the two coincide, which is the case the RecordingSession class
 * models.
 */
module UploadPipeline {

  datatype State = State(next: nat, buffer: seq<nat>, inFlight: seq<seq<nat>>, delivered: set<nat>)

  /** A data event, or upload number `k` among those in flight settling. */
  datatype Step = Emit | Settle(k: nat, ok: bool)

  const Start := State(0, [], [], {})

  /** A non-empty chunk arrives: it joins the buffer and the whole buffer is sent. */
  function Emitted(s: State): (r: State)
    ensures r.next == s.next + 1 && r.buffer == s.buffer + [s.next] && r.delivered == s.delivered
    ensures r.inFlight == s.inFlight + [r.buffer]
  {
    var b := s.buffer + [s.next];
    State(s.next + 1, b, s.inFlight + [b], s.delivered)
  }

  /** `xs` without the elements of `ys`, in order. */
  function Without(xs: seq<nat>, ys: seq<nat>): (r: seq<nat>)
    ensures forall x :: x in r <==> x in xs && x !in ys
  {
    if xs == [] then []
    else (if xs[0] in ys then [] else [xs[0]]) + Without(xs[1..], ys)
  }

  function Removed(q: seq<seq<nat>>, k: nat): (r: seq<seq<nat>>)
    requires k < |q|
    ensures |r| == |q| - 1
    ensures forall x :: x in r ==> x in q
  {
    q[..k] + q[k + 1..]
  }

  function Elements(xs: seq<nat>): (r: set<nat>)
    ensures forall x :: x in r <==> x in xs
  {
    set x | x in xs
  }

  /** Settlement as written: on success the buffer is emptied. */
  function SettledAsWritten(s: State, k: nat, ok: bool): State
    requires k < |s.inFlight|
  {
    var rest := Removed(s.inFlight, k);
    if ok then State(s.next, [], rest, s.delivered + Elements(s.inFlight[k]))
    else State(s.next, s.buffer, rest, s.delivered)
  }

  /** Corrected settlement: on success only what this upload carried leaves the buffer. */
  function SettledCorrected(s: State, k: nat, ok: bool): State
    requires k < |s.inFlight|
  {
    var rest := Removed(s.inFlight, k);
    if ok then State(s.next, Without(s.buffer, s.inFlight[k]), rest, s.delivered + Elements(s.inFlight[k]))
    else State(s.next, s.buffer, rest, s.delivered)
  }

  /** One step; settling an upload that is not in flight does nothing. */
  function Next(s: State, step: Step, corrected: bool): State {
    match step
    case Emit => Emitted(s)
    case Settle(k, ok) =>
      if k >= |s.inFlight| then s
      else if corrected then SettledCorrected(s, k, ok)
      else SettledAsWritten(s, k, ok)
  }

  function Run(s: State, steps: seq<Step>, corrected: bool): State
    decreases |steps|
  {
    if steps == [] then s else Run(Next(s, steps[0], corrected), steps[1..], corrected)
  }

  /** Chunk `i` is delivered or still buffered for a later upload. */
  predicate Kept(s: State, i: nat) {
    i in s.delivered || i in s.buffer
  }

  /** No chunk emitted so far has been lost. */
  predicate NoLoss(s: State) {
    forall i: nat :: i < s.next ==> Kept(s, i)
  }

  /** Chunk `i` was emitted, yet it is not delivered, not buffered and in no upload in flight. */
  predicate Lost(s: State, i: nat) {
    && i < s.next && i !in s.delivered && i !in s.buffer
    && forall u :: u in s.inFlight ==> i !in u
  }

  lemma {:induction false} RunAppend(s: State, a: seq<Step>, b: seq<Step>, corrected: bool)
    ensures Run(s, a + b, corrected) == Run(Run(s, a, corrected), b, corrected)
    decreases |a|
  {
    if a == [] {
      assert a + b == b;
    } else {
      assert (a + b)[1..] == a[1..] + b;
      RunAppend(Next(s, a[0], corrected), a[1..], b, corrected);
    }
  }

  /** Every step of the corrected pipeline keeps every chunk. */
  lemma CorrectedStepKeeps(s: State, step: Step)
    requires NoLoss(s)
    ensures NoLoss(Next(s, step, true))
  {
    var r := Next(s, step, true);
    forall i: nat | i < r.next
      ensures Kept(r, i)
    {
      if step.Emit? {
        if i < s.next {
          assert Kept(s, i);
        } else {
          assert r.buffer[|r.buffer| - 1] == i;
        }
      } else {
        assert Kept(s, i);
      }
    }
  }

  /** The corrected pipeline never loses a chunk, whatever the interleaving. */
  lemma {:induction false} CorrectedRunKeeps(s: State, steps: seq<Step>)
    requires NoLoss(s)
    ensures NoLoss(Run(s, steps, true))
    decreases |steps|
  {
    if steps != [] {
      CorrectedStepKeeps(s, steps[0]);
      CorrectedRunKeeps(Next(s, steps[0], true), steps[1..]);
    }
  }

  lemma CorrectedNeverLoses(steps: seq<Step>)
    ensures NoLoss(Run(Start, steps, true))
  {
    CorrectedRunKeeps(Start, steps);
  }

  /** As written, a lost chunk stays lost whatever happens next. */
  lemma LostStep(s: State, step: Step, i: nat)
    requires Lost(s, i)
    ensures Lost(Next(s, step, false), i)
  {
  }

  lemma {:induction false} LostForever(s: State, steps: seq<Step>, i: nat)
    requires Lost(s, i)
    ensures Lost(Run(s, steps, false), i)
    decreases |steps|
  {
    if steps != [] {
      LostStep(s, steps[0], i);
      LostForever(Next(s, steps[0], false), steps[1..], i);
    }
  }

  /**
   * Two chunks, the first upload succeeding before the second fails: as
   * written, chunk 1 is never delivered, whatever follows.
   */
  const Overlap := [Emit, Emit, Settle(0, true), Settle(0, false)]

  lemma AsWrittenLosesChunk(more: seq<Step>)
    ensures !NoLoss(Run(Start, Overlap, false))
    ensures 1 !in Run(Start, Overlap + more, false).delivered
  {
    var s1 := Emitted(Start);
    assert s1.buffer == [] + [0] == [0];
    assert s1.inFlight == [] + [[0]] == [[0]];
    var s2 := Emitted(s1);
    assert s2.buffer == [0] + [1] == [0, 1];
    assert s2.inFlight == [[0]] + [[0, 1]] == [[0], [0, 1]];
    var s3 := SettledAsWritten(s2, 0, true);
    assert s3.inFlight == [[0, 1]];
    var s4 := SettledAsWritten(s3, 0, false);
    assert s4 == State(2, [], [], {0});
    assert Run(Start, Overlap, false) == s4 by {
      assert Overlap[1..][1..][1..][1..] == [];
    }
    assert !Kept(s4, 1);
    assert Lost(s4, 1);
    RunAppend(Start, Overlap, more, false);
    LostForever(s4, more, 1);
  }

  /** The same interleaving loses nothing in the corrected pipeline. */
  lemma CorrectedKeepsOverlap()
    ensures Run(Start, Overlap, true).buffer == [1]
  {
    var s1 := Emitted(Start);
    assert s1.buffer == [] + [0] == [0];
    assert s1.inFlight == [] + [[0]] == [[0]];
    var s2 := Emitted(s1);
    assert s2.buffer == [0] + [1] == [0, 1];
    assert s2.inFlight == [[0]] + [[0, 1]] == [[0], [0, 1]];
    var s3 := SettledCorrected(s2, 0, true);
    assert s3.buffer == [1] by {
      assert s2.buffer == [0, 1];
      assert Without([1], [0]) == [1] by { assert [1][1..] == []; }
      assert s2.buffer[1..] == [1];
    }
    var s4 := SettledCorrected(s3, 0, false);
    assert Run(Start, Overlap, true) == s4 by {
      assert Overlap[1..][1..][1..][1..] == [];
    }
  }

  lemma {:induction false} WithoutAll(xs: seq<nat>)
    ensures Without(xs, xs) == []
  {
    if xs != [] {
      assert forall x :: x in Without(xs, xs) ==> false;
    }
  }

  /**
   * When the only upload in flight carries the whole buffer (no data event
   * ran while it was pending), the corrected settlement is the written one.
   */
  lemma AgreeWithoutOverlap(s: State, ok: bool)
    requires s.inFlight == [s.buffer]
    ensures SettledCorrected(s, 0, ok) == SettledAsWritten(s, 0, ok)
  {
    WithoutAll(s.buffer);
  }
}
