/**
 * The linear undo log of the studio page: a list of snapshots and a cursor
 * `index` naming the snapshot on the canvas. The cursor is -1 while the list is
 * empty, before the canvas is first saved.
 */
module History {

  datatype History<T> = History(snapshots: seq<T>, index: int)

  /** The cursor names an entry, or is -1 and there are no entries. */
  predicate Valid<T>(h: History<T>) {
    if h.snapshots == [] then h.index == -1 else 0 <= h.index < |h.snapshots|
  }

  /** The snapshot at the cursor. */
  function Current<T>(h: History<T>): T
    requires Valid(h) && h.snapshots != []
  {
    h.snapshots[h.index]
  }

  /** The log before the canvas is first saved. */
  function Empty<T>(): (h: History<T>)
    ensures Valid(h) && h.snapshots == []
  {
    History([], -1)
  }

  predicate CanUndo<T>(h: History<T>) { h.index > 0 }
  predicate CanRedo<T>(h: History<T>) { h.index < |h.snapshots| - 1 }

  /**
   * saveToHistory: keep the entries up to and including the cursor, append
   * the new snapshot and move the cursor onto it. Whatever could have been
   * redone is gone.
   */
  function Push<T>(h: History<T>, x: T): (r: History<T>)
    requires Valid(h)
    ensures Valid(r) && r.snapshots != []
    ensures r.index == h.index + 1 && |r.snapshots| == r.index + 1
    ensures Current(r) == x && !CanRedo(r)
    ensures forall i :: 0 <= i <= h.index ==> r.snapshots[i] == h.snapshots[i]
  {
    var kept := h.snapshots[..h.index + 1];
    History(kept + [x], |kept|)
  }

  /** undo: step the cursor back one entry unless it is on the first; the list is untouched. */
  function Undo<T>(h: History<T>): (r: History<T>)
    requires Valid(h)
    ensures Valid(r) && r.snapshots == h.snapshots
    ensures CanUndo(h) ==> r.index + 1 == h.index && CanRedo(r)
    ensures !CanUndo(h) ==> r == h
  {
    if h.index <= 0 then h else h.(index := h.index - 1)
  }

  /** redo: step the cursor forward one entry unless it is on the last; the list is untouched. */
  function Redo<T>(h: History<T>): (r: History<T>)
    requires Valid(h)
    ensures Valid(r) && r.snapshots == h.snapshots
    ensures CanRedo(h) ==> r.index == h.index + 1 && CanUndo(r)
    ensures !CanRedo(h) ==> r == h
  {
    if h.index >= |h.snapshots| - 1 then h else h.(index := h.index + 1)
  }

  /** `n` undos in a row. */
  function UndoN<T>(h: History<T>, n: nat): (r: History<T>)
    requires Valid(h)
    ensures Valid(r)
    decreases n
  {
    if n == 0 then h else UndoN(Undo(h), n - 1)
  }

  /** `n` redos in a row. */
  function RedoN<T>(h: History<T>, n: nat): (r: History<T>)
    requires Valid(h)
    ensures Valid(r)
    decreases n
  {
    if n == 0 then h else RedoN(Redo(h), n - 1)
  }

  /** The snapshots in `xs` pushed one after the other. */
  function PushAll<T>(h: History<T>, xs: seq<T>): (r: History<T>)
    requires Valid(h)
    ensures Valid(r)
    decreases |xs|
  {
    if xs == [] then h else PushAll(Push(h, xs[0]), xs[1..])
  }

  /** Undo followed by redo gives back the log exactly. */
  lemma UndoThenRedo<T>(h: History<T>)
    requires Valid(h) && CanUndo(h)
    ensures Redo(Undo(h)) == h
  {
  }

  /** Redo followed by undo gives back the log exactly. */
  lemma RedoThenUndo<T>(h: History<T>)
    requires Valid(h) && CanRedo(h)
    ensures Undo(Redo(h)) == h
  {
  }

  /** Pushing after undoing leaves nothing to redo: a redo is then a no-op. */
  lemma PushAfterUndoDiscardsRedo<T>(h: History<T>, x: T)
    requires Valid(h) && CanUndo(h)
    ensures var r := Push(Undo(h), x);
      Redo(r) == r && |r.snapshots| == h.index + 1 && r.snapshots[..h.index] == h.snapshots[..h.index]
  {
  }

  /**
   * `n` undos move the cursor back `n` entries, stopping at the first entry,
   * and never change the list.
   */
  lemma {:induction false} UndoNMovesBack<T>(h: History<T>, n: nat)
    requires Valid(h) && h.snapshots != []
    ensures UndoN(h, n).snapshots == h.snapshots
    ensures UndoN(h, n).index == if n <= h.index then h.index - n else 0
    decreases n
  {
    if n > 0 {
      UndoNMovesBack(Undo(h), n - 1);
    }
  }

  /** Undoing `n` steps and redoing `n` steps gives back the log exactly. */
  lemma {:induction false} UndoNThenRedoN<T>(h: History<T>, n: nat)
    requires Valid(h) && n <= h.index
    ensures RedoN(UndoN(h, n), n) == h
    decreases n
  {
    if n > 0 {
      UndoNThenRedoN(Undo(h), n - 1);
      // RedoN(UndoN(Undo(h), n-1), n-1) == Undo(h); one more redo restores h
      RedoNLast(UndoN(h, n), n - 1);
      UndoNMovesBack(h, n);
    }
  }

  /** The last of `n + 1` redos can be taken first. */
  lemma {:induction false} RedoNLast<T>(h: History<T>, n: nat)
    requires Valid(h)
    ensures RedoN(h, n + 1) == Redo(RedoN(h, n))
    decreases n
  {
    if n > 0 {
      RedoNLast(Redo(h), n - 1);
    }
  }

  /**
   * Pushing `xs` keeps the entries up to the cursor, puts `xs` after them in
   * order, and leaves the cursor on the last one pushed.
   */
  lemma {:induction false} PushAllAppends<T>(h: History<T>, xs: seq<T>)
    requires Valid(h)
    ensures var r := PushAll(h, xs);
      && r.index == h.index + |xs|
      && (forall i :: 0 <= i <= h.index ==> r.snapshots[i] == h.snapshots[i])
      && (forall j :: 0 <= j < |xs| ==> r.snapshots[h.index + 1 + j] == xs[j])
    decreases |xs|
  {
    if xs != [] {
      var h' := Push(h, xs[0]);
      PushAllAppends(h', xs[1..]);
      var r := PushAll(h, xs);
      assert r == PushAll(h', xs[1..]);
      forall j | 0 <= j < |xs|
        ensures r.snapshots[h.index + 1 + j] == xs[j]
      {
        if j > 0 {
          assert xs[1..][j - 1] == xs[j];
        }
      }
    }
  }

  /**
   * After any number of pushes, as many undos bring back the snapshot that was
   * current before them.
   */
  lemma PushesThenUndos<T>(h: History<T>, xs: seq<T>)
    requires Valid(h) && h.snapshots != []
    ensures var r := UndoN(PushAll(h, xs), |xs|);
      r.index == h.index && Current(r) == Current(h)
  {
    PushAllAppends(h, xs);
    var p := PushAll(h, xs);
    UndoNMovesBack(p, |xs|);
    assert p.snapshots[h.index] == h.snapshots[h.index];
  }

  /** A push from a non-empty log keeps the first entry. */
  lemma PushKeepsFirst<T>(h: History<T>, x: T)
    requires Valid(h) && h.snapshots != []
    ensures Push(h, x).snapshots[0] == h.snapshots[0]
  {
  }
}
