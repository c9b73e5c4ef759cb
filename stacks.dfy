/**
 * The per-page undo/redo bookkeeping as pure functions over the two stacks
 * of one page. The history store (module History) performs exactly these
 * steps on its maps; the lemmas here are what the steps promise.
 */
module Stacks {
  import opened Common

  /** Once a page's history holds this many snapshots, `update` drops the oldest. */
  const MAX_HISTORY: nat := 100

  /** The history and redo stacks of one page (an absent redo stack reads as empty). */
  datatype Stacks = Stacks(history: seq<Snapshot>, redo: seq<Snapshot>)

  /** What an undo or redo asks the canvas to do with its content. */
  datatype Restore = Keep | ClearScene | Load(snapshot: Snapshot)

  /** The new stacks of a page and the canvas effect of one step. */
  datatype Outcome = Outcome(stacks: Stacks, restore: Restore)

  function Total(st: Stacks): nat
  {
    |st.history| + |st.redo|
  }

  /** The bound the undo/redo handlers rely on: together the stacks hold at most MAX_HISTORY snapshots. */
  predicate Bounded(st: Stacks)
  {
    Total(st) <= MAX_HISTORY
  }

  /** What `Array.prototype.pop` returns: the last element, or undefined on an empty array. */
  function Top(h: seq<Snapshot>): (r: Option<Snapshot>)
    ensures r.None? <==> h == []
    ensures r.Some? ==> Pop(h) + [r.value] == h
  {
    if h == [] then None else Some(h[|h| - 1])
  }

  /** What `Array.prototype.pop` leaves behind. */
  function Pop(h: seq<Snapshot>): (r: seq<Snapshot>)
    ensures h == [] ==> r == []
    ensures h != [] ==> r + [h[|h| - 1]] == h
  {
    if h == [] then [] else h[..|h| - 1]
  }

  /** Every snapshot is a non-empty string (true of everything `update` serializes). */
  predicate AllTruthy(h: seq<Snapshot>)
  {
    forall i :: 0 <= i < |h| ==> Truthy(h[i])
  }

  // ---------------------------------------------------------------------
  // update: bounded append
  // ---------------------------------------------------------------------

  /**
   * The history after `update` appends snapshot `s`: when the history is full
   * the oldest entry is shifted off first.
   */
  function Record(h: seq<Snapshot>, s: Snapshot): (r: seq<Snapshot>)
    ensures r != [] && r[|r| - 1] == s
    ensures |r| == if |h| < MAX_HISTORY then |h| + 1 else |h|
    ensures r[..|r| - 1] == h[|h| - (|r| - 1)..]
  {
    (if |h| >= MAX_HISTORY then h[1..] else h) + [s]
  }

  /** The last (at most) MAX_HISTORY elements of a sequence: the reference definition of FIFO eviction. */
  function Newest(x: seq<Snapshot>): (r: seq<Snapshot>)
    ensures |r| == if |x| < MAX_HISTORY then |x| else MAX_HISTORY
    ensures r == x[|x| - |r|..]
  {
    if |x| <= MAX_HISTORY then x else x[|x| - MAX_HISTORY..]
  }

  /** The history after `update` has appended each of `ss` in turn. */
  function RecordAll(h: seq<Snapshot>, ss: seq<Snapshot>): seq<Snapshot>
    decreases |ss|
  {
    if ss == [] then h else RecordAll(Record(h, ss[0]), ss[1..])
  }

  /** One `update` on a history within the bound keeps exactly its newest entries. */
  lemma RecordIsNewest(h: seq<Snapshot>, s: Snapshot)
    requires |h| <= MAX_HISTORY
    ensures Record(h, s) == Newest(h + [s])
  {
    if |h| == MAX_HISTORY {
      assert (h + [s])[1..] == h[1..] + [s];
    }
  }

  /** Keeping the newest entries twice is keeping them once. */
  lemma NewestOfNewest(x: seq<Snapshot>, y: seq<Snapshot>)
    ensures Newest(Newest(x) + y) == Newest(x + y)
  {
    if |x| > MAX_HISTORY {
      var k := |x| - MAX_HISTORY;
      var w := Newest(x) + y;
      assert w == (x + y)[k..];
      assert Newest(w) == w[|w| - MAX_HISTORY..];
      assert w[|w| - MAX_HISTORY..] == (x + y)[|x + y| - MAX_HISTORY..];
    }
  }

  /** One `update` followed by more snapshots keeps the same newest entries as appending them all. */
  lemma RecordThenNewest(h: seq<Snapshot>, s: Snapshot, rest: seq<Snapshot>)
    requires |h| <= MAX_HISTORY
    ensures Newest(Record(h, s) + rest) == Newest(h + ([s] + rest))
  {
    var a := h + [s];
    assert a + rest == h + ([s] + rest);
    RecordIsNewest(h, s);
    NewestOfNewest(a, rest);
  }

  /**
   * FIFO eviction: after any run of `update`s on a history within the bound,
   * the history is the newest MAX_HISTORY entries of the old history followed
   * by the recorded snapshots, in order.
   */
  lemma {:induction false} RecordAllIsNewest(h: seq<Snapshot>, ss: seq<Snapshot>)
    requires |h| <= MAX_HISTORY
    ensures RecordAll(h, ss) == Newest(h + ss)
    decreases |ss|
  {
    if ss == [] {
      assert h + ss == h;
    } else {
      var h' := Record(h, ss[0]);
      assert |h'| <= MAX_HISTORY;
      RecordAllIsNewest(h', ss[1..]);
      RecordThenNewest(h, ss[0], ss[1..]);
      assert [ss[0]] + ss[1..] == ss;
    }
  }

  /** N edits on a fresh page leave min(N, MAX_HISTORY) snapshots: the newest ones. */
  lemma EditsOnFreshPage(ss: seq<Snapshot>)
    ensures |RecordAll([], ss)| == if |ss| < MAX_HISTORY then |ss| else MAX_HISTORY
    ensures RecordAll([], ss) == ss[|ss| - |RecordAll([], ss)|..]
  {
    RecordAllIsNewest([], ss);
    assert [] + ss == ss;
  }

  // ---------------------------------------------------------------------
  // undo / redo
  // ---------------------------------------------------------------------

  /** The canvas effect after an undo: load the new top snapshot, or clear when there is none. */
  function ShowTop(h: seq<Snapshot>): Restore
  {
    match Top(h)
    case Some(last) => if Truthy(last) then Load(last) else ClearScene
    case None => ClearScene
  }

  /**
   * The undo handler: pop the most recent snapshot; a non-empty one goes onto
   * the redo stack and the canvas shows what is now on top of the history.
   */
  function UndoStep(st: Stacks): (o: Outcome)
    ensures o.stacks.history == Pop(st.history) && Total(o.stacks) <= Total(st)
    ensures st.history == [] ==> o == Outcome(st, Keep)
    ensures o.restore != Keep <==> Top(st.history).Some? && Truthy(Top(st.history).value)
    ensures Top(st.history).Some? && !Truthy(Top(st.history).value) ==> o.stacks.redo == st.redo
  {
    match Top(st.history)
    case None => Outcome(st, Keep)
    case Some(recent) =>
      var rest := Pop(st.history);
      if Truthy(recent) then Outcome(Stacks(rest, st.redo + [recent]), ShowTop(rest))
      else Outcome(Stacks(rest, st.redo), Keep)
  }

  /**
   * The redo handler: pop the most recent undone snapshot; a non-empty one is
   * appended to the history and loaded onto the canvas.
   */
  function RedoStep(st: Stacks): (o: Outcome)
    ensures o.stacks.redo == Pop(st.redo) && Total(o.stacks) <= Total(st)
    ensures st.redo == [] ==> o == Outcome(st, Keep)
    ensures o.restore != Keep <==> Top(st.redo).Some? && Truthy(Top(st.redo).value)
    ensures Top(st.redo).Some? && !Truthy(Top(st.redo).value) ==> o.stacks.history == st.history
  {
    match Top(st.redo)
    case None => Outcome(st, Keep)
    case Some(lastUndo) =>
      var rest := Pop(st.redo);
      if Truthy(lastUndo) then Outcome(Stacks(st.history + [lastUndo], rest), Load(lastUndo))
      else Outcome(Stacks(st.history, rest), Keep)
  }

  /** Undo immediately followed by redo restores both stacks and reloads the snapshot that was on top. */
  lemma UndoRedoRoundTrip(st: Stacks)
    requires st.history != [] && Truthy(st.history[|st.history| - 1])
    ensures UndoStep(st).stacks.redo != []
    ensures RedoStep(UndoStep(st).stacks) == Outcome(st, Load(st.history[|st.history| - 1]))
  {
    var top := st.history[|st.history| - 1];
    var u := UndoStep(st).stacks;
    assert u.redo == st.redo + [top];
    assert Pop(u.redo) == st.redo;
    assert u.history + [top] == st.history;
  }

  /** Redo immediately followed by undo restores both stacks. */
  lemma RedoUndoRoundTrip(st: Stacks)
    requires st.redo != [] && Truthy(st.redo[|st.redo| - 1])
    ensures UndoStep(RedoStep(st).stacks).stacks == st
  {
    var top := st.redo[|st.redo| - 1];
    var r := RedoStep(st).stacks;
    assert r.history == st.history + [top];
    assert Pop(r.history) == st.history;
    assert r.redo + [top] == st.redo;
  }

  /** The reversal of a sequence. */
  function Reverse(s: seq<Snapshot>): (r: seq<Snapshot>)
    ensures |r| == |s|
    ensures forall i :: 0 <= i < |s| ==> r[i] == s[|s| - 1 - i]
  {
    if s == [] then [] else Reverse(s[1..]) + [s[0]]
  }

  /**
   * All snapshots of a page in the order they were made: the history followed
   * by the redo stack read from its top down. Undo and redo only move the
   * boundary between the two stacks along this timeline.
   */
  function Timeline(st: Stacks): seq<Snapshot>
  {
    st.history + Reverse(st.redo)
  }

  lemma ReverseSnoc(s: seq<Snapshot>, x: Snapshot)
    ensures Reverse(s + [x]) == [x] + Reverse(s)
  {
    assert forall i :: 0 <= i < |s| + 1 ==> Reverse(s + [x])[i] == ([x] + Reverse(s))[i];
  }

  /** An undo that moves a snapshot keeps the timeline and moves the cursor back by one. */
  lemma UndoKeepsTimeline(st: Stacks)
    requires st.history != [] && Truthy(st.history[|st.history| - 1])
    ensures Timeline(UndoStep(st).stacks) == Timeline(st)
    ensures |UndoStep(st).stacks.history| == |st.history| - 1
  {
    var top := st.history[|st.history| - 1];
    var rest := st.history[..|st.history| - 1];
    ReverseSnoc(st.redo, top);
    assert rest + ([top] + Reverse(st.redo)) == st.history + Reverse(st.redo);
  }

  /** A redo that moves a snapshot keeps the timeline and moves the cursor forward by one. */
  lemma RedoKeepsTimeline(st: Stacks)
    requires st.redo != [] && Truthy(st.redo[|st.redo| - 1])
    ensures Timeline(RedoStep(st).stacks) == Timeline(st)
    ensures |RedoStep(st).stacks.history| == |st.history| + 1
  {
    var top := st.redo[|st.redo| - 1];
    var rest := st.redo[..|st.redo| - 1];
    assert st.redo == rest + [top];
    ReverseSnoc(rest, top);
    assert (st.history + [top]) + Reverse(rest) == st.history + ([top] + Reverse(rest));
  }

  /**
   * When every snapshot is a non-empty string, an undo or redo that changes
   * anything leaves the canvas showing the new top of the history (or blank).
   */
  lemma SceneFollowsHistory(st: Stacks)
    requires AllTruthy(st.history) && AllTruthy(st.redo)
    ensures st.history != [] ==> UndoStep(st).restore == ShowTop(UndoStep(st).stacks.history)
    ensures st.redo != [] ==> RedoStep(st).restore == ShowTop(RedoStep(st).stacks.history)
    ensures UndoStep(st).stacks.history != [] && st.history != [] ==> UndoStep(st).restore.Load?
  {
    if st.history != [] {
      var h := st.history;
      assert Truthy(h[|h| - 1]);
      if |h| > 1 {
        var rest := h[..|h| - 1];
        assert Pop(h) == rest && rest[|rest| - 1] == h[|h| - 2];
        assert Truthy(rest[|rest| - 1]);
      }
    }
    if st.redo != [] {
      var top := st.redo[|st.redo| - 1];
      assert Truthy(top);
      assert RedoStep(st).stacks.history == st.history + [top];
    }
  }

  // ---------------------------------------------------------------------
  // clear / clearPage
  // ---------------------------------------------------------------------

  /** The `clear(lastUpdate)` helper: keep `lastUpdate` as the only restore point if it is a non-empty string. */
  function ClearTo(lastUpdate: Option<Snapshot>): (r: seq<Snapshot>)
    ensures |r| <= 1
    ensures r == [] <==> lastUpdate.None? || !Truthy(lastUpdate.value)
    ensures r != [] ==> r[0] == lastUpdate.value
  {
    if lastUpdate.Some? && Truthy(lastUpdate.value) then [lastUpdate.value] else []
  }

  /** The clearPage handler: `clear(history.pop())`; the redo stack is left alone. */
  function ClearPageStep(st: Stacks): (r: Stacks)
    ensures r.redo == st.redo && |r.history| <= 1 && Total(r) <= Total(st)
    ensures r.history == [] <==> st.history == [] || !Truthy(st.history[|st.history| - 1])
    ensures r.history != [] ==> r.history[0] == st.history[|st.history| - 1]
  {
    Stacks(ClearTo(Top(st.history)), st.redo)
  }

  /** clearPage on a page without history, then undo: nothing changes. */
  lemma ClearEmptyPageThenUndo(st: Stacks)
    requires st.history == []
    ensures UndoStep(ClearPageStep(st)) == Outcome(st, Keep)
  {
  }

  /** clearPage keeping one restore point, then undo: the history empties and the canvas is cleared. */
  lemma ClearPageThenUndo(st: Stacks)
    requires st.history != [] && Truthy(st.history[|st.history| - 1])
    ensures UndoStep(ClearPageStep(st)) == Outcome(Stacks([], st.redo + [st.history[|st.history| - 1]]), ClearScene)
  {
  }

  // ---------------------------------------------------------------------
  // The bound across any sequence of handler calls
  // ---------------------------------------------------------------------

  /** The actions that change a page's stacks. */
  datatype Action = Edit(snapshot: Snapshot) | UndoAction | RedoAction | ClearPageAction

  function Step(st: Stacks, a: Action): Stacks
  {
    match a
    case Edit(s) => Stacks(Record(st.history, s), [])
    case UndoAction => UndoStep(st).stacks
    case RedoAction => RedoStep(st).stacks
    case ClearPageAction => ClearPageStep(st)
  }

  function Run(st: Stacks, acts: seq<Action>): Stacks
    decreases |acts|
  {
    if acts == [] then st else Run(Step(st, acts[0]), acts[1..])
  }

  /** Each action keeps history plus redo within MAX_HISTORY. */
  lemma StepKeepsBound(st: Stacks, a: Action)
    requires Bounded(st)
    ensures Bounded(Step(st, a))
  {
  }

  /** Any sequence of edits, undos, redos and page clears keeps history plus redo within MAX_HISTORY. */
  lemma {:induction false} RunKeepsBound(st: Stacks, acts: seq<Action>)
    requires Bounded(st)
    ensures Bounded(Run(st, acts))
    ensures |Run(st, acts).history| <= MAX_HISTORY
    decreases |acts|
  {
    if acts != [] {
      StepKeepsBound(st, acts[0]);
      RunKeepsBound(Step(st, acts[0]), acts[1..]);
    }
  }

  /** After an edit there is nothing to redo. */
  lemma RedoAfterEditIsNoop(st: Stacks, s: Snapshot)
    ensures RedoStep(Step(st, Edit(s))) == Outcome(Step(st, Edit(s)), Keep)
  {
  }
}
