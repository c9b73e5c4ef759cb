/**
 * The history store: the shared `STORE` of src/store.ts and the module-level
 * state of src/main.ts (the two hold the same bookkeeping) together with the
 * page handlers of src/main.ts that act on it: createPage, clearPage, undo
 * and redo. Every handler performs the matching step of module Stacks on the
 * active page's entries and leaves every other page alone.
 */
module History {
  import opened Common
  import opened Stacks
  import Canvas

  /** The canvas content after a restore step. */
  function Restored(b: Canvas.Base, r: Restore): Canvas.Base
  {
    match r
    case Keep => b
    case ClearScene => Canvas.Blank
    case Load(s) => Canvas.Loaded(s)
  }

  /** `redoUpdateStack[p] || []`: the redo stack of page `p`, an absent one read as empty. */
  function RedoIn(redo: map<PageId, seq<Snapshot>>, p: PageId): seq<Snapshot>
  {
    if p in redo then redo[p] else []
  }

  /** Every page with a history keeps its two stacks within the bound. */
  predicate AllBounded(history: map<PageId, seq<Snapshot>>, redo: map<PageId, seq<Snapshot>>)
  {
    forall p :: p in history ==> Bounded(Stacks(history[p], RedoIn(redo, p)))
  }

  /** Replacing one page's stacks by bounded ones keeps every page bounded. */
  lemma AllBoundedSet(history: map<PageId, seq<Snapshot>>, redo: map<PageId, seq<Snapshot>>, p: PageId, st: Stacks)
    requires AllBounded(history, redo) && Bounded(st)
    ensures AllBounded(history[p := st.history], redo[p := st.redo])
  {
    var h, r := history[p := st.history], redo[p := st.redo];
    forall q | q in h
      ensures Bounded(Stacks(h[q], RedoIn(r, q)))
    {
      if q != p {
        assert h[q] == history[q] && RedoIn(r, q) == RedoIn(redo, q);
      }
    }
  }

  /** Replacing one page's history keeps every page bounded when that page stays within the bound. */
  lemma AllBoundedSetHistory(history: map<PageId, seq<Snapshot>>, redo: map<PageId, seq<Snapshot>>, p: PageId, h: seq<Snapshot>)
    requires AllBounded(history, redo) && Bounded(Stacks(h, RedoIn(redo, p)))
    ensures AllBounded(history[p := h], redo)
  {
    var h' := history[p := h];
    forall q | q in h'
      ensures Bounded(Stacks(h'[q], RedoIn(redo, q)))
    {
      if q != p {
        assert h'[q] == history[q];
      }
    }
  }

  class HistoryStore {
    /** `pageHistoryStack`: per page, the snapshots to undo to, oldest first. */
    var history: map<PageId, seq<Snapshot>>
    /** `redoUpdateStack`: per page, the undone snapshots, most recently undone last. */
    var redo: map<PageId, seq<Snapshot>>
    /** `objectsPerPage`: per page, the registry of objects placed on it by id. */
    var objects: map<PageId, map<ObjectId, object>>
    /** `activePage`: the empty string while no page is active. */
    var activePage: PageId
    /** The canvas that undo, redo and clearPage restore. */
    const canvas: Canvas.Canvas

    /** The two stacks of page `p`, which must have a history. */
    function StacksOf(p: PageId): Stacks
      reads this
      requires p in history
    {
      Stacks(history[p], RedoIn(redo, p))
    }

    ghost predicate Valid()
      reads this
    {
      && (activePage != "" ==> activePage in history)
      && redo.Keys <= history.Keys
      && AllBounded(history, redo)
    }

    constructor (canvas: Canvas.Canvas)
      ensures Valid()
      ensures history == map[] && redo == map[] && objects == map[] && activePage == ""
      ensures this.canvas == canvas
    {
      history := map[];
      redo := map[];
      objects := map[];
      activePage := "";
      this.canvas := canvas;
    }

    /**
     * What `update` does to the store: nothing without an active page;
     * otherwise the bounded append of `s` to the active page's history and an
     * empty redo stack for that page.
     */
    twostate predicate Recorded(s: Snapshot)
      reads this
    {
      && activePage == old(activePage)
      && objects == old(objects)
      && if activePage == "" then history == old(history) && redo == old(redo)
         else
           && activePage in old(history)
           && history == old(history)[activePage := Record(old(history)[activePage], s)]
           && redo == old(redo)[activePage := []]
    }

    /** `update`: record snapshot `s` (the serialized canvas) for the active page. */
    method Update(s: Snapshot)
      requires Valid()
      modifies this
      ensures Valid() && Recorded(s)
    {
      if activePage != "" {
        var h := history[activePage];
        AllBoundedSet(history, redo, activePage, Stacks(Record(h, s), []));
        if |h| >= MAX_HISTORY {
          h := h[1..];
        }
        h := h + [s];
        history := history[activePage := h];
        if activePage !in redo || |redo[activePage]| > 0 {
          redo := redo[activePage := []];
        } else {
          UpdateSame(redo, activePage);
        }
      }
    }

    /**
     * `clear(lastUpdate)`: the active page's history becomes `[lastUpdate]`
     * when `lastUpdate` is a non-empty string and `[]` otherwise. The store
     * stays valid exactly when the page's two stacks stay within the bound
     * (a full redo stack plus a fresh restore point would exceed it).
     */
    method Clear(lastUpdate: Option<Snapshot>)
      requires Valid()
      modifies this
      ensures activePage == old(activePage) && redo == old(redo) && objects == old(objects)
      ensures history == if activePage == "" then old(history)
                         else old(history)[activePage := ClearTo(lastUpdate)]
      ensures Valid() <==> activePage == "" || |ClearTo(lastUpdate)| + |RedoIn(redo, activePage)| <= MAX_HISTORY
    {
      if activePage != "" {
        history := history[activePage := ClearTo(lastUpdate)];
        assert StacksOf(activePage) == Stacks(ClearTo(lastUpdate), RedoIn(redo, activePage));
      }
    }

    /** The createPage handler: a fresh page with an empty history becomes the active page. */
    method CreatePage(pageId: PageId)
      requires Valid()
      modifies this
      ensures Valid()
      ensures history == old(history)[pageId := []] && activePage == pageId
      ensures redo == old(redo) && objects == old(objects)
    {
      history := history[pageId := []];
      activePage := pageId;
    }

    /**
     * The clearPage handler: with an active page, the canvas is cleared, the
     * page's object registry emptied and its history cut to the popped top
     * snapshot; the redo stack is left as it was.
     */
    method ClearPage()
      requires Valid()
      modifies this, canvas
      ensures Valid()
      ensures activePage == old(activePage) && redo == old(redo)
      ensures old(activePage) == "" ==>
                history == old(history) && objects == old(objects) && unchanged(canvas)
      ensures old(activePage) != "" ==>
                && history == old(history)[activePage := ClearPageStep(old(StacksOf(activePage))).history]
                && objects == old(objects)[activePage := map[]]
                && canvas.base == Canvas.Blank && canvas.added == []
                && canvas.selection == old(canvas.selection)
    {
      if activePage == "" {
        return;
      }
      canvas.Clear();
      objects := objects[activePage := map[]];
      var h := history[activePage];
      var last := Top(h);
      AllBoundedSetHistory(history, redo, activePage, Pop(h));
      history := history[activePage := Pop(h)];
      assert |ClearTo(last)| <= |h|;
      Clear(last);
      UpdateTwice(old(history), activePage, Pop(h), ClearTo(last));
    }

    /**
     * The undo handler: the active page's stacks take the Undo step and the
     * canvas is restored as that step says. The page must have a history
     * (the handler throws otherwise).
     */
    method Undo()
      requires Valid() && activePage in history
      modifies this, canvas
      ensures Valid()
      ensures activePage == old(activePage) && objects == old(objects)
      ensures var o := UndoStep(old(StacksOf(activePage)));
              && history == old(history)[activePage := o.stacks.history]
              && redo == old(redo)[activePage := o.stacks.redo]
              && canvas.base == Restored(old(canvas.base), o.restore)
              && canvas.added == (if o.restore == Keep then old(canvas.added) else [])
              && canvas.selection == old(canvas.selection)
    {
      ghost var o := UndoStep(StacksOf(activePage));
      var redoStack := RedoIn(redo, activePage);
      var currentPageHistory := history[activePage];
      var recentUpdate := Top(currentPageHistory);
      currentPageHistory := Pop(currentPageHistory);
      if recentUpdate.Some? && Truthy(recentUpdate.value) {
        var last := Top(currentPageHistory);
        redoStack := redoStack + [recentUpdate.value];
        if last.Some? && Truthy(last.value) {
          canvas.LoadFromJson(last.value);
        } else {
          canvas.Clear();
        }
      }
      assert Stacks(currentPageHistory, redoStack) == o.stacks;
      AllBoundedSet(history, redo, activePage, o.stacks);
      history := history[activePage := currentPageHistory];
      redo := redo[activePage := redoStack];
    }

    /**
     * The redo handler: when the active page has a non-empty redo stack, its
     * stacks take the Redo step and the canvas loads the redone snapshot;
     * otherwise nothing happens.
     */
    method Redo()
      requires Valid()
      modifies this, canvas
      ensures Valid()
      ensures activePage == old(activePage) && objects == old(objects)
      ensures old(RedoIn(redo, activePage)) == [] ==>
                history == old(history) && redo == old(redo) && unchanged(canvas)
      ensures old(RedoIn(redo, activePage)) != [] ==>
                && activePage in old(history)
                && var o := RedoStep(old(StacksOf(activePage)));
                && history == old(history)[activePage := o.stacks.history]
                && redo == old(redo)[activePage := o.stacks.redo]
                && canvas.base == Restored(old(canvas.base), o.restore)
                && canvas.added == (if o.restore == Keep then old(canvas.added) else [])
                && canvas.selection == old(canvas.selection)
    {
      if activePage in redo && |redo[activePage]| > 0 {
        ghost var o := RedoStep(StacksOf(activePage));
        var activeRedoStack := redo[activePage];
        var currentPageHistory := history[activePage];
        var lastUndo := Top(activeRedoStack);
        activeRedoStack := Pop(activeRedoStack);
        if lastUndo.Some? && Truthy(lastUndo.value) {
          currentPageHistory := currentPageHistory + [lastUndo.value];
          canvas.LoadFromJson(lastUndo.value);
        }
        assert Stacks(currentPageHistory, activeRedoStack) == o.stacks;
        AllBoundedSet(history, redo, activePage, o.stacks);
        history := history[activePage := currentPageHistory];
        redo := redo[activePage := activeRedoStack];
      }
    }
  }

  /** Writing a key twice keeps the second value. */
  lemma UpdateTwice<V>(m: map<PageId, V>, k: PageId, a: V, b: V)
    ensures m[k := a][k := b] == m[k := b]
  {
  }

  /** Writing back the value a key already has changes nothing. */
  lemma UpdateSame<V>(m: map<PageId, V>, k: PageId)
    requires k in m
    ensures m[k := m[k]] == m
  {
  }

  /**
   * The undo handler immediately followed by the redo handler, on a page
   * whose latest snapshot is a non-empty string: both stacks are back as they
   * were (with the redo stack now defined) and the canvas shows that snapshot.
   */
  method UndoThenRedo(store: HistoryStore)
    requires store.Valid() && store.activePage in store.history
    requires var h := store.history[store.activePage]; h != [] && Truthy(h[|h| - 1])
    modifies store, store.canvas
    ensures store.Valid()
    ensures store.history == old(store.history)
    ensures store.redo == old(store.redo)[store.activePage := old(RedoIn(store.redo, store.activePage))]
    ensures store.canvas.base == Canvas.Loaded(old(store.history[store.activePage][|store.history[store.activePage]| - 1]))
    ensures store.canvas.added == [] && store.canvas.selection == old(store.canvas.selection)
    ensures store.activePage == old(store.activePage) && store.objects == old(store.objects)
  {
    ghost var p := store.activePage;
    ghost var before := store.StacksOf(p);
    ghost var top := before.history[|before.history| - 1];
    UndoRedoRoundTrip(before);
    ghost var undone := UndoStep(before).stacks;
    ghost var h0, r0 := store.history, store.redo;
    store.Undo();
    ghost var h1, r1 := store.history, store.redo;
    assert h1 == h0[p := undone.history] && r1 == r0[p := undone.redo];
    assert RedoIn(store.redo, p) == undone.redo;
    store.Redo();
    assert store.history == h1[p := before.history] && store.redo == r1[p := before.redo];
    assert store.canvas.base == Canvas.Loaded(top) && store.canvas.added == [];
    UpdateTwice(h0, p, undone.history, before.history);
    UpdateSame(h0, p);
    UpdateTwice(r0, p, undone.redo, before.redo);
  }
}
