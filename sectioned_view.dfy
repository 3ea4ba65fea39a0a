/** How a changeset is played onto a sectioned view (a table or a collection
    view): the index set built from a list of section indices, the view's
    batch-update interface as a view that records every call it receives,
    and the fixed sequence of calls one changeset turns into. */
module SectionedView {
  import opened IndexPaths

  /** The row animation styles a table view offers. */
  datatype RowAnimation = Fade | Right | Left | Top | Bottom | NoAnimation | Middle | Automatic

  /** The animation used for inserted, reloaded and deleted rows. */
  datatype AnimationConfiguration = AnimationConfiguration(
    insertAnimation: RowAnimation,
    reloadAnimation: RowAnimation,
    deleteAnimation: RowAnimation)

  /** An item position as a changeset states it. */
  datatype ItemPath = ItemPath(sectionIndex: int, itemIndex: int)

  /** The edit lists of one changeset that applying it reads. Deletions and
      move sources are pre-edit indices, insertions and move destinations
      post-edit ones. */
  datatype Changeset = Changeset(
    deletedSections: seq<int>,
    insertedSections: seq<int>,
    movedSections: seq<(int, int)>,
    updatedSections: seq<int>,
    deletedItems: seq<ItemPath>,
    insertedItems: seq<ItemPath>,
    updatedItems: seq<ItemPath>,
    movedItems: seq<(ItemPath, ItemPath)>)

  /** One call received by a sectioned view. */
  datatype Op =
    | InsertItems(paths: seq<IndexPath>, animation: RowAnimation)
    | DeleteItems(paths: seq<IndexPath>, animation: RowAnimation)
    | MoveItem(itemFrom: IndexPath, itemTo: IndexPath)
    | ReloadItems(paths: seq<IndexPath>, animation: RowAnimation)
    | InsertSections(sections: seq<int>, animation: RowAnimation)
    | DeleteSections(sections: seq<int>, animation: RowAnimation)
    | MoveSection(sectionFrom: int, sectionTo: int)
    | ReloadSections(sections: seq<int>, animation: RowAnimation)
    | BeginUpdates
    | EndUpdates

  // ---------------------------------------------------------------------------
  // Index sets.
  // ---------------------------------------------------------------------------

  /** Distinct elements. */
  predicate NoDuplicates(values: seq<int>)
  {
    forall i, j | 0 <= i < j < |values| :: values[i] != values[j]
  }

  /** `indexSet(values:)`: the index set holding the integers of `values`;
      repeated values are held once, so the set is as large as the list
      exactly when the list has no repetition. */
  method IndexSetOf(values: seq<int>) returns (indexSet: set<int>)
    ensures forall i :: i in indexSet <==> i in values
    ensures |indexSet| <= |values|
    ensures NoDuplicates(values) ==> |indexSet| == |values|
  {
    indexSet := {};
    for n := 0 to |values|
      invariant forall i :: i in indexSet <==> i in values[..n]
      invariant |indexSet| <= n
      invariant NoDuplicates(values) ==> |indexSet| == n
    {
      if NoDuplicates(values) {
        assert values[n] !in values[..n];
      }
      indexSet := indexSet + {values[n]};
    }
    assert values[..|values|] == values;
  }

  // ---------------------------------------------------------------------------
  // The calls one changeset turns into.
  // ---------------------------------------------------------------------------

  /** The index path of an item position. */
  function ToIndexPath(p: ItemPath): IndexPath
  {
    IndexPath(p.sectionIndex, p.itemIndex)
  }

  /** The index paths of a list of item positions, in list order, each with
      the position's section and item. */
  function IndexPathsOf(positions: seq<ItemPath>): (r: seq<IndexPath>)
    ensures |r| == |positions|
    ensures forall k | 0 <= k < |r| :: r[k].section == positions[k].sectionIndex && r[k].item == positions[k].itemIndex
  {
    if positions == [] then []
    else [ToIndexPath(positions[0])] + IndexPathsOf(positions[1..])
  }

  /** One `moveSection` call per pair of `moves`, in list order. */
  function SectionMoves(moves: seq<(int, int)>): (r: seq<Op>)
    ensures |r| == |moves|
    ensures forall k | 0 <= k < |r| :: r[k] == MoveSection(moves[k].0, moves[k].1)
  {
    if moves == [] then []
    else SectionMoves(moves[..|moves| - 1]) + [MoveSection(moves[|moves| - 1].0, moves[|moves| - 1].1)]
  }

  /** One `moveItemAtIndexPath` call per pair of `moves`, in list order. */
  function ItemMoves(moves: seq<(ItemPath, ItemPath)>): (r: seq<Op>)
    ensures |r| == |moves|
    ensures forall k | 0 <= k < |r| :: r[k] == MoveItem(ToIndexPath(moves[k].0), ToIndexPath(moves[k].1))
  {
    if moves == [] then []
    else ItemMoves(moves[..|moves| - 1]) + [MoveItem(ToIndexPath(moves[|moves| - 1].0), ToIndexPath(moves[|moves| - 1].1))]
  }

  /** The calls applying `changes` makes, in the order it makes them. */
  function BatchOps(changes: Changeset, config: AnimationConfiguration): seq<Op>
  {
    [DeleteSections(changes.deletedSections, config.deleteAnimation),
     InsertSections(changes.insertedSections, config.insertAnimation)]
    + SectionMoves(changes.movedSections)
    + [DeleteItems(IndexPathsOf(changes.deletedItems), config.deleteAnimation),
       InsertItems(IndexPathsOf(changes.insertedItems), config.insertAnimation),
       ReloadItems(IndexPathsOf(changes.updatedItems), config.reloadAnimation)]
    + ItemMoves(changes.movedItems)
  }

  /** The kind of a call, numbered in the order applying a changeset makes
      calls of that kind; the kinds a changeset never produces come last. */
  function Kind(op: Op): nat
  {
    match op
    case DeleteSections(_, _) => 0
    case InsertSections(_, _) => 1
    case MoveSection(_, _) => 2
    case DeleteItems(_, _) => 3
    case InsertItems(_, _) => 4
    case ReloadItems(_, _) => 5
    case MoveItem(_, _) => 6
    case ReloadSections(_, _) => 7
    case BeginUpdates => 8
    case EndUpdates => 9
  }

  /** The number of calls of kind `kind` in `ops`. */
  function Count(ops: seq<Op>, kind: nat): nat
  {
    if ops == [] then 0
    else (if Kind(ops[0]) == kind then 1 else 0) + Count(ops[1..], kind)
  }

  /** Counting distributes over concatenation. */
  lemma {:induction false} CountConcat(a: seq<Op>, b: seq<Op>, kind: nat)
    ensures Count(a + b, kind) == Count(a, kind) + Count(b, kind)
  {
    if a == [] {
      assert a + b == b;
    } else {
      assert (a + b)[1..] == a[1..] + b;
      CountConcat(a[1..], b, kind);
    }
  }

  /** In calls that are all of kind `k`, every call counts for `k` and none
      for any other kind. */
  lemma {:induction false} CountUniform(ops: seq<Op>, k: nat, kind: nat)
    requires forall i | 0 <= i < |ops| :: Kind(ops[i]) == k
    ensures Count(ops, kind) == if kind == k then |ops| else 0
  {
    if ops != [] {
      CountUniform(ops[1..], k, kind);
    }
  }

  /** Where each call stands in the calls of one changeset: the section
      deletion and insertion first, then one section move per pair of
      `movedSections` in list order, then the item deletion, insertion and
      reload, then one item move per pair of `movedItems` in list order, each
      with the animation that its kind takes from `config` and with the
      changeset's indices unchanged. */
  lemma BatchOpsLayout(changes: Changeset, config: AnimationConfiguration)
    ensures var ops, m := BatchOps(changes, config), |changes.movedSections|;
      |ops| == 5 + m + |changes.movedItems| &&
      ops[0] == DeleteSections(changes.deletedSections, config.deleteAnimation) &&
      ops[1] == InsertSections(changes.insertedSections, config.insertAnimation) &&
      (forall k | 0 <= k < m :: ops[2 + k] == MoveSection(changes.movedSections[k].0, changes.movedSections[k].1)) &&
      ops[2 + m] == DeleteItems(IndexPathsOf(changes.deletedItems), config.deleteAnimation) &&
      ops[3 + m] == InsertItems(IndexPathsOf(changes.insertedItems), config.insertAnimation) &&
      ops[4 + m] == ReloadItems(IndexPathsOf(changes.updatedItems), config.reloadAnimation) &&
      (forall k | 0 <= k < |changes.movedItems| ::
        ops[5 + m + k] == MoveItem(ToIndexPath(changes.movedItems[k].0), ToIndexPath(changes.movedItems[k].1)))
  {
  }

  /** The calls of one changeset come in the fixed order of their kinds:
      section deletions, section insertions, section moves, item deletions,
      item insertions, item reloads, item moves; no call of another kind
      appears. */
  lemma BatchOpsInKindOrder(changes: Changeset, config: AnimationConfiguration)
    ensures var ops := BatchOps(changes, config);
      forall i, j | 0 <= i <= j < |ops| :: Kind(ops[i]) <= Kind(ops[j]) <= 6
  {
  }

  /** Updated sections never lead to a reload: no `reloadSections` call is
      made, whatever `updatedSections` holds. */
  lemma BatchOpsNeverReloadSections(changes: Changeset, config: AnimationConfiguration, updated: seq<int>)
    ensures forall op | op in BatchOps(changes, config) :: !op.ReloadSections?
    ensures BatchOps(changes.(updatedSections := updated), config) == BatchOps(changes, config)
  {
  }

  /** Exactly one section deletion, section insertion, item deletion, item
      insertion and item reload call per changeset, even for empty lists; one
      section move per moved section and one item move per moved item. */
  lemma BatchOpsCounts(changes: Changeset, config: AnimationConfiguration)
    ensures var ops := BatchOps(changes, config);
      Count(ops, 0) == 1 && Count(ops, 1) == 1 &&
      Count(ops, 2) == |changes.movedSections| &&
      Count(ops, 3) == 1 && Count(ops, 4) == 1 && Count(ops, 5) == 1 &&
      Count(ops, 6) == |changes.movedItems| &&
      Count(ops, 7) == 0 && Count(ops, 8) == 0 && Count(ops, 9) == 0
  {
    var sectionEdits := [DeleteSections(changes.deletedSections, config.deleteAnimation),
                         InsertSections(changes.insertedSections, config.insertAnimation)];
    var sectionMoves := SectionMoves(changes.movedSections);
    var itemEdits := [DeleteItems(IndexPathsOf(changes.deletedItems), config.deleteAnimation),
                      InsertItems(IndexPathsOf(changes.insertedItems), config.insertAnimation),
                      ReloadItems(IndexPathsOf(changes.updatedItems), config.reloadAnimation)];
    var itemMoves := ItemMoves(changes.movedItems);
    forall kind: nat | kind <= 9
      ensures Count(BatchOps(changes, config), kind)
           == (if kind == 0 || kind == 1 || kind == 3 || kind == 4 || kind == 5 then 1 else 0)
            + (if kind == 2 then |changes.movedSections| else 0)
            + (if kind == 6 then |changes.movedItems| else 0)
    {
      assert BatchOps(changes, config) == sectionEdits + sectionMoves + itemEdits + itemMoves;
      CountConcat(sectionEdits, sectionMoves, kind);
      CountConcat(sectionEdits + sectionMoves, itemEdits, kind);
      CountConcat(sectionEdits + sectionMoves + itemEdits, itemMoves, kind);
      CountUniform(sectionMoves, 2, kind);
      CountUniform(itemMoves, 6, kind);
      assert Count(sectionEdits, kind) == (if kind == 0 then 1 else 0) + (if kind == 1 then 1 else 0) by {
        assert sectionEdits[1..][1..] == [];
      }
      assert Count(itemEdits, kind) == (if kind == 3 then 1 else 0) + (if kind == 4 then 1 else 0) + (if kind == 5 then 1 else 0) by {
        assert itemEdits[1..][1..][1..] == [];
        assert Count(itemEdits[1..][1..], kind) == (if kind == 5 then 1 else 0);
      }
    }
  }

  /** Deletions animate with the delete animation, insertions with the
      insert animation and reloads with the reload animation. */
  lemma BatchOpsAnimations(changes: Changeset, config: AnimationConfiguration)
    ensures forall op | op in BatchOps(changes, config) ::
      ((op.DeleteSections? || op.DeleteItems?) ==> op.animation == config.deleteAnimation) &&
      ((op.InsertSections? || op.InsertItems?) ==> op.animation == config.insertAnimation) &&
      (op.ReloadItems? ==> op.animation == config.reloadAnimation)
  {
  }

  /** A table view's batch: `beginUpdates` first, `endUpdates` last, and
      neither anywhere in between. */
  lemma TableBatchBracketed(changes: Changeset, config: AnimationConfiguration)
    ensures var t := [BeginUpdates] + BatchOps(changes, config) + [EndUpdates];
      t[0] == BeginUpdates && t[|t| - 1] == EndUpdates &&
      forall i | 0 < i < |t| - 1 :: t[i] != BeginUpdates && t[i] != EndUpdates
  {
  }

  // ---------------------------------------------------------------------------
  // The view.
  // ---------------------------------------------------------------------------

  /** A sectioned view that records, in order, every call it receives. */
  class RecordingView {
    var trace: seq<Op>

    constructor ()
      ensures trace == []
    {
      trace := [];
    }

    method InsertItemsAtIndexPaths(paths: seq<IndexPath>, animationStyle: RowAnimation)
      modifies this
      ensures trace == old(trace) + [Op.InsertItems(paths, animationStyle)]
    {
      trace := trace + [Op.InsertItems(paths, animationStyle)];
    }

    method DeleteItemsAtIndexPaths(paths: seq<IndexPath>, animationStyle: RowAnimation)
      modifies this
      ensures trace == old(trace) + [Op.DeleteItems(paths, animationStyle)]
    {
      trace := trace + [Op.DeleteItems(paths, animationStyle)];
    }

    method MoveItemAtIndexPath(from: IndexPath, to: IndexPath)
      modifies this
      ensures trace == old(trace) + [Op.MoveItem(from, to)]
    {
      trace := trace + [Op.MoveItem(from, to)];
    }

    method ReloadItemsAtIndexPaths(paths: seq<IndexPath>, animationStyle: RowAnimation)
      modifies this
      ensures trace == old(trace) + [Op.ReloadItems(paths, animationStyle)]
    {
      trace := trace + [Op.ReloadItems(paths, animationStyle)];
    }

    method InsertSections(sections: seq<int>, animationStyle: RowAnimation)
      modifies this
      ensures trace == old(trace) + [Op.InsertSections(sections, animationStyle)]
    {
      trace := trace + [Op.InsertSections(sections, animationStyle)];
    }

    method DeleteSections(sections: seq<int>, animationStyle: RowAnimation)
      modifies this
      ensures trace == old(trace) + [Op.DeleteSections(sections, animationStyle)]
    {
      trace := trace + [Op.DeleteSections(sections, animationStyle)];
    }

    method MoveSection(from: int, to: int)
      modifies this
      ensures trace == old(trace) + [Op.MoveSection(from, to)]
    {
      trace := trace + [Op.MoveSection(from, to)];
    }

    method ReloadSections(sections: seq<int>, animationStyle: RowAnimation)
      modifies this
      ensures trace == old(trace) + [Op.ReloadSections(sections, animationStyle)]
    {
      trace := trace + [Op.ReloadSections(sections, animationStyle)];
    }

    /** Opens a table view's batch of updates. */
    method BeginUpdates()
      modifies this
      ensures trace == old(trace) + [Op.BeginUpdates]
    {
      trace := trace + [Op.BeginUpdates];
    }

    /** Closes a table view's batch of updates. */
    method EndUpdates()
      modifies this
      ensures trace == old(trace) + [Op.EndUpdates]
    {
      trace := trace + [Op.EndUpdates];
    }

    /** A table view's `performBatchUpdates`: the changeset's calls,
        bracketed by `beginUpdates` and `endUpdates`. */
    method PerformBatchUpdates(changes: Changeset, config: AnimationConfiguration)
      modifies this
      ensures trace == old(trace) + [Op.BeginUpdates] + BatchOps(changes, config) + [Op.EndUpdates]
    {
      BeginUpdates();
      PerformChangeset(this, changes, config);
      EndUpdates();
    }
  }

  /** The loop over a changeset's section moves: one `moveSection` per pair. */
  method PerformSectionMoves(view: RecordingView, moves: seq<(int, int)>)
    modifies view
    ensures view.trace == old(view.trace) + SectionMoves(moves)
  {
    for k := 0 to |moves|
      invariant view.trace == old(view.trace) + SectionMoves(moves[..k])
    {
      var (from, to) := moves[k];
      view.MoveSection(from, to);
      assert moves[..k + 1][..k] == moves[..k];
    }
    assert moves[..|moves|] == moves;
  }

  /** The loop over a changeset's item moves: one `moveItemAtIndexPath` per
      pair. */
  method PerformItemMoves(view: RecordingView, moves: seq<(ItemPath, ItemPath)>)
    modifies view
    ensures view.trace == old(view.trace) + ItemMoves(moves)
  {
    for k := 0 to |moves|
      invariant view.trace == old(view.trace) + ItemMoves(moves[..k])
    {
      var (from, to) := moves[k];
      view.MoveItemAtIndexPath(ToIndexPath(from), ToIndexPath(to));
      assert moves[..k + 1][..k] == moves[..k];
    }
    assert moves[..|moves|] == moves;
  }

  /** `_performBatchUpdates`: plays `changes` onto `view` as section
      deletions, section insertions, section moves, item deletions, item
      insertions, item reloads and item moves, in that order. */
  method PerformChangeset(view: RecordingView, changes: Changeset, config: AnimationConfiguration)
    modifies view
    ensures view.trace == old(view.trace) + BatchOps(changes, config)
  {
    view.DeleteSections(changes.deletedSections, config.deleteAnimation);
    // Updated sections are not reloaded: the section's own view is left to
    // whoever shows it, so that its cells are not all reloaded for nothing.
    view.InsertSections(changes.insertedSections, config.insertAnimation);
    PerformSectionMoves(view, changes.movedSections);
    view.DeleteItemsAtIndexPaths(IndexPathsOf(changes.deletedItems), config.deleteAnimation);
    view.InsertItemsAtIndexPaths(IndexPathsOf(changes.insertedItems), config.insertAnimation);
    view.ReloadItemsAtIndexPaths(IndexPathsOf(changes.updatedItems), config.reloadAnimation);
    PerformItemMoves(view, changes.movedItems);
  }
}
