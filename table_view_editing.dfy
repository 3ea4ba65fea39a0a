/** The "redux like" editing example: an immutable state holding the table's
    sections, and a reducer that answers each editing command with a new
    state built from edited copies of the old one's arrays. */
module TableViewEditing {
  import opened IndexPaths

  /** An item of the example: a number and the moment it was created (the
      date is kept as an opaque timestamp). */
  datatype IntItem = IntItem(number: int, date: int)

  /** A section of the example: its header title, its ordered items and the
      moment it was last updated. */
  datatype NumberSection = NumberSection(header: string, items: seq<IntItem>, updated: int)

  /** The three commands a user can issue from the table view. */
  datatype Command =
    | AppendItem(item: IntItem, section: int)
    | MoveItem(sourceIndex: IndexPath, destinationIndex: IndexPath)
    | DeleteItem(indexPath: IndexPath)

  /** The state the reducer folds commands into. Its sections are never
      changed in place: every command yields a new state. */
  datatype SectionedTableViewState = SectionedTableViewState(sections: seq<NumberSection>)

  // ---------------------------------------------------------------------------
  // Arrays as values: the operations the reducer performs on its local copies.
  // ---------------------------------------------------------------------------

  /** The generic `+` operator: a copy of `lhs` with `rhs` appended; `lhs`
      itself is a value and stays as it was. */
  method AppendElement<T>(lhs: seq<T>, rhs: T) returns (copy: seq<T>)
    ensures |copy| == |lhs| + 1
    ensures copy[..|lhs|] == lhs
    ensures copy[|lhs|] == rhs
  {
    copy := lhs;
    copy := copy + [rhs];
  }

  /** The array `s` after `remove(at: i)`: the element at `i` is gone and the
      others keep their order. */
  function RemoveAt<T>(s: seq<T>, i: int): (r: seq<T>)
    requires 0 <= i < |s|
    ensures |r| == |s| - 1
    ensures forall k | 0 <= k < i :: r[k] == s[k]
    ensures forall k | i <= k < |r| :: r[k] == s[k + 1]
    ensures multiset(r) + multiset{s[i]} == multiset(s)
  {
    assert s == s[..i] + [s[i]] + s[i + 1..];
    s[..i] + s[i + 1..]
  }

  /** The array `s` after `insert(x, at: i)`: `x` sits at `i`, the elements
      before it are unmoved and the ones from `i` on shift up by one. */
  function InsertAt<T>(s: seq<T>, i: int, x: T): (r: seq<T>)
    requires 0 <= i <= |s|
    ensures |r| == |s| + 1
    ensures r[i] == x
    ensures forall k | 0 <= k < i :: r[k] == s[k]
    ensures forall k | i < k < |r| :: r[k] == s[k - 1]
    ensures multiset(r) == multiset(s) + multiset{x}
  {
    assert s == s[..i] + s[i..];
    s[..i] + [x] + s[i..]
  }

  /** `s` with its element at `from` taken out and put back at `to`, where
      `to` counts positions after the removal. */
  function Moved<T>(s: seq<T>, from: int, to: int): (r: seq<T>)
    requires 0 <= from < |s| && 0 <= to < |s|
    ensures |r| == |s|
    ensures r[to] == s[from]
    ensures multiset(r) == multiset(s)
  {
    InsertAt(RemoveAt(s, from), to, s[from])
  }

  /** A move within one section is undone by the move in the opposite
      direction. */
  lemma MovedBack<T>(s: seq<T>, from: int, to: int)
    requires 0 <= from < |s| && 0 <= to < |s|
    ensures Moved(Moved(s, from, to), to, from) == s
  {
  }

  // ---------------------------------------------------------------------------
  // Sections.
  // ---------------------------------------------------------------------------

  /** `sections` with the section at `k` replaced by the same section holding
      `items` instead: the assignment
      `sections[k] = NumberSection(original: sections[k], items: items)`. */
  function ReplaceItems(sections: seq<NumberSection>, k: int, items: seq<IntItem>): (r: seq<NumberSection>)
    requires 0 <= k < |sections|
    ensures |r| == |sections|
    ensures r[k].items == items
    ensures forall j | 0 <= j < |r| :: r[j] == sections[j].(items := r[j].items)
    ensures forall j | 0 <= j < |r| && j != k :: r[j] == sections[j]
  {
    sections[k := sections[k].(items := items)]
  }

  /** The number of items over all sections. */
  function TotalItems(sections: seq<NumberSection>): nat
  {
    if sections == [] then 0 else |sections[0].items| + TotalItems(sections[1..])
  }

  /** The items of all sections, taken together. */
  function AllItems(sections: seq<NumberSection>): multiset<IntItem>
  {
    if sections == [] then multiset{} else multiset(sections[0].items) + AllItems(sections[1..])
  }

  /** The item count is the size of the collection of all items. */
  lemma {:induction false} TotalItemsIsSize(sections: seq<NumberSection>)
    ensures |AllItems(sections)| == TotalItems(sections)
  {
    if sections != [] {
      TotalItemsIsSize(sections[1..]);
    }
  }

  /** Replacing the items of one section changes the item count by exactly
      the difference between the old and the new items of that section. */
  lemma {:induction false} ReplaceItemsTotal(sections: seq<NumberSection>, k: int, items: seq<IntItem>)
    requires 0 <= k < |sections|
    ensures TotalItems(ReplaceItems(sections, k, items)) + |sections[k].items| == TotalItems(sections) + |items|
  {
    var r := sections[k := sections[k].(items := items)];
    if k == 0 {
      assert r[1..] == sections[1..];
    } else {
      ReplaceItemsTotal(sections[1..], k - 1, items);
      assert r[1..] == sections[1..][k - 1 := sections[k].(items := items)];
    }
  }

  /** When a section's new items are its old ones plus `added`, the
      collection of all items grows by exactly `added`. */
  lemma {:induction false} ReplaceItemsGrows(sections: seq<NumberSection>, k: int, items: seq<IntItem>, added: multiset<IntItem>)
    requires 0 <= k < |sections|
    requires multiset(items) == multiset(sections[k].items) + added
    ensures AllItems(ReplaceItems(sections, k, items)) == AllItems(sections) + added
  {
    var r := sections[k := sections[k].(items := items)];
    if k == 0 {
      assert r[1..] == sections[1..];
    } else {
      ReplaceItemsGrows(sections[1..], k - 1, items, added);
      assert r[1..] == sections[1..][k - 1 := sections[k].(items := items)];
      calc {
        AllItems(r);
        multiset(sections[0].items) + AllItems(r[1..]);
        multiset(sections[0].items) + (AllItems(sections[1..]) + added);
        AllItems(sections) + added;
      }
    }
  }

  /** When a section's new items together with `removed` are its old ones,
      the collection of all items shrinks by exactly `removed`. */
  lemma {:induction false} ReplaceItemsShrinks(sections: seq<NumberSection>, k: int, items: seq<IntItem>, removed: multiset<IntItem>)
    requires 0 <= k < |sections|
    requires multiset(items) + removed == multiset(sections[k].items)
    ensures AllItems(ReplaceItems(sections, k, items)) + removed == AllItems(sections)
  {
    var r := sections[k := sections[k].(items := items)];
    if k == 0 {
      assert r[1..] == sections[1..];
    } else {
      ReplaceItemsShrinks(sections[1..], k - 1, items, removed);
      assert r[1..] == sections[1..][k - 1 := sections[k].(items := items)];
      calc {
        AllItems(r) + removed;
        multiset(sections[0].items) + (AllItems(r[1..]) + removed);
        multiset(sections[0].items) + AllItems(sections[1..]);
        AllItems(sections);
      }
    }
  }

  // ---------------------------------------------------------------------------
  // The reducer.
  // ---------------------------------------------------------------------------

  /** The indices a command addresses are within the state; outside them the
      array operations of the reducer trap. A same-section move inserts after
      the removal, so its destination may be at most the last position. */
  predicate CommandInRange(sections: seq<NumberSection>, command: Command)
  {
    match command
    case AppendItem(_, section) =>
      0 <= section < |sections|
    case DeleteItem(p) =>
      0 <= p.section < |sections| && 0 <= p.item < |sections[p.section].items|
    case MoveItem(src, dst) =>
      0 <= src.section < |sections| && 0 <= src.item < |sections[src.section].items| &&
      0 <= dst.section < |sections| &&
      0 <= dst.item <= |sections[dst.section].items| - (if src.section == dst.section then 1 else 0)
  }

  /** The sections whose items a command replaces. */
  function Addressed(command: Command): set<int>
  {
    match command
    case AppendItem(_, section) => {section}
    case DeleteItem(p) => {p.section}
    case MoveItem(src, dst) => {src.section, dst.section}
  }

  /** `after` holds the sections of `before` in the same order, with the same
      headers and dates; only items differ, and only in the sections that
      `addressed` names. */
  predicate OnlyItemsReplaced(before: seq<NumberSection>, after: seq<NumberSection>, addressed: set<int>)
  {
    |after| == |before| &&
    (forall k | 0 <= k < |after| :: after[k] == before[k].(items := after[k].items)) &&
    (forall k | 0 <= k < |after| && k !in addressed :: after[k] == before[k])
  }

  /** What appending `item` to section `section` does: that section's items
      are extended by exactly `item` at the end, so one item more in all. */
  predicate AppendEffect(before: seq<NumberSection>, item: IntItem, section: int, after: seq<NumberSection>)
    requires 0 <= section < |before|
  {
    OnlyItemsReplaced(before, after, {section}) &&
    after[section].items == before[section].items + [item] &&
    AllItems(after) == AllItems(before) + multiset{item} &&
    TotalItems(after) == TotalItems(before) + 1
  }

  /** What deleting the item at `p` does: exactly that item leaves its
      section, the others keep their order, so one item fewer in all. */
  predicate DeleteEffect(before: seq<NumberSection>, p: IndexPath, after: seq<NumberSection>)
    requires 0 <= p.section < |before| && 0 <= p.item < |before[p.section].items|
  {
    OnlyItemsReplaced(before, after, {p.section}) &&
    after[p.section].items == RemoveAt(before[p.section].items, p.item) &&
    AllItems(after) + multiset{before[p.section].items[p.item]} == AllItems(before) &&
    TotalItems(after) == TotalItems(before) - 1
  }

  /** What moving the item at `src` to `dst` does: within one section the
      items are rearranged; across sections the item leaves the source and
      lands at `dst.item` in the destination. Either way no item is created
      or lost. */
  predicate MoveEffect(before: seq<NumberSection>, src: IndexPath, dst: IndexPath, after: seq<NumberSection>)
    requires CommandInRange(before, MoveItem(src, dst))
  {
    OnlyItemsReplaced(before, after, {src.section, dst.section}) &&
    (src.section == dst.section ==>
      after[dst.section].items == Moved(before[src.section].items, src.item, dst.item)) &&
    (src.section != dst.section ==>
      after[src.section].items == RemoveAt(before[src.section].items, src.item) &&
      after[dst.section].items == InsertAt(before[dst.section].items, dst.item, before[src.section].items[src.item])) &&
    AllItems(after) == AllItems(before) &&
    TotalItems(after) == TotalItems(before)
  }

  /** The `AppendItem` case of the reducer. */
  method AppendItemTo(state: SectionedTableViewState, item: IntItem, section: int) returns (r: SectionedTableViewState)
    requires 0 <= section < |state.sections|
    ensures AppendEffect(state.sections, item, section, r.sections)
  {
    var sections := state.sections;
    var items := AppendElement(sections[section].items, item);
    assert items == sections[section].items + [item];
    assert multiset(items) == multiset(sections[section].items) + multiset{item};
    ReplaceItemsTotal(sections, section, items);
    ReplaceItemsGrows(sections, section, items, multiset{item});
    sections := ReplaceItems(sections, section, items);
    r := SectionedTableViewState(sections);
  }

  /** The `DeleteItem` case of the reducer. */
  method DeleteItemAt(state: SectionedTableViewState, indexPath: IndexPath) returns (r: SectionedTableViewState)
    requires 0 <= indexPath.section < |state.sections|
    requires 0 <= indexPath.item < |state.sections[indexPath.section].items|
    ensures DeleteEffect(state.sections, indexPath, r.sections)
  {
    var sections := state.sections;
    var items := sections[indexPath.section].items;
    items := RemoveAt(items, indexPath.item);
    ReplaceItemsTotal(sections, indexPath.section, items);
    ReplaceItemsShrinks(sections, indexPath.section, items, multiset{sections[indexPath.section].items[indexPath.item]});
    sections := ReplaceItems(sections, indexPath.section, items);
    r := SectionedTableViewState(sections);
  }

  /** The `MoveItem` case of the reducer. */
  method MoveItemTo(state: SectionedTableViewState, src: IndexPath, dst: IndexPath) returns (r: SectionedTableViewState)
    requires CommandInRange(state.sections, MoveItem(src, dst))
    ensures MoveEffect(state.sections, src, dst, r.sections)
  {
    var sections := state.sections;
    var sourceItems := sections[src.section].items;
    var destinationItems := sections[dst.section].items;
    if src.section == dst.section {
      destinationItems := InsertAt(RemoveAt(destinationItems, src.item), dst.item, destinationItems[src.item]);
      ReplaceItemsTotal(sections, src.section, destinationItems);
      ReplaceItemsGrows(sections, src.section, destinationItems, multiset{});
      sections := ReplaceItems(sections, src.section, destinationItems);
      r := SectionedTableViewState(sections);
    } else {
      var item := sourceItems[src.item];
      sourceItems := RemoveAt(sourceItems, src.item);
      destinationItems := InsertAt(destinationItems, dst.item, item);
      ReplaceItemsTotal(sections, src.section, sourceItems);
      ReplaceItemsShrinks(sections, src.section, sourceItems, multiset{item});
      var afterSource := ReplaceItems(sections, src.section, sourceItems);
      ReplaceItemsTotal(afterSource, dst.section, destinationItems);
      ReplaceItemsGrows(afterSource, dst.section, destinationItems, multiset{item});
      sections := ReplaceItems(afterSource, dst.section, destinationItems);
      assert AllItems(sections) == AllItems(state.sections);
      assert sections[src.section].items == sourceItems;
      assert OnlyItemsReplaced(state.sections, sections, {src.section, dst.section}) by {
        forall k | 0 <= k < |sections| ensures sections[k] == state.sections[k].(items := sections[k].items) {
          assert afterSource[k] == state.sections[k].(items := afterSource[k].items);
        }
      }
      r := SectionedTableViewState(sections);
    }
  }

  /** `executeCommand`: the state after `command`, built from copies of the
      old state's arrays; the old state is a value and is left as it was. */
  method ExecuteCommand(state: SectionedTableViewState, command: Command) returns (r: SectionedTableViewState)
    requires CommandInRange(state.sections, command)
    ensures OnlyItemsReplaced(state.sections, r.sections, Addressed(command))
    ensures match command
      case AppendItem(item, section) => AppendEffect(state.sections, item, section, r.sections)
      case DeleteItem(p) => DeleteEffect(state.sections, p, r.sections)
      case MoveItem(src, dst) => MoveEffect(state.sections, src, dst, r.sections)
  {
    match command {
      case AppendItem(item, section) =>
        r := AppendItemTo(state, item, section);
      case DeleteItem(indexPath) =>
        r := DeleteItemAt(state, indexPath);
      case MoveItem(src, dst) =>
        r := MoveItemTo(state, src, dst);
    }
  }
}
