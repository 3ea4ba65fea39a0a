# RxDataSources: the editing reducer and the changeset sequencer

This project models, in Dafny, two sequential pieces of RxDataSources, the
library that animates changes of a sectioned list (sections holding ordered
items) in a UIKit table or collection view.

- **The editing reducer** of the table-view editing example
  (`SectionedTableViewState.executeCommand`). A state holds the sections; a
  command `AppendItem`, `DeleteItem` or `MoveItem` yields a new state built
  from edited copies of the old state's arrays, and the old state is never
  changed. Module `TableViewEditing` (file `table_view_editing.dfy`) models
  the sections as values, Swift's `remove(at:)` and `insert(_:at:)` as
  `RemoveAt` and `InsertAt`, the generic `+` operator as `AppendElement`, and
  the reducer as the method `ExecuteCommand`, with one method per command
  case. `SectionedTableViewState.init(sections:)` is the datatype's
  constructor. The contracts say that the number and order of sections never
  change, that only the addressed sections get new items, which items those
  are, and how the collection of all items and its size change: one more
  item for an append, exactly the deleted item fewer for a delete, and no
  change for a move.
- **The changeset sequencer** (`_performBatchUpdates` and `indexSet`).
  Module `SectionedView` (file `sectioned_view.dfy`) models the
  `SectionedViewType` protocol as a class `RecordingView` whose methods
  append the call they receive to a `trace`. `PerformChangeset` plays a
  changeset onto the view and is proved to produce exactly
  `BatchOps(changes, config)`. The lemmas about `BatchOps` state the call
  order, how many calls of each kind there are, the arguments of every call
  (move pairs in list order, item positions turned into index paths), the
  animation of every call and that `updatedSections` never causes a reload.
  A table view's `performBatchUpdates` brackets the calls with
  `beginUpdates` and `endUpdates`.

`index_path.dfy` holds `IndexPath` (a section and an item index; a table
view's `row` is the item index), shared by both modules.

## Model

| member | source | states |
|---|---|---|
| `TableViewEditing.AppendElement` | Example/Example3_TableViewEditing.swift:161-165 | the result is `lhs` followed by exactly `rhs`: one element longer, `lhs` as its prefix, `rhs` last; `lhs` is a value and is left as it was |
| `TableViewEditing.RemoveAt` | Example/Example3_TableViewEditing.swift:123 | `remove(at: i)` drops exactly the element at `i`: one shorter, elements before `i` in place, later ones shifted down by one, the multiset loses exactly `s[i]` |
| `TableViewEditing.InsertAt` | Example/Example3_TableViewEditing.swift:140 | `insert(x, at: i)` puts `x` at `i`: one longer, elements before `i` in place, later ones shifted up by one, the multiset gains exactly `x` |
| `TableViewEditing.Moved` | Example/Example3_TableViewEditing.swift:132-133 | a same-section move keeps the length and the multiset of items (a permutation) and leaves the moved item at the destination row, counted after the removal |
| `TableViewEditing.MovedBack` | Example/Example3_TableViewEditing.swift:132-133 | moving an item from `from` to `to` and then from `to` back to `from` restores the section's items |
| `TableViewEditing.ReplaceItems` | Example/Example3_TableViewEditing.swift:118 | storing `NumberSection(original: sections[k], items: items)` at `k` keeps the number of sections, gives section `k` the new items and leaves every other field and every other section as it was |
| `TableViewEditing.TotalItemsIsSize` | Example/Example3_TableViewEditing.swift:113-149 | the total item count over all sections is the size of the multiset of all items |
| `TableViewEditing.ReplaceItemsTotal` | Example/Example3_TableViewEditing.swift:118 | replacing one section's items changes the total item count by exactly the new count minus the old count |
| `TableViewEditing.ReplaceItemsGrows` | Example/Example3_TableViewEditing.swift:118 | when a section's new items are its old ones plus `added`, the multiset of all items grows by exactly `added` |
| `TableViewEditing.ReplaceItemsShrinks` | Example/Example3_TableViewEditing.swift:124 | when a section's new items plus `removed` are its old ones, the multiset of all items shrinks by exactly `removed` |
| `TableViewEditing.AppendItemTo` | Example/Example3_TableViewEditing.swift:115-119 | appending: sections keep their number, order, headers and dates; only the addressed section changes, its items become the old ones followed by exactly the new item; all items gain exactly that item; the total grows by one |
| `TableViewEditing.DeleteItemAt` | Example/Example3_TableViewEditing.swift:120-125 | deleting: only the addressed section changes, losing exactly the item at the row with the rest in order; all items lose exactly that item; the total shrinks by one |
| `TableViewEditing.MoveItemTo` | Example/Example3_TableViewEditing.swift:126-147 | moving: within one section the items are permuted with the moved item at the destination row; across sections the source loses the item and the destination gains it at the destination row; only those sections change; the multiset of all items and the total are unchanged |
| `TableViewEditing.ExecuteCommand` | Example/Example3_TableViewEditing.swift:113-149 | the new state: number and order of sections kept, only the addressed sections' items replaced, and per command the effect above; the old state is a value and is not changed |
| `SectionedView.IndexSetOf` | Sources/DataSources/UI+SectionedViewType.swift:12-18 | the index set holds exactly the integers of `values`; duplicates collapse, so it is no larger than the list and exactly as large when the list has no repetition |
| `SectionedView.IndexPathsOf` | Sources/DataSources/UI+SectionedViewType.swift:129 | every item position becomes an index path with the same section and item, one per position, in list order |
| `SectionedView.SectionMoves` | Sources/DataSources/UI+SectionedViewType.swift:124-126 | one `moveSection(from, to)` per pair of `movedSections`, with the same pairs in list order |
| `SectionedView.ItemMoves` | Sources/DataSources/UI+SectionedViewType.swift:141-146 | one `moveItemAtIndexPath(from, to)` per pair of `movedItems`, each position turned into its index path, in list order |
| `SectionedView.PerformSectionMoves` | Sources/DataSources/UI+SectionedViewType.swift:124-126 | the loop over section moves appends exactly `SectionMoves(moves)` to the trace |
| `SectionedView.PerformItemMoves` | Sources/DataSources/UI+SectionedViewType.swift:141-146 | the loop over item moves appends exactly `ItemMoves(moves)` to the trace |
| `SectionedView.PerformChangeset` | Sources/DataSources/UI+SectionedViewType.swift:116-147 | applying a changeset appends exactly `BatchOps(changes, config)` to the view's trace |
| `SectionedView.RecordingView.PerformBatchUpdates` | Sources/DataSources/UI+SectionedViewType.swift:54-58 | a table view's batch appends `beginUpdates`, then the changeset's calls, then `endUpdates` |
| `SectionedView.RecordingView.InsertItemsAtIndexPaths` | Sources/DataSources/UI+SectionedViewType.swift:103 | the call is recorded, with its paths and animation, after all earlier calls |
| `SectionedView.RecordingView.DeleteItemsAtIndexPaths` | Sources/DataSources/UI+SectionedViewType.swift:104 | the call is recorded, with its paths and animation, after all earlier calls |
| `SectionedView.RecordingView.MoveItemAtIndexPath` | Sources/DataSources/UI+SectionedViewType.swift:105 | the call is recorded, with its two index paths, after all earlier calls |
| `SectionedView.RecordingView.ReloadItemsAtIndexPaths` | Sources/DataSources/UI+SectionedViewType.swift:106 | the call is recorded, with its paths and animation, after all earlier calls |
| `SectionedView.RecordingView.InsertSections` | Sources/DataSources/UI+SectionedViewType.swift:108 | the call is recorded, with its section indices and animation, after all earlier calls |
| `SectionedView.RecordingView.DeleteSections` | Sources/DataSources/UI+SectionedViewType.swift:109 | the call is recorded, with its section indices and animation, after all earlier calls |
| `SectionedView.RecordingView.MoveSection` | Sources/DataSources/UI+SectionedViewType.swift:110 | the call is recorded, with its two section indices, after all earlier calls |
| `SectionedView.RecordingView.ReloadSections` | Sources/DataSources/UI+SectionedViewType.swift:111 | the call is recorded, with its section indices and animation, after all earlier calls |
| `SectionedView.RecordingView.BeginUpdates` | Sources/DataSources/UI+SectionedViewType.swift:55 | `beginUpdates` is recorded after all earlier calls |
| `SectionedView.RecordingView.EndUpdates` | Sources/DataSources/UI+SectionedViewType.swift:57 | `endUpdates` is recorded after all earlier calls |
| `SectionedView.BatchOpsLayout` | Sources/DataSources/UI+SectionedViewType.swift:116-147 | the calls, position by position: delete sections and insert sections with the changeset's lists, a move per moved section pair in order, delete, insert and reload items with the index paths of the changeset's positions, a move per moved item pair in order; deletes take the delete animation, inserts the insert animation, reloads the reload animation |
| `SectionedView.BatchOpsInKindOrder` | Sources/DataSources/UI+SectionedViewType.swift:119-146 | the calls come in the order delete sections, insert sections, section moves, delete items, insert items, reload items, item moves, and no call of another kind appears |
| `SectionedView.BatchOpsNeverReloadSections` | Sources/DataSources/UI+SectionedViewType.swift:120-122 | no `reloadSections` call is ever made, and the calls do not depend on `updatedSections` at all |
| `SectionedView.BatchOpsCounts` | Sources/DataSources/UI+SectionedViewType.swift:119-146 | exactly one delete-sections, insert-sections, delete-items, insert-items and reload-items call, even for empty lists; as many section moves as `movedSections` and item moves as `movedItems`; no reload-sections, begin or end call |
| `SectionedView.BatchOpsAnimations` | Sources/DataSources/UI+SectionedViewType.swift:119-139 | every delete call uses the delete animation, every insert call the insert animation, every reload call the reload animation |
| `SectionedView.TableBatchBracketed` | Sources/DataSources/UI+SectionedViewType.swift:54-58 | in a table view's batch `beginUpdates` comes first, `endUpdates` last, and neither appears in between |

## Left out

- The diff engine that builds changesets (`differencesForSectionedView`, step splitting, `Changeset` construction) is not part of this model; a changeset is an input.
- The changeset's resulting sections (`finalSections`) are not read by the sequencer and are not modelled.
- The Rx data sources for table and collection views are not modelled: they are Rx binding, main-queue scheduling, a first-event flag and `reloadData`, around the diff engine.
- `rxPrecondition` and `rxDebugFatalError` are not modelled: they are `fatalError` or `print`.
- The example view controller's wiring (outlets, merged observables, `scan`, cell and header configuration) is not modelled.
- `addRandomItem` is not modelled: it draws random numbers and reads the clock; the command it makes is an input of `ExecuteCommand`. For the same reason `NSDate` values are opaque integer timestamps.
- The UIKit forwarding of the protocol methods (`insertRows`, `deleteSections` with an `IndexSet`, and so on) is not modelled: the recording view stands for the view, so the trace shows the protocol calls with list arguments, and `IndexSetOf` is modelled on its own.
- The collection view's `performBatchUpdates` is not modelled: it hands the same calls to UIKit inside a closure with an empty completion handler and ignores animation styles; animation timing is UIKit's.
- Out-of-range indices trap in Swift; `ExecuteCommand` and its per-command methods require them in range instead.
- `IndexSetOf` does not model that an index set holds only non-negative indices below `NSNotFound`; any integer is accepted.
- In-place edits of the reducer's local array copies are modelled as computing new values, since Swift arrays are value types and the copies are never shared.
