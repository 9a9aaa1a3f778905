# ListR: the sync protocol, proved

A Dafny model of ListR's offline-first synchronisation and of the small algorithms around it,
with proofs for every input and every run. `dafny verify dfyconfig.toml` checks all of it.

A **room** holds lists and items in SQLite tables. Triggers stamp every written row with the
room's next seq and record deletions; a **feed** sends a page what is newer than the seq it has,
or everything. A **page** shows the last feed with its own unconfirmed **ops** projected on top,
and a **queue** sends those ops one by one, stores them across reloads, and rewrites the ones
not sent yet after each answer. The server runs each op_id once and stores the response.

The view is right only if triggers, feed, overlay, queue, rebasing and stored responses all
agree. The main results say that they do, each compared with something simpler:

- Feed: merging the feed of any history into the old view gives the new view
  (`ChangesFeed.FeedConvergence`).
- Overlay: projecting an op is what the server does to the feed view, and exactly when
  (`Simulation.OverlaySimulates`); projecting twice is harmless, and exactly when
  (`Idempotence.SafeToRepeat`).
- Runs of page and server: nothing counts twice, nothing applied disappears
  (`SequentialServer.EveryRun`), and the page shows the state of one sequential server that
  executed its queue (`SequentialServer.ViewIsSequentialServer`), exactly when the open op is
  rightly shown (`SequentialServer.ExecutedShown`).
- Delivery: through crashes, losses, late requests and pruning, one body per op, ops in the order
  made and each once, with the causes of every exception (`DeliveryOrder.ExactlyOnceInOrder`,
  `DeliveryOrder.WhenOutOfOrder`) and a run for each of them (`DeliveryRuns`).
- Rebasing: a page does not conflict with itself while answers find what later ops expect
  (`NoSelfConflict.NoSelfConflicts`), and exactly when an answer does
  (`NoSelfConflict.AnswerKeepsBases`).
- Nothing gets stuck: from every reachable state the page can send its queue, fetch, and then shows
  exactly the room (`CatchUp.PageCatchesUp`); a queue in time can be sent whole, in order
  (`DeliveryDrain.QueueDrains`).
- Every op handler keeps every room rule (`RoomRules.HandleKeepsRules`), so every room reachable
  from a new one is in order (`RoomRules.EveryRoomIsRuled`). What each handler answers and writes
  is said a second time, without the handler: the first check that fails
  (`HandlerLaws.AnswerIsFirstFailure`), what becomes of its row (`HandlerChanges.AppliedChanges`)
  and what stays (`HandlerEffects.AppliedTouches`). No update is lost to a page that is behind
  (`HandlerLaws.StaleWritesNothing`).
- The sign-in limiter, the wall-clock resolver, what reminder rules mean (`RuleLaws.RulesMean`) and
  what a policy save stores (`PolicyLaws.SavedIsAsked`), the snapshot store read off the calls alone
  (`SnapshotLaws.ReadIsLastSave`), and the wake-up protocol of live streams.

## How it is organised

Code that changes things step by step is a class or a method with loops, proved equal to a
function of the old state; the properties are lemmas about those functions. Methods that only set
a field or two have no row below; what they are for is in the rows of the machines that use them.

| file | what it holds |
|---|---|
| `Texts`, `RoomModel`, `TagRules` | text, data of a room, tag rules |
| `Tracking`, `Feed`, `ShareSeq` | statements with triggers, pruning, feed, share seq |
| `Operations`, `RoomRules`, `Database` | the 17 handlers as functions, what they keep, the database class |
| `HandlerLaws`, `HandlerEffects`, `HandlerChanges` | what the handlers answer and write, said without them |
| `Overlay`, `Projection`, `Simulation`, `OverlayRuns`, `Idempotence`, `OverlayFixpoints` | the overlay, its loops, and what it promises |
| `Rebase`, `RebaseLaws`, `RoomStore`, `WriteQueue` | rebasing, the page's store, the queue |
| `Sync`, `SequentialServer`, `NoSelfConflict`, `CatchUp` | one page and the server as a state machine |
| `Counterexamples`, `HiddenRow` | runs of that machine in which a stronger claim fails |
| `Delivery`, `DeliveryOrder`, `DeliveryDrain`, `DeliveryRuns` | queue, storage and server as a state machine with crashes and pruning; in which order and how often ops run; that they can; runs that show what is left open |
| `SignIn`, `ZonedTime`, `Rules`, `RuleLaws`, `Policies`, `PolicyLaws`, `Snapshots`, `SnapshotLaws`, `LiveUpdates` | the smaller algorithms |

Times, new IDs, the order in which SQLite visits rows, and the IDs used in other rooms are
parameters of an operation (`RoomModel.Env`). Lower-casing, case folding and the zone data behind
a due time are fixed functions of which nothing is assumed. A UUID is a number, a request hash is
the op itself.

## Findings

What the code does differently from what one would expect, each proved:

- A page can **conflict with itself**. When an op without a base (a delta, a flip, a put-back) is
  answered, the version before it is what the page shows of the row; if the row is hidden, a later
  edit keeps its old base and is refused (`NoSelfConflict.StaleEdit`). A delete further back in the
  queue hides the row (`NoSelfConflict.QueuedDeleteConflicts`, as a run
  `Counterexamples.PageConflictsWithItself`), and so does another device's item of the same name in
  the page's data (as a run `HiddenRow.HiddenRowConflicts`). The exact condition is
  `NoSelfConflict.AnswerKeepsBases`, and which rows are hidden is `NoSelfConflict.HiddenIff`.
- An **uncertain op is shown over a newer value**: once its answer is lost, the page keeps projecting
  it on data that has it and somebody else's later change (`Counterexamples.UncertainShowsOldName`).
  The view is right if and only if the op is left out there, or finds in the data what it wants
  (`SequentialServer.ExecutedShown` with `OverlayFixpoints.ShowsNothingNew`).
- The page's projection differs from the server in these cases and no others
  (`Simulation.OverlaySimulates`): JavaScript's `trim` and Python's `strip` remove different
  characters; a restore's description is trimmed and its quantity is not clamped only on the page;
  the length of a renamed tag is counted in UTF-16 units on the page and in code points on the
  server; a tag renamed to its own name removes repeated tags of an item only on the page; an add
  or restore without an ID shows no row.
- A request that is under way for longer than the hold age can find its stored response pruned
  and run a second time (`DeliveryRuns.LateRequestRunsTwice`), then also behind a later op
  (`DeliveryRuns.LateRequestRunsBehind`); a request that arrives in time cannot
  (`DeliveryOrder.InTimeRunsOnce`).
- An op dropped after an HTTP error can execute after a later one, when an earlier request of it is
  still under way (`DeliveryRuns.DroppedOpRunsLater`). These two are the only ways in which the
  order can fail (`DeliveryOrder.WhenOutOfOrder`); late copies of other ops do no harm
  (`DeliveryOrder.InOrder`).
- A stored snapshot need not be of the current generation (`Snapshots.SignInKeepsSnapshot`): it is
  if and only if nobody signed in since it was saved (`Snapshots.CurrentUnlessSignedIn`).
- A reminder save is **not always safe to repeat**: a custom save that gives a named fixed rule
  another date, time or zone stores it under a new ID, so the same save sent again names an unknown
  rule and is refused (`RuleLaws.SameInputAgain`, `PolicyLaws.SavedAgain`, with the exact condition).

## Model

| member | source | states |
|---|---|---|
| `Tracking.ExecTracked` | src/database_setup.py:283-354 | One row statement with its trigger keeps the tracking invariant (stamps at or below the room's seq, every item's list exists, deletion records above the pruned floor and never of a living row) and raises the seq by exactly one; pruning never lowers the seq or the floor. |
| `Tracking.RunTracked` | src/database_setup.py:542-569 | The same over every history of statements by any writers, with list deletes and pruning. |
| `ChangesFeed.FeedConvergence` | src/api/changes.py:34-49 | A page that holds exactly the room at seq n and merges any answer to `since=n` holds exactly the room at the answered seq, after every history in between: writes, list deletes, pruning, and IDs used again once their record was pruned. |
| `ChangesFeed.DeltaFeed` | src/api/changes.py:42-49 | A delta is enough for any page whose rows unchanged since n are current and whose missing deletions are on record. |
| `ChangesFeed.FullFeed` | src/api/changes.py:37-41 | A full answer (first load, client ahead of the server, client behind the pruned floor) replaces whatever the page held, for every old content. |
| `ChangesFeed.OnlyNews` | src/api/changes.py:37-49 | A page that missed no pruned record gets a delta: only rows and records newer than its seq, and nothing at all when it is up to date. |
| `ChangesFeed.AllIsPublished` | src/api/changes.py:34-49 | Published are the room name, every row and every field of it but an item's due cycle; a list's tags are the same, sent sorted. |
| `ChangesFeed.SameSeqSameView` | src/database_setup.py:283-354 | Within one history, equal seqs mean equal published rooms, so the seq identifies what a page holds. |
| `ChangesFeed.MergeFeed` | frontend/src/lib/data/feed.ts:7-35 | The loops over two maps and the set of deleted lists compute the merge: rows replaced by ID, named deletions gone, items of a deleted list gone also when no record names them. |
| `ShareSeqs.ShareSeqStep` | src/database_crud.py:909-933 | One statement (pruning included) raises a list's share seq if and only if it changes the list or its items; else the share seq is exactly as before. |
| `ShareSeqs.ShareSeqMonotone` | src/database_crud.py:909-933 | Over every history a list's share seq never goes down, even when the list is deleted and its ID taken again. |
| `RoomDatabase.Database.Changes` | src/database_crud.py:941-1043 | The rows and records read for a client answer its `since` as the feed relation demands: exactly the rows and records newer than `since`, or everything. |
| `RoomDatabase.Database.GetShareSeq` | src/database_crud.py:909-933 | Equals the maximum over the list row, its items, its deletion records and its stored floor. |
| `RoomDatabase.Database.PruneDeletions` | src/database_crud.py:1134-1177 | Exactly the records made after every record older than the bound stay; the room's floor moves, and each living list keeps the highest removed seq as its floor; no floor is lost by a second pruning. |
| `RoomDatabase.Database.constructor` | src/database_crud.py:819-841 | A new room has a name and nothing else. |
| `RoomDatabase.Database.WriteList` | src/database_setup.py:284-303 | Insert or update of a list with its trigger: the seq rises by one and the row is stamped with it; every other row and table stays. |
| `RoomDatabase.Database.WriteItem` | src/database_setup.py:312-334 | The same for an item row. |
| `RoomDatabase.Database.DeleteListRow` | src/database_setup.py:542-554 | A list row goes, with a deletion record at the new seq that names the list itself. |
| `RoomDatabase.Database.DeleteItemRow` | src/database_setup.py:555-569 | An item row goes, with a deletion record at the new seq that names its list. |
| `RoomDatabase.Database.WriteName` | src/database_setup.py:348-353 | A new room name raises the seq; no row changes. |
| `RoomDatabase.Database.RenameRoom` | src/database_crud.py:1416-1424 | Tables and answer are those of the room rename operation: equal names write nothing. |
| `RoomDatabase.Database.CreateList` | src/database_crud.py:407-438 | A taken ID is an HTTP error, a known name changes nothing, a full room is refused, else one new row. |
| `RoomDatabase.Database.RenameList` | src/database_crud.py:441-457 | Version check, name check without case, no write for an equal name. |
| `RoomDatabase.Database.DeleteList` | src/database_crud.py:794-798 | The items go one by one, each with its own record and seq, then the list; in whatever order rows are visited. |
| `RoomDatabase.Database.AddTag` | src/database_crud.py:252-283 | A new tag is added in sorted place; a known one changes nothing; a full list is refused. |
| `RoomDatabase.Database.RemoveTag` | src/database_crud.py:252-283 | The tag goes with its colour; items keep it. |
| `RoomDatabase.Database.ColorTag` | src/database_crud.py:286-307 | Only a listed tag gets a colour; no write if nothing changes. |
| `RoomDatabase.Database.KeepFirstItemTags` | src/database_crud.py:229-249 | The loop over rows gives the sweep in which each item with two or more tags keeps the first in list order, in one stamped update per changed item. |
| `RoomDatabase.Database.SetTagSettings` | src/database_crud.py:195-226 | Absent settings stay; only a switch to single sweeps the items. |
| `RoomDatabase.Database.RenameItemTags` | src/database_crud.py:339-354 | The loop over rows gives the sweep in which the new name takes the place of the old, once per item. |
| `RoomDatabase.Database.RenameTag` | src/database_crud.py:310-355 | Unknown and taken names are refused, the own name changes nothing, else list row, colour and items are renamed. |
| `RoomDatabase.Database.SetVisibility` | src/database_crud.py:164-192 | Absent settings stay; out of range is an HTTP error; no write if nothing changes. |
| `RoomDatabase.Database.FindList` | src/database_crud.py:393-404 | Found exactly if a list (other than the one excepted) has the name ignoring case. |
| `RoomDatabase.Database.FindItem` | src/database_crud.py:485-491 | Finds the one item of the list with the name key, or none exists. |
| `RoomDatabase.Database.AddItem` | src/database_crud.py:471-507 | An open item of the name is reported, a checked one put back (count, time, new due cycle), a full list refused, else one new row. |
| `RoomDatabase.Database.SetDone` | src/database_crud.py:635-672 | Version check; equal state writes nothing; unchecking counts as an add and starts a new cycle. |
| `RoomDatabase.Database.AdjustQuantity` | src/database_crud.py:766-783 | Clamped at one; no write if nothing changes. |
| `RoomDatabase.Database.EditItem` | src/api/ops.py:655-705 | Checks in the order of the code: name, description, schedule, version, zone, duplicate; a schedule that did not change keeps its cycle. |
| `RoomDatabase.Database.ToggleTag` | src/database_crud.py:358-390 | Flip or wanted state; single mode replaces; no write if nothing changes. |
| `RoomDatabase.Database.DeleteItem` | src/database_crud.py:786-791 | A missing item is no error. |
| `RoomDatabase.Database.RestoreItem` | src/database_crud.py:510-572 | Tags are stored as sent, the quantity clamped, the description only measured; a taken name or ID is refused. |
| `RoomDatabase.Database.Apply` | src/api/ops.py:763-781 | Each of the 17 op types goes to its handler. |
| `RoomDatabase.Database.RunOnce` | src/api/idempotency.py:47-64 | A known op_id replays its stored response and changes nothing, or is refused if the body differs; a new one runs once and is stored with the seq after it; an HTTP error stores nothing. Tracking invariant and room rules hold after it. |
| `RoomRules.HandleScript` | src/api/ops.py:504-760 | Whatever a handler answers, it changed the tables by a sequence of tracked statements, each allowed where it runs. |
| `RoomRules.HandleKeepsRules` | src/api/ops.py:504-760 | Every handler keeps every room rule: item names unique per list and list names unique ignoring case, sorted distinct tags, colours only of listed tags, due time and zone together and only with a date, a cycle exactly when dated, no completion time while open, every count and length within its limit. |
| `RoomRules.EveryRoomIsRuled` | src/api/ops.py:504-760 | A new room stays in order whatever ops are sent to it, applied or not: rules and tracking invariant hold in every reachable state. |
| `RoomRules.RefusedChangesNothing` | src/api/ops.py:823-837 | A refused or failed op leaves the tables as they were, so the savepoint has nothing to undo. |
| `RoomRules.MergeDueOk` | src/reminders/due_schedule.py:122-151 | A merged edit of a schedule in order is refused or again in order. |
| `HandlerLaws.AnswerIsFirstFailure` | src/api/ops.py:504-760 | What the server answers, for all 17 op types and every room: a list of checks per type, each said of the tables and the op (ID unused, list there, text there and short enough, version not behind unless the row says it, schedule parts fit, zone known, inside the calendar, name free, room left, ranges). The answer is the refusal of the first check that fails, with its code and item, and applied if none does. |
| `HandlerLaws.StaleWritesNothing` | src/api/ops.py:445-457 | No lost update, for all ops with an expected version: one that is behind and still applied meets a row that says what it wants, and writes nothing. |
| `HandlerLaws.StaleRefused` | src/api/ops.py:445-457 | And one that is behind on a row that says otherwise is refused as changed meanwhile, with the tables as they were, unless its text or schedule was refused before. |
| `HandlerLaws.ClockTimes` | src/reminders/due_schedule.py:28-29 | The clock texts are exactly those of the 1440 minutes of a day. |
| `HandlerEffects.AppliedSays` | src/api/ops.py:504-760 | After an applied op, of every type, the tables say what it wanted: the item open under its name, the state asked for, the edited fields with the schedule merged part by part, the tag there or gone, the settings, the deletions. |
| `HandlerChanges.AppliedChanges` | src/api/ops.py:504-760 | What it makes of its row, before and after compared: every field of an item that is not a time or a count (a quantity plus the delta but at least one, a tag added last, taken away or alone in single mode, a put-back row as it was, a new one with the defaults), every field of a list, and the tags of the list's items, renamed once in place of the old or cut to the first in the list's order. |
| `HandlerEffects.AppliedTouches` | src/api/ops.py:504-760 | And nothing else changed: only the op's row, the items of a deleted list, and the tags of items when a tag is renamed or the list switches to single; a new list starts with the defaults. |
| `HandlerEffects.AnswerNamesRow` | src/api/ops.py:823-837 | The answer names the version the op's row has now, and for an add or a restore the item it is about. |
| `HandlerEffects.IdleWritesNothing` | src/api/ops.py:504-760 | An applied op that leaves all rows as they are but for versions writes nothing: no version moves, so no page fetches. |
| `HandlerEffects.AppliedTimes` | src/database_crud.py:635-672 | Times, counts and due cycles over every applied op: checking stamps the time of the op, putting back counts as an add and starts a new cycle, a changed schedule gets a new cycle and due time, and an unchanged one keeps both. |
| `TagRules.RenameTags` | src/database_crud.py:339-354 | The loop gives the rename that keeps places and one copy of each tag. |
| `TagRules.RenamedShape` | src/database_crud.py:339-354 | After a rename the tags are distinct and exactly the other tags plus the new name if the old was there. |
| `TagRules.RenamedToItself` | frontend/src/lib/data/overlay.ts:233-248 | Renaming a tag to itself changes an item's tags if and only if they repeat one. |
| `TagRules.FirstIsMinimum` | src/database_crud.py:229-249 | The tag kept is of lowest rank, and the earliest of those. |
| `TagRules.RanksAgree` | src/database_crud.py:236-243 | The server's dictionary of ranks and the page's search for an index give the same order on distinct list tags. |
| `TagRules.FirstAgrees` | frontend/src/lib/data/overlay.ts:251-261 | Equal ranks keep the same tag on both sides. |
| `Texts.TrimItemName` | frontend/src/lib/data/overlay.ts:101-108 | The page's character loop removes exactly what Python's `strip` removes. |
| `Texts.TrimIdempotent` | frontend/src/lib/data/overlay.ts:101-108 | Trimming removes all outer spaces, so a second time changes nothing. |
| `Texts.StripCuts` | src/item_names.py:8 | Both trims cut off exactly the outer characters that they take for spaces; what stays is a stretch of the text. |
| `Texts.SortShape` | src/database_crud.py:271 | The tag sort gives a sorted permutation. |
| `Texts.SortStable` | src/database_crud.py:271 | Tags with equal lower-case keys keep their order. |
| `Texts.SortedIsFixed` | src/database_crud.py:271 | Sorting what is stored sorted changes nothing, so the feed's sort and the stored order agree. |
| `Simulation.OverlaySimulates` | frontend/src/lib/data/overlay.ts:124-206 | For all 16 projected op types and every room in order, an op the server applies, projected on the old feed view, gives the new feed view (up to times, versions and the UTC due time) if and only if it passes a check on the op and the rows it meets: the two trims agree on its text, a new row brings its ID, a restore brings quantity at least one, and a rename of a tag to its own name meets no repeated tags. |
| `Simulation.DueMergeAgrees` | frontend/src/lib/data/overlay.ts:358-413 | On a schedule in order the page's merge of an edit is the server's. |
| `OverlayRuns.QueueSimulates` | frontend/src/lib/data/overlay.ts:124-206 | Any queue of such ops, projected in order on a view like the old feed's, gives what the server's data will be after all of them. |
| `OverlayRuns.ProjectRespects` | frontend/src/lib/data/overlay.ts:124-206 | What a projection shows depends only on what the page can know: alike views stay alike under every op. |
| `Idempotence.ProjectTwice` | frontend/src/lib/data/overlay.ts:31-34 | On every view, projecting an op twice equals projecting it once, for every type but the two named as counting twice. |
| `Idempotence.SafeToRepeat` | frontend/src/lib/data/overlay.ts:31-34 | The exact converse: an op may be repeated on every view if and only if it is not one of the two, or is a delta of zero. |
| `OverlayFixpoints.PageTimes` | frontend/src/lib/data/overlay.ts:124-206 | What a projection shows of times and versions until the answer: checking shows the time of the act, putting back counts once and shows it as the add time, a changed schedule has no due time yet, a new row has the placeholder version, and every other time and version stays. |
| `Projection.Project` | frontend/src/lib/data/overlay.ts:124-206 | On every input the loop over pending ops that updates map copies, skips uncertain ops that count twice and then shows answered versions, gives a view that the pending ops can make one after another, with the answered versions; while item names are unique that is the projection of the other results. |
| `Projection.ProjectOp` | frontend/src/lib/data/overlay.ts:135-193 | One op on the copies, branch by branch, gives what the op can make of the view. |
| `Projection.OneResult` | frontend/src/lib/data/overlay.ts:268-298 | With unique item names an op makes one thing of a view: the projection of the other results. |
| `Projection.ProjectAdd` | frontend/src/lib/data/overlay.ts:268-298 | An open item of the name blocks, else one of the checked items of the name is put back, else a placeholder row appears. |
| `Projection.ProjectRestore` | frontend/src/lib/data/overlay.ts:301-330 | A restore shows its row unless the ID or the name is in use. |
| `Projection.RenameItemTags` | frontend/src/lib/data/overlay.ts:233-248 | The loop renames the tag on exactly the list's items that have it. |
| `Projection.KeepFirstItemTag` | frontend/src/lib/data/overlay.ts:251-261 | The loop leaves exactly the list's items with two or more tags their first in list order. |
| `Projection.FirstTag` | frontend/src/lib/data/overlay.ts:251-261 | The loop finds the earliest tag of lowest rank. |
| `RoomStores.RoomStore.constructor` | frontend/src/lib/data/room-store.svelte.ts:241-258 | A page starts with the data and seq of its snapshot and with nothing pending or held. |
| `RoomStores.RoomStore.ApplyFeed` | frontend/src/lib/data/room-store.svelte.ts:319-337 | An older delta is ignored; else the data is merged and exactly the ops and answered versions that the new seq reaches are dropped; a lower full feed drops all answered ones. |
| `RoomStores.RoomStore.OpWaits` | frontend/src/lib/data/room-store.svelte.ts:490-523 | A new or loaded op is projected last, once, and only if its type is projected. |
| `RoomStores.RoomStore.OpSettled` | frontend/src/lib/data/room-store.svelte.ts:713-755 | A refused op goes; an applied one goes if the data has it, else stays with its seq and certain; a held refresh runs. |
| `RoomStores.RoomStore.RecordAnswer` | frontend/src/lib/data/room-store.svelte.ts:693-701 | An applied answer replaces what was known of its row's version. |
| `RoomStores.RoomStore.OpFailed` | frontend/src/lib/data/room-store.svelte.ts:757-781 | The op goes; a held refresh runs. |
| `RoomStores.RoomStore.OpUnanswered` | frontend/src/lib/data/room-store.svelte.ts:783-790 | The op becomes uncertain exactly if the server may have applied it; a held refresh runs. |
| `RoomStores.AnswersChangeVersions` | frontend/src/lib/data/overlay.ts:195-204 | Answered versions change the versions of shown rows and nothing else. |
| `Rebase.PlanRewrites` | frontend/src/lib/data/rebase.ts:101-141 | Two passes over the queue fill one map of new bodies: sent ops keep theirs, every other op has exactly the body that remapping and then rebasing gives. When the answer to an add names another item, applied or refused, every unsent op about the page's new item is the same op on the named one. |
| `Rebase.RewriteKeepsMeaning` | frontend/src/lib/data/rebase.ts:101-141 | A rewrite changes the expected version and, after an add answered with another item, the item's ID; nothing else an op says. |
| `Rebase.MovedToKept` | frontend/src/lib/data/rebase.ts:66-122 | Said of the add, the answer and the later op alone: an op about the added ID becomes the same op on the item that the answer names, and expects the version of the answer, or the one the page shows, if it expected the placeholder. |
| `Rebase.OthersStay` | frontend/src/lib/data/rebase.ts:101-141 | An op about another row keeps its body, unless it expects the version that the answered op replaced. |
| `RebaseLaws.KeptIsThere` | src/api/ops.py:582-597 | The item that an add's answer names, applied or refused as a duplicate, is an open item of the list and the name after it. |
| `RebaseLaws.MovedIsFound` | frontend/src/lib/data/rebase.ts:66-122 | So an op behind the add, moved to the named item, is never refused there as on no item. |
| `Sync.StepKeeps` | frontend/src/lib/data/room-store.svelte.ts:319-420 | Each step of the machine (act, send, transmit, deliver late or again, answer, lose, fail even after a commit, ask, compute, arrive, apply, others write, reload with any queue a crash can leave) keeps the invariant: history, head-of-line, data of some state of the room, queue mirrored by the projection, nothing twice, nothing lost. |
| `Sync.RunKeeps` | frontend/src/lib/data/room-store.svelte.ts:707-790 | So does every run. |
| `Sync.LoseKeeps` | frontend/src/lib/data/write-queue.ts:411-425 | An unanswered op stays first in the queue with its one body; it is shown as uncertain unless the server refused access, and nothing counts twice. |
| `SequentialServer.EveryRun` | frontend/src/lib/data/room-store.svelte.ts:319-420 | For every run from a loaded page: an op shown as certain that was executed is one the data does not have; an op the page saw applied is in the data or still projected with its executed body; no op_id executes twice. |
| `SequentialServer.StepRemembers` | frontend/src/lib/data/room-store.svelte.ts:713-790 | The page still knows, or waits for, each of its applied ops that its data lacks, unless it reloads with a snapshot from before one, or an HTTP error drops one that was applied. |
| `SequentialServer.RunRemembers` | frontend/src/lib/data/room-store.svelte.ts:319-420 | So it does over every run without such a reload or error. |
| `SequentialServer.AloneIsOnlyOwn` | src/api/ops.py:823-837 | While nobody else changed the room past the page's data, the page knows of every change its data lacks, as refused ops change nothing. |
| `OverlayFixpoints.ShowsNothingNew` | frontend/src/lib/data/overlay.ts:124-206 | For every view and all 17 op types, a projection shows nothing new if and only if the view has what the op wants: a check per type on the op and the rows it meets (a name, schedule or setting already so, a tag already listed, a row already gone or already there). |
| `SequentialServer.ExecutedShown` | frontend/src/lib/data/overlay.ts:124-206 | In every state that keeps the invariant, with no change past the data that the page does not know of and applied ops faithfully projected: what the page shows before the ops the server has not executed is the room now, if and only if the executed head is rightly shown. That is: it is projected exactly if it was applied and the data lacks its effect, or the view before it has what it wants. |
| `SequentialServer.QueueShown` | frontend/src/lib/data/overlay.ts:124-206 | In every such state the applied ops that outrun the data, then the open one, then the waiting ones, projected on the data, give the room after the server executed them all, if the open op is rightly shown (executed or not); and only if, when no other op waits behind it. |
| `SequentialServer.ViewIsSequentialServer` | frontend/src/lib/data/overlay.ts:124-206 | For every run from a loaded page with lost answers, retries, late feeds and reloads: while nobody else changed the room past the page's data, the page shows what one sequential server would hold after executing the whole queue, if the open op is rightly shown; and only if, when no other op waits behind it. |
| `CatchUp.PageCatchesUp` | frontend/src/lib/data/room-store.svelte.ts:319-420 | Nothing gets stuck: from every state that any run from a loaded page reaches (answers lost, reloads, others writing), page and server alone have a run after which the queue is empty and the page shows exactly the room. Every queued op was executed, unless it brought an ID in use, and all earlier states and executions stay. |
| `Counterexamples.UncertainShowsOldName` | frontend/src/lib/data/overlay.ts:124-134 | Why nothing later: the answer to the page's rename is lost, somebody else renames the room, a feed brings both. Everything else holds, the data is current, and the page still shows its own older name. |
| `NoSelfConflict.NoSelfConflicts` | frontend/src/lib/data/rebase.ts:101-141 | In every run in which each request is answered, nobody else writes the rows, ops take their base from the row shown, and each answer finds the versions that later ops expect: no op of the page on these rows is refused as changed meanwhile. |
| `NoSelfConflict.AnswerKeepsBases` | frontend/src/lib/data/rebase.ts:117-136 | The exact condition, for every answered op (delta, flip, add, put-back, restore, or one with a base): after the answer every queued op expects its row's version on the server if and only if, for each later op with a base, the answered op left the row's version, or carried its own base, or the row was new, or the page shows it (for an op that moves to another item: the add was applied, or the page shows that item). |
| `NoSelfConflict.HiddenIff` | frontend/src/lib/data/overlay.ts:268-330 | Which rows are hidden can be told before the answer: exactly those that the page's data lacks and whose every pending add or restore meets a missing list or another item of the same name. |
| `NoSelfConflict.ShownIff` | frontend/src/lib/data/overlay.ts:124-206 | The same for any view and any pending ops that do not delete the row. |
| `NoSelfConflict.StaleEdit` | frontend/src/lib/data/room-store.svelte.ts:686-691 | The whole failing family: on every room and for every view that hides the row, an edit behind an applied delta keeps its old base and is refused. |
| `HiddenRow.HiddenRowConflicts` | frontend/src/lib/data/room-store.svelte.ts:319-420 | A run from a loaded page that fails without a delete: the page adds a row, the add is executed and answered, and quantity plus one and an edit of the row are queued as it is shown. A late feed brings another device's open item of the name, gone from the server already, which hides the row. Every request is answered, and the edit is refused. |
| `Counterexamples.StaleQueueConflicts` | frontend/src/lib/data/room-store.svelte.ts:686-691 | From every state in which the queue begins with a delta and an edit of a row the page hides, the edit expecting the server's version: every request is answered, nobody else does anything, and the edit is refused as changed meanwhile. |
| `Counterexamples.PageConflictsWithItself` | frontend/src/lib/data/room-store.svelte.ts:686-691 | The queue quantity plus one, edit, delete as a run from a freshly loaded page of any room: every request is answered, nobody else does anything, and the edit is refused as changed meanwhile. |
| `NoSelfConflict.QueuedDeleteConflicts` | frontend/src/lib/data/room-store.svelte.ts:686-691 | A concrete failing queue, on every room: quantity plus one, edit, delete. The delete hides the row, so the edit keeps its old base and is refused. |
| `NoSelfConflict.AnswerNamesVersion` | src/api/ops.py:582-760 | A row's version moves only with an op on that row, and the answer names the new version. |
| `NoSelfConflict.ExpectedVersionPasses` | src/api/ops.py:445-457 | An op that expects the row's version is never refused as changed meanwhile. |
| `NoSelfConflict.RewrittenBase` | frontend/src/lib/data/rebase.ts:101-141 | For one later op and any answered op, whatever else is queued (deletes too): an expected version that was the row's before the answer becomes the row's after it if and only if that condition holds, also through a remapped ID. |
| `NoSelfConflict.ShownIsCurrent` | frontend/src/lib/data/room-store.svelte.ts:686-691 | In such runs a shown row's version is the server's before the open op, whatever feeds came when. |
| `Delivery.PrunedAreOld` | src/database_crud.py:1119-1128 | Pruning is harmless: in every run, an executed op without a stored response was made more than 30 days ago. |
| `DeliveryOrder.InTimeRunsOnce` | src/database_crud.py:1119-1128 | In every run in which requests arrive within 30 days of their op, only an op the user sent by hand can execute twice. |
| `Delivery.StartsInTime` | frontend/src/lib/data/queue-entries.ts:133-151 | In every run, the page sends out only ops that are not older than 30 days or that the user approved. |
| `Delivery.StartsWhenInTime` | frontend/src/lib/data/queue-entries.ts:133-151 | And it can send out every such op: in every run, an idle page whose first entry is approved, or pending and not older than 30 days, can start it. |
| `DeliveryDrain.QueueDrains` | frontend/src/lib/data/write-queue.ts:348-442 | From every state that a run reaches with the page idle and each entry readable and in time or approved, there is a run that empties the queue: each op without a stored response executes once, in the order of the queue, and none is dropped or approved on the way. |
| `DeliveryOrder.ExactlyOnceInOrder` | frontend/src/lib/data/write-queue.ts:348-475 | In every run with late storage calls, crashes at any point, lost answers, requests that arrive at any later time or again, retries, rewrites, held ops and pruning: all requests of an op_id have one body (so op_id_reused never occurs); an op that executed after a later one was dropped by an HTTP error before it ran, or had executed before; and an op that executed twice was made more than 30 days ago. |
| `DeliveryOrder.InOrder` | frontend/src/lib/data/write-queue.ts:348-475 | Late, repeated and lost requests and crashes do no harm to the order: unless an HTTP error dropped an op before it ran, and while none executes twice, ops execute in the order made. |
| `DeliveryOrder.OpenIsLatest` | frontend/src/lib/data/write-queue.ts:348-475 | In every run, while the page waits for an answer no later op has executed, whatever was pruned. |
| `DeliveryOrder.WhenOutOfOrder` | frontend/src/lib/data/write-queue.ts:427-431 | Exactly when the order fails: a request arrives after a later op executed, and its op was either dropped by an HTTP error and never executed, or executed and its stored response pruned. |
| `DeliveryOrder.WhenTwice` | src/database_crud.py:1119-1128 | Exactly when an op executes twice: a request of it arrives after its stored response was pruned. By the rows above that is later than 30 days after it was made. |
| `DeliveryRuns.LateRequestRunsTwice` | src/database_crud.py:1119-1128 | The bound is tight, in a run from the beginning: an op is made and executed, its answer is lost, its request goes out again and arrives when the server has pruned; not approved by anyone, it runs twice if and only if it arrives more than 30 days after it was made. |
| `DeliveryRuns.LateRequestRunsBehind` | src/database_crud.py:1119-1128 | A run without any HTTP error in which the order fails: an op goes out twice, is executed and answered, a later op executes, and the other request arrives when the server has pruned. The log is first, later, first if and only if that is more than 30 days after the first was made. |
| `DeliveryRuns.DroppedOpRunsLater` | frontend/src/lib/data/write-queue.ts:427-431 | A run with one: the page gives up on a request, the next one gets an HTTP error and the op is dropped, a later op executes, and then the first request arrives. |
| `Delivery.RunKeeps` | frontend/src/lib/data/write-queue.ts:360-442 | Every run keeps the invariant that ties memory, the chain of storage calls and the stored queue: at each point a crash finds a sound queue. |
| `Delivery.ReadFindsMemory` | frontend/src/lib/data/write-queue.ts:317-329 | A stored read that no local change overlapped finds exactly the tab's own entries. |
| `Delivery.EveryCrash` | frontend/src/lib/data/write-queue.ts:317-329 | What a crash leaves, in every run: each stored op has its own ID, only the first may have gone out, every request had the stored body, and an open request is the first's. |
| `WriteQueues.WriteQueue.Send` | frontend/src/lib/data/write-queue.ts:183-197 | The op is appended in memory and its storage call queued. |
| `WriteQueues.WriteQueue.StoredRead` | frontend/src/lib/data/write-queue.ts:317-329 | A read replaces the memory exactly if nothing changed since it was asked for. |
| `WriteQueues.WriteQueue.NextReady` | frontend/src/lib/data/queue-entries.ts:133-151 | Only the first entry may go, if and only if it is readable and approved, or readable, pending and made at most 30 days ago; said of the entry's own fields. |
| `WriteQueues.WriteQueue.BeginCall` | frontend/src/lib/data/write-queue.ts:383-391 | The start is recorded, once, before the request. |
| `WriteQueues.WriteQueue.Settle` | frontend/src/lib/data/write-queue.ts:433-442 | The answered op goes and exactly the unsent readable ops behind it take the bodies that rebasing gives, in memory and one storage call each. |
| `WriteQueues.WriteQueue.ApplyRewrites` | frontend/src/lib/data/write-queue.ts:463-475 | New bodies in memory, one storage call each; nothing for no rewrite. |
| `WriteQueues.WriteQueue.Fail` | frontend/src/lib/data/write-queue.ts:427-431 | The op goes for good. |
| `WriteQueues.WriteQueue.SendHeld` | frontend/src/lib/data/write-queue.ts:253-269 | Exactly the readable pending entries that are older than 30 days or have no time become approved; every other entry stays as it is. |
| `WriteQueues.WriteQueue.HoldForSignOut` | frontend/src/lib/data/write-queue.ts:206-224 | Exactly the readable entries become held for sign-out; nothing else of any entry changes. |
| `WriteQueues.WriteQueue.SendAfterSignIn` | frontend/src/lib/data/write-queue.ts:227-238 | Exactly the entries held for sign-out wait again, as pending; nothing else of any entry changes. |
| `WriteQueues.SameStates` | frontend/src/lib/data/queue-storage.ts:72-77 | A change of state in memory and in the storage agree if and only if no unreadable entry with another state is among the IDs. |
| `WriteQueues.WriteQueue.Discard` | frontend/src/lib/data/write-queue.ts:280-291 | An op is dropped exactly if it is queued and not in flight. |
| `SignIn.SignInLimiter.Reserve` | src/sign_in_limiter.py:49-68 | Succeeds if and only if fewer than 10 unreleased attempts on the room and fewer than 30 on all rooms (or fewer than 10 of the admin) were made in the last 60 seconds; then no 60-second window of any bucket holds more than its limit. A refusal changes no live slot and returns the largest wait in whole seconds. No bucket with a live stamp is ever dropped to save memory. |
| `SignIn.SignInLimiter.Release` | src/sign_in_limiter.py:70-80 | Gives back exactly one slot in each bucket of the attempt and keeps all of the above. |
| `SignIn.SignInLimiter.Live` | src/sign_in_limiter.py:87-97 | Returns the live stamps and drops the expired ones of one bucket. |
| `SignIn.SignInLimiter.Trim` | src/sign_in_limiter.py:99-105 | While live buckets fit the cap, only expired stamps and empty buckets go. |
| `SignIn.FewLiveBuckets` | src/api/sign_in_limit.py:23-33 | With this bucket layout there are never more than 32 live buckets, as each live room bucket has an all-rooms stamp of its own. |
| `SignIn.AppendedBounded` | src/sign_in_limiter.py:49-68 | A free slot at the time of an attempt bounds every window, past and future. |
| `SignIn.ReleasedBounded` | src/sign_in_limiter.py:70-80 | Giving a slot back never raises the count of a window. |
| `SignIn.TightWait` | src/sign_in_limiter.py:53-65 | With nothing else happening, a refused attempt stays refused until the largest wait has passed and is free from then on, hence after the returned seconds, and no whole second earlier. |
| `ZonedTime.ResolveWallTime` | src/reminders/zoned_time.py:57-71 | Returns the first instant whose shown local time is at or after the wall time: normal, repeated and skipped times alike, in every zone whose changes are further apart than their jumps. |
| `ZonedTime.FirstSecondWithOffset` | src/reminders/zoned_time.py:38-54 | The binary search ends at the change of offset. |
| `ZonedTime.Resolved` | src/reminders/zoned_time.py:57-71 | The candidate by the offset before is right unless it falls into the gap, and then the end of the gap is. |
| `ZonedTime.FirstIsOne` | src/reminders/zoned_time.py:57-71 | There is only one such instant. |
| `ZonedTime.ResolveMonotone` | src/reminders/zoned_time.py:57-71 | A later wall time never resolves to an earlier instant. |
| `ZonedTime.ShownOrGap` | src/reminders/zoned_time.py:57-71 | A time the zone shows resolves to its first showing; a skipped one exactly to a change of offset. |
| `ZonedTime.ReminderInstant` | src/reminders/zoned_time.py:74-96 | Minutes and hours are elapsed time before the resolved instant; days and weeks are calendar days before it is resolved. |
| `ReminderRules.NormalizeRules` | src/reminders/rules.py:110-155 | The loops over sets and lists compute the normalization, whose meaning the rows on `RuleLaws` give. |
| `RuleLaws.RulesMean` | src/reminders/rules.py:175-249 | Every rule that comes out means what its input asked for. A relative one fires at an instant, for every zone and wall time, if and only if the input asked for it: minutes and hours before the due instant, or the first instant of the wall time days or weeks before. A fixed one has the input's date, time and zone, and is the stored rule or is resolved to come, active from now. |
| `RuleLaws.NewAccepted` | src/reminders/rules.py:110-343 | New inputs (none naming a stored rule or repeating its wall time) are accepted if and only if there are at most five, each relative one in its limits (52 weeks, 365 days, 8760 hours, 525600 minutes), each fixed one of its form with a known instant to come, and no two mean the same: equal relative times, or equal instants. |
| `RuleLaws.OutputsDiffer` | src/reminders/rules.py:332-343 | No two rules that come out are the same, and no two fixed ones share an instant. |
| `RuleLaws.SameInputAgain` | src/reminders/rules.py:197-249 | The same input sent again, with its rules stored: at any later time it gives the same rules, nothing resolved again and no new ID, if and only if every input that names a stored rule kept that rule's wall time; else it is refused. |
| `ReminderRules.ReserveExplicitIds` | src/reminders/rules.py:197-218 | The named stored IDs, or a refusal for one unknown or named twice. |
| `ReminderRules.StoredByIntent` | src/reminders/rules.py:281-301 | The first stored rule with the wall intent that is neither named nor claimed is claimed. |
| `ReminderRules.RejectDuplicates` | src/reminders/rules.py:332-343 | Accepts exactly if no relative rule repeats and no two fixed rules share an instant. |
| `ReminderRules.NextRule` | src/reminders/rules.py:221-249 | One input: kept by name or intent, or resolved anew with a fresh ID and activation. |
| `ReminderRules.ResavingIsIdentity` | frontend/src/lib/reminders/rules.ts:19-34 | Rules that came out of the normalizer, sent back by the page with those fixed rules stored, come out the same at every time, with no new ID. |
| `ReminderRules.OutputIdsDistinct` | src/reminders/rules.py:110-155 | If new IDs are fresh, no two fixed rules that come out share an ID. |
| `Policies.CutoffNeverMovesBack` | src/reminders/policies.py:223-356 | Any save leaves every item's cutoff at or after where it was; one that changes the item's effective policy puts it at the time of the save. |
| `Policies.CutoffCoversChanges` | src/reminders/policies.py:335-356 | Over any run of saves with a clock that does not go back, an item's cutoff is at or after every save that changed its policy, resets included. |
| `Policies.ResavingChangesNothing` | src/reminders/policies.py:223-301 | Sending a custom policy back as shown writes nothing at any later time. |
| `Policies.PolicyTables.SaveRow` | src/reminders/policies.py:153-220 | One row is written with the next revision and its activation. |
| `Policies.PolicyTables.ReplacePolicy` | src/reminders/policies.py:223-301 | A refused or unchanged save writes nothing; a room save moves the enrollment with it. What is stored the rows on `PolicyLaws` give. |
| `PolicyLaws.WhenSaved` | src/reminders/policies.py:223-301 | A save is accepted if and only if: a summary time is a clock time and sent with the room; the room is replaced, never inherits or is disabled; a replacement names a preset and only it; inputs and a summary flag come with the custom preset only; and custom inputs are accepted. A refused one leaves all tables. |
| `PolicyLaws.SavedIsAsked` | src/reminders/policies.py:223-301 | After an accepted save the policy of the target has the asked state, preset and summary, and as a set exactly the asked rules (the preset's, or what the custom inputs mean); every other policy is as it was, and the enrollment changes with the room's policy only, to the asked mode and summary time. |
| `PolicyLaws.SavedIsStamped` | src/reminders/policies.py:153-301 | A save of what is stored writes nothing; any other raises the revision by one and is active from now, and a room save stamps the enrollment, its summary only for another summary time. |
| `PolicyLaws.SelectedIs` | src/reminders/policies.py:335-356 | The item's own policy counts if it does not inherit, else the list's if that does not, else the room's. |
| `PolicyLaws.SavedIsSelected` | src/reminders/policies.py:223-356 | After an accepted replacement of an item's own policy, that policy counts for it, with the asked rules. |
| `PolicyLaws.CutoffIs` | src/reminders/policies.py:335-356 | The cutoff is the latest of the enrollment's activation and the activations of the policies up to the one that counts. |
| `PolicyLaws.EnrolledIsAsked` | src/reminders/policies.py:304-332 | Another mode of the enrollment brings its preset's rules to the room, another summary time alone keeps them, the same of both writes nothing, and no other policy changes. |
| `PolicyLaws.SavedAgain` | src/reminders/policies.py:223-301 | The same save again, at any later time, is accepted and writes nothing; a custom one if and only if the first wrote nothing or no named fixed rule got another wall time. |
| `Policies.PolicyTables.SyncEnrollment` | src/reminders/policies.py:304-332 | The room's row follows the enrollment's own settings. |
| `Policies.PolicyTables.Resolve` | src/reminders/policies.py:335-356 | The walk along item, list and room selects the first policy that does not inherit and the latest activation passed. |
| `Snapshots.ReadsAreFenced` | frontend/src/lib/data/snapshot-store.ts:217-419 | Under every interleaving of tabs: a read gives data saved with a token issued after the last clear or sign-out of the room; nothing is readable and no token is given exactly while signed out; the last-room hint names a room saved since its last clear. |
| `Snapshots.CurrentUnlessSignedIn` | frontend/src/lib/data/snapshot-store.ts:288-530 | Under every interleaving of tabs, a snapshot that can be read is of the current generation if and only if nobody signed in since it was saved. |
| `Snapshots.SignInKeepsSnapshot` | frontend/src/lib/data/snapshot-store.ts:506-530 | Signing in makes old tokens stale and keeps the data, so a stored snapshot need not be of the current generation. |
| `SnapshotLaws.ReadIsLastSave` | frontend/src/lib/data/snapshot-store.ts:217-548 | Whatever the tabs called, in any order: a read gives the last accepted save of the key unless a clear came after or a clean-up found it older than 30 days, and nothing while signed out; the routing hint names the room saved last unless it was cleared; a server logout is pending exactly for rooms signed out and not acknowledged since. |
| `SnapshotLaws.TokenUntilRenewed` | frontend/src/lib/data/snapshot-store.ts:263-530 | Whatever the tabs called: a token is given exactly while not signed out, and it lets its key be saved until the next clear, sign-out or sign-in of the key, and never after. |
| `Snapshots.SnapshotStore.Generation` | frontend/src/lib/data/snapshot-store.ts:263-286 | A token of the current generation, or signed out; a missing control is created. |
| `Snapshots.SnapshotStore.Read` | frontend/src/lib/data/snapshot-store.ts:288-327 | The data, nothing, or signed out; a snapshot without control is removed. |
| `Snapshots.SnapshotStore.Save` | frontend/src/lib/data/snapshot-store.ts:329-378 | Stored exactly if the token is of this room's current generation and nobody signed out. |
| `Snapshots.SnapshotStore.Clear` | frontend/src/lib/data/snapshot-store.ts:380-419 | The generation moves on, snapshot and hint of the room go, a sign-out mark is kept or set. |
| `Snapshots.SnapshotStore.Prune` | frontend/src/lib/data/snapshot-store.ts:421-448 | Exactly the snapshots too old and not to be kept go, and are counted. |
| `Snapshots.SnapshotStore.AcknowledgeServerLogout` | frontend/src/lib/data/snapshot-store.ts:479-504 | Only a pending logout is marked done. |
| `LiveUpdates.NoLostWakeUp` | src/api/events.py:84-103 | In every interleaving of commits, wake-ups and stream steps, a stream that sleeps with its event clear and no wake queued has sent the latest committed seq, unless a writer has still to wake it. |
| `LiveUpdates.Hub.Reserve` | src/live_updates.py:80-88 | A slot exactly while fewer than 100 are in use. |
| `LiveUpdates.Hub.Subscribe` | src/live_updates.py:91-104 | A reserved slot becomes the subscription of one stream; the number in use stays. |
| `LiveUpdates.Hub.WakeStreams` | src/live_updates.py:107-116 | One more wake is queued for each stream of the room and for no other. |

## Left out

- NoSelfConflict.NoSelfConflicts: does not cover runs with a reload, a lost answer or an HTTP error, nor ops that delete one of the rows; tag renames and the switch to single write rows their answer does not name, so they are excluded too.
- SequentialServer.ViewIsSequentialServer: speaks of moments at which nobody else wrote past the page's data (a foreign write shows with the next feed) and of ops the server will apply with a faithful projection. With other ops waiting behind the open op, the condition on it is sufficient, as a later op can hide the difference; `SequentialServer.ExecutedShown` is exact for what is shown before them.
- Projection.ProjectAdd: with several checked items of one name on the page (a state only a page can be in), which of them an add puts back depends on the insertion order of a JavaScript Map; the contract allows each of them.
- DeliveryOrder.ExactlyOnceInOrder: discarding an op and unreadable entries are not part of that machine.
- Sync.StepKeeps: the queues that a reload may find are what `Delivery.EveryCrash` proves of the storage, stated again for this machine; the two machines are not joined by a refinement. After an HTTP error no copy of the dropped op is under way in this machine; in `Delivery` it may be.
- ZonedTime.ResolveWallTime: overflow of the calendar is not covered.
- SignIn.SignInLimiter.Reserve: monotonic times are real numbers, and the lock around the calls is not modelled.
- The flag on a stream's reservation object, beside the set it mirrors.
- HTTP, sessions, cookies, passwords, parsing of requests and error mapping.
- Share links: slugs, tokens and ops sent through a share link; only the share seq is modelled.
- `list.create` is not projected by the page and not part of the page's runs; its handler is covered.
- Two tabs that share one queue, clearing a room while an op is in flight, and a database restored while ops are pending: the overlay claims do not hold there.
- Notices, the list of changes not saved, and which status the page shows.
- Old deletion records without a list, and reading damaged tag or colour text with defaults.
- Failing storage and the fallback in memory; IndexedDB transactions and storage calls are atomic steps.
- The reminder preview with its quiet hours, and delivery of reminders.
- Writes of an enrollment other than its mode and summary time.
- Text that is not a UUID, keys with a meaning to JavaScript objects, and empty strings as dates.
- Migrations, field checks that repeat the room rules in SQL, and the overflow of generations.
