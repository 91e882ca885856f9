# LexReport Studio collaboration core, in Dafny

This project models the collaboration layer of LexReport Studio in Dafny 4.11 and proves
properties of that model. LexReport Studio is a web editor in which several users write a
legal report together. A report is a list of sections. Each section holds an ordered list of
typed content blocks. The model covers the following:

- **Content synchronization** (`Sync`, `SyncHook`): the `SyncManager` class that turns database
  row updates into change events and broadcasts local edits; the conflict resolver, both
  last-write-wins and the three-way block merge; and the React hook that filters incoming
  changes.
- **Presence** (`Presence`, `PresenceHook`): the colour hash, the `PresenceManager` class with
  its join, update and leave calls, the "users in section" and "active users" queries, and the
  hook around them.
- **Collaboration UI logic** (`CollaborationBar`, `PresenceAvatars`, `SectionSidebar`,
  `BlockRenderer`): the last-sync label, the avatar strip, the sidebar's drag-to-reorder and
  expand state, and the block editor's update handlers and style fallbacks.
- **Content block types** (`ContentBlocks`, `SectionTypes`): the block variants, their type
  guards and factories, and the section-type enumeration.
- **Section API routes** (`ApiCommon`, `SectionsRoute`, `ReorderRoute`): every status code and
  the database write of GET, POST, PUT and DELETE on sections and of the batch reorder.
- **AI drafting** (`AiProviders`, `GenerateRoute`, `AiPanel`, `JsonStrings`): prompt building,
  provider construction, the configuration merge, the server-sent-event stream the route
  writes, and the panel that reads it back.
- **Scripts** (`ImportDocx`, `ApplyMigration`): the DOCX importer's slugs, classifier, HTML
  cleaning and section parsing, and the migration runner's statement splitting.

One Dafny module models each source file. `Common` holds the JavaScript primitives the code
relies on: `trim`, `split`, `includes`, case mapping, number printing and truthiness.

The source's own form is kept:

- Classes whose methods update fields are Dafny classes with `modifies` clauses: the
  `SyncManager`, the `PresenceManager`, the two hooks' sessions, the sidebar state and the AI
  panel.
- Loops are methods with invariants, each proved against a specification function. Examples
  are the id map and merge loop, the colour hash, the presence filters, the heading parser,
  the block builder, the migration loop, the event pump and the patch builder.
- Pure logic is functions and lemmas.
- Clocks, generated ids, database answers, network results and the environment are
  parameters.

Where the behaviour described for the system and the code differ, the model follows the code:

- Blocks of equal `order` are not ordered by id after a merge. `Array.prototype.sort` is
  stable, so they keep the order in which their ids were first seen, local ids first
  (`Sync.MergeSortedStable`, `Sync.LocalIdsFirst`).
- The sync hook delivers another user's change when *no* section is open, as well as when
  the change is for the open section (`SyncHook.DeliveryRule`).
- The migration runner drops a whole piece between semicolons when the piece opens with a
  `--` comment line, including any statement after the comment
  (`ApplyMigration.CommentHeadedPieceDropped`).
- A slug can end in a dash. Outer dashes are stripped before the cut to 50 characters, not
  after it (`ImportDocx.SlugCanEndInDash`).

The presence hook's section effect depends on the section and on the presence state. It
therefore runs after the mount effect, after every section change and after every presence
sync (`PresenceHook.RealtimePresenceSession.SectionEffect`, called from `Setup`,
`OnSectionChange` and `OnPresenceSync`). Each run tracks the user's record again with a new
last-seen time. So every sync is answered by a new `track`. If the presence service answers
that `track` with another sync, the hook republishes for as long as it is mounted. The
presence service is outside the model, so that last step is not proved. The users that the
sync callback computes for the section captured at mount are overwritten by that effect at
once.

The stream reader splits each read on its own at line feeds, as the code does. A line cut
across two reads fails to parse in both halves, and its content is lost.

## Model

| member | source | states |
|---|---|---|
| Sync.ResolveConflict | lib/realtime/sync.ts:91-103 | the remote blocks are returned exactly when the remote timestamp is strictly later, the local blocks otherwise (ties keep local) |
| Sync.LastWriteWinsConverges | lib/realtime/sync.ts:97-102 | with distinct timestamps both replicas resolve to the same blocks whichever side calls; on a tie each side keeps its own |
| Sync.IndexById | lib/realtime/sync.ts:121-123 | the `new Map(blocks.map(b => [b.id, b]))` loop builds the id map whose keys are exactly the ids present and whose entries carry their own id and come from the list |
| Sync.CollectIds | lib/realtime/sync.ts:126-129 | the `Set` of ids has no duplicates and holds exactly the ids of the blocks |
| Sync.PickBlocks | lib/realtime/sync.ts:131-154 | the per-id loop picks one block per id: the remote one when the id is remote, else the local one |
| Sync.MergeBlocks | lib/realtime/sync.ts:109-158 | the loop-based merge equals the specification `Merged`; identical inputs return the local blocks unchanged |
| Sync.InsertSorted | lib/realtime/sync.ts:157 | inserting one block into an order-sorted list keeps it sorted and one longer |
| Sync.SortSortsAndPermutes | lib/realtime/sync.ts:157 | the sort by `order` yields a sorted permutation of its input |
| Sync.SortIsStable | lib/realtime/sync.ts:157 | blocks with equal `order` keep their relative order (the sort is stable, as `Array.prototype.sort` is) |
| Sync.MergeIdsExactlyOnce | lib/realtime/sync.ts:119-157 | when the inputs differ, every id present on either side appears exactly once in the merge and no other id appears |
| Sync.MergeRemoteWins | lib/realtime/sync.ts:131-153 | each merged block is the remote copy of its id when there is one (whether or not the base has it), else the local copy |
| Sync.MergeIgnoresBase | lib/realtime/sync.ts:140-146 | the result does not depend on the base blocks: both branches on `base` push the remote block |
| Sync.MergeSortedStable | lib/realtime/sync.ts:156-157 | the merge is sorted by `order`, and blocks of equal order stay in first-seen id order |
| Sync.LocalIdsFirst | lib/realtime/sync.ts:126-129 | the id set lists the local ids first, in their order, before any remote-only id |
| Sync.MergeIdempotent | lib/realtime/sync.ts:114-117 | merging a list with itself returns it unchanged whatever the base |
| Sync.Normalize | lib/realtime/sync.ts:41-50 | a row update gives a change exactly when the new row exists with a non-empty id; the change carries its id, blocks and timestamp, and `updated_by` or `'unknown'` when that is empty |
| Sync.SyncManager.constructor | lib/realtime/sync.ts:16-23 | a new manager has no channel, no handler and has sent nothing |
| Sync.RowFilterDeterminesReport | lib/realtime/sync.ts:39 | the row filter `report_id=eq.<id>` determines the report id: two managers with the same filter watch the same report, so a subscription sees only its own report's rows |
| Sync.SyncManager.Subscribe | lib/realtime/sync.ts:25-59 | subscribing records the channel and the handler and sends nothing |
| Sync.SyncManager.Unsubscribe | lib/realtime/sync.ts:61-67 | with a channel, both channel and handler are cleared; without one nothing changes |
| Sync.SyncManager.HandleRowUpdate | lib/realtime/sync.ts:41-55 | the handler is called exactly when one is registered and the row has an id, and with the normalized change |
| Sync.SyncManager.BroadcastChange | lib/realtime/sync.ts:70-83 | with a channel exactly one `content_change` broadcast carrying the section, blocks, own user id and the current time is appended; without one nothing is sent |
| Presence.ToInt32 | lib/realtime/presence.ts:38 | the 32-bit wrap of JavaScript's `<<` and `-`: the result is a signed 32-bit value congruent to the input modulo 2^32 |
| Presence.CodeUnits | lib/realtime/presence.ts:37-38 | `charCodeAt` iterates UTF-16 code units: at least one per character, each below 0x10000 |
| Presence.UserColor | lib/realtime/presence.ts:23-42 | the colour is always one of the eight palette entries |
| Presence.GetUserColor | lib/realtime/presence.ts:23-42 | the hashing loop returns the palette entry at abs(hash) mod 8 and so always a palette colour |
| Presence.HashStepIsTimes31 | lib/realtime/presence.ts:38 | `code + ((hash << 5) - hash)` is `31 * hash + code` modulo 2^32 |
| Presence.EmptyIdColor | lib/realtime/presence.ts:36-41 | the empty id hashes to 0 and gets the first colour, red |
| Presence.SingleCharColor | lib/realtime/presence.ts:36-41 | the id "a" hashes to 97 and gets teal (97 mod 8 = 1) |
| Presence.MultipleOfTwoTo32 | lib/realtime/presence.ts:38 | sums and multiples of multiples of 2^32 stay multiples of 2^32, the arithmetic behind the wrap-around argument |
| Presence.FlattenUpToMembers | lib/realtime/presence.ts:113-114 | the nested iteration over the first n state entries reaches a user exactly when one of those entries lists it |
| Presence.FlattenMembers | lib/realtime/presence.ts:113-114 | `Object.values(state)` flattened holds exactly the users listed under some key |
| Presence.InSectionMembers | lib/realtime/presence.ts:110-122 | a user is in the section list exactly when it is in the state, its section is the given one and it is not the current user |
| Presence.ActiveMembers | lib/realtime/presence.ts:124-141 | a user is active exactly when it is in the state, is not the current user and was seen less than 30000 ms ago |
| Presence.ActiveThresholdIsStrict | lib/realtime/presence.ts:127-133 | a user seen 29 s ago is active, one seen exactly 30 s ago is not |
| Presence.PresenceManager.constructor | lib/realtime/presence.ts:44-54 | a new manager has no channel, no current user, no handler and has made no channel call |
| Presence.PresenceManager.Join | lib/realtime/presence.ts:56-84 | joining records the channel and handler, sets the current user with no section, its colour and the join time, and tracks that record |
| Presence.PresenceManager.UpdateSection | lib/realtime/presence.ts:86-92 | with a user and a channel the section and last-seen time are replaced and the record is tracked again; otherwise nothing changes |
| Presence.PresenceManager.UpdateCursor | lib/realtime/presence.ts:94-100 | with a user and a channel the cursor and last-seen time are replaced and the record is tracked again; otherwise nothing changes |
| Presence.PresenceManager.Leave | lib/realtime/presence.ts:102-108 | with a channel it untracks and clears channel and current user; without one nothing changes |
| Presence.PresenceManager.OnSync | lib/realtime/presence.ts:71-74 | a presence sync reaches the handler with the whole state exactly when a handler is registered |
| Presence.PresenceManager.GetUsersInSection | lib/realtime/presence.ts:110-122 | the nested loops return the users of the state in the given section other than the current user, in state order |
| Presence.PresenceManager.GetActiveUsers | lib/realtime/presence.ts:124-141 | the nested loops return the users of the state other than the current user seen less than 30 s ago, in state order |
| PresenceHook.PublishedSection | hooks/use-realtime-presence.ts:60 | the fallback to null: a truthy section is published as is, an absent or empty one as no section |
| Common.TopicsApart | hooks/use-realtime-presence.ts:30 | a report's presence channel `report:<id>:presence` is never the sync channel `report:<id>:sync` of any report, so presence and sync traffic never share a channel |
| PresenceHook.RealtimePresenceSession.constructor | hooks/use-realtime-presence.ts:15-26 | a mounted hook starts with empty presence state and user lists and no manager |
| PresenceHook.RealtimePresenceSession.Setup | hooks/use-realtime-presence.ts:29-70 | the first render's effects: a fresh manager joins the report's presence channel and tracks the user's new record (no section, no cursor, own colour, seen now); the section effect then tracks that record again with the open section (empty as null) and computes the section's users; the open section is captured |
| PresenceHook.RealtimePresenceSession.SectionEffect | hooks/use-realtime-presence.ts:57-70 | with a joined manager the record is tracked again with the current section (empty as null) and a fresh last-seen time, and the section's users are recomputed from the current state or emptied for no section; before join nothing is sent; without a manager nothing changes |
| PresenceHook.RealtimePresenceSession.OnPresenceSync | hooks/use-realtime-presence.ts:41-70 | a sync stores the state and the active users; the new state re-runs the section effect, so the section's users are those of the current section (none when no section is open) and the record is tracked once more with a fresh last-seen time |
| PresenceHook.RealtimePresenceSession.OnSectionChange | hooks/use-realtime-presence.ts:57-70 | a new section prop re-runs the section effect: with a joined manager the record is tracked again with the new section (empty as null) and a fresh last-seen time, and the section's users are recomputed from the stored state or emptied; before join nothing is sent |
| PresenceHook.RealtimePresenceSession.UpdateCursor | hooks/use-realtime-presence.ts:72-74 | with a joined manager the record gets the cursor and a fresh last-seen time and is tracked once more; otherwise nothing is sent and the record is unchanged |
| PresenceHook.RealtimePresenceSession.Cleanup | hooks/use-realtime-presence.ts:51-54 | unmounting leaves the presence (one untrack, record cleared) when a channel was joined, sends nothing otherwise, unsubscribes the channel and keeps the hook's state |
| SyncHook.DeliveryRule | hooks/use-realtime-sync.ts:33-44 | a change is never delivered to its own author; another user's change is delivered exactly when no section is open or it is for the open section |
| Common.TopicDeterminesReport | hooks/use-realtime-sync.ts:28 | a channel topic of one kind determines its report id, so two reports never share a sync (or a presence) channel |
| SyncHook.RealtimeSyncSession.constructor | hooks/use-realtime-sync.ts:15-25 | a mounted hook is disconnected, has never synced, has no manager and holds the section prop |
| SyncHook.RealtimeSyncSession.Setup | hooks/use-realtime-sync.ts:27-46 | the effect creates a fresh manager for the report and user, subscribes it to the sync channel with a handler that captures the open section, and marks the hook connected; the last-sync time is kept |
| SyncHook.RealtimeSyncSession.OnRowUpdate | hooks/use-realtime-sync.ts:33-44 | a row update reaches `onRemoteChange` and sets the last-sync time exactly when the manager normalizes it and the delivery rule accepts it |
| SyncHook.RealtimeSyncSession.OnSectionChange | hooks/use-realtime-sync.ts:27-53 | a new section prop re-runs the effect: the old manager is unsubscribed without sending anything, a fresh one subscribes with a handler that captures the new section, the hook is connected again, and the last-sync time and delivered changes are kept |
| SyncHook.RealtimeSyncSession.Cleanup | hooks/use-realtime-sync.ts:48-52 | unmounting unsubscribes manager and channel and marks the hook disconnected; the last-sync time and the section are kept |
| SyncHook.RealtimeSyncSession.BroadcastChange | hooks/use-realtime-sync.ts:55-59 | a broadcast goes through the manager and is sent only when it has a channel |
| CollaborationBar.AgeBuckets | components/collaboration/collaboration-bar.tsx:20-33 | a missing or zero timestamp is "Never"; otherwise under 10 s is "Just now", under 60 s whole seconds, under an hour whole minutes (1-59), else whole hours (at least 1) |
| CollaborationBar.NestedFloor | components/collaboration/collaboration-bar.tsx:28-31 | flooring minutes from seconds and then hours from minutes gives the same hours as flooring seconds by 3600 |
| CollaborationBar.FutureIsJustNow | components/collaboration/collaboration-bar.tsx:23-25 | a timestamp later than the clock gives negative seconds and so "Just now" |
| CollaborationBar.FormatLastSync | components/collaboration/collaboration-bar.tsx:20-33 | the label is "Never" exactly for a missing or zero timestamp, and otherwise renders the age bucket |
| PresenceAvatars.SliceEnd | components/collaboration/presence-avatars.tsx:11 | `slice(0, maxDisplay)` keeps min(maxDisplay, length) users for a non-negative limit and never more than all |
| PresenceAvatars.Initials | components/collaboration/presence-avatars.tsx:28 | the initials are the first two characters (fewer for shorter names), with ASCII letters upper-cased |
| PresenceAvatars.Avatars | components/collaboration/presence-avatars.tsx:10-43 | nothing is rendered exactly when there are no users |
| PresenceAvatars.AvatarsAccountForEveryone | components/collaboration/presence-avatars.tsx:11-40 | the shown users are the first maxDisplay, one set of initials each, a badge appears exactly when users exceed the limit, and shown plus badge count every user |
| PresenceAvatars.DefaultLimit | components/collaboration/presence-avatars.tsx:10-12 | with the default limit of 5, six users show five avatars and a "+1" badge |
| SectionTypes.FromTag | types/database.ts:303-320 | a tag read back names a section type whose tag is that text |
| SectionTypes.TagRoundTrip | types/database.ts:303-320 | every one of the seventeen section types reads back from its tag |
| SectionSidebar.TopLevelMembers | components/sections/section-sidebar.tsx:53-54 | the top-level list holds exactly the sections without a truthy parent id |
| SectionSidebar.ChildrenMembers | components/sections/section-sidebar.tsx:56-59 | a section's children are exactly the sections whose parent id is that section's id |
| SectionSidebar.TopLevelAndChildrenPartition | components/sections/section-sidebar.tsx:53-93 | the top-level sections and the sections with a parent together are a permutation of all sections |
| SectionSidebar.Toggled | components/sections/section-sidebar.tsx:61-69 | toggling flips the membership of that id and of no other |
| SectionSidebar.ToggleTwice | components/sections/section-sidebar.tsx:61-69 | toggling the same section twice restores the expanded set |
| SectionSidebar.FindIndexFrom | components/sections/section-sidebar.tsx:78-79 | the search from position k finds nothing (-1) or an index at or after k |
| SectionSidebar.FindIndexFromFacts | components/sections/section-sidebar.tsx:78-79 | -1 exactly when no section from k on has the id; otherwise the first such index |
| SectionSidebar.FindIndex | components/sections/section-sidebar.tsx:78-79 | `findIndex` returns -1 exactly when no section has the id, else the first index holding it |
| SectionSidebar.ArrayMoveFacts | components/sections/section-sidebar.tsx:85 | `arrayMove` keeps the length, puts the moved section at the target, leaves the other sections in their order, and permutes the list |
| SectionSidebar.ArrayMoveInPlace | components/sections/section-sidebar.tsx:85 | moving a section onto its own position changes nothing |
| SectionSidebar.Renumber | components/sections/section-sidebar.tsx:86-89 | renumbering keeps the length |
| SectionSidebar.MovedListFacts | components/sections/section-sidebar.tsx:85-93 | after the move every top-level section's order index is its new position, the moved section is at the target, and the child sections follow unchanged |
| SectionSidebar.DragEndFacts | components/sections/section-sidebar.tsx:71-96 | a drop reorders exactly when there is a distinct target and both ids are top-level; the reordered list is the moved, renumbered top level followed by the untouched children, with as many sections as before |
| SectionSidebar.TypeOfLabel | components/sections/section-sidebar.tsx:366-386 | a label read back names a type with that label |
| SectionSidebar.LabelRoundTrip | components/sections/section-sidebar.tsx:366-386 | every section type's label reads back to that type |
| SectionSidebar.LabelsDistinct | components/sections/section-sidebar.tsx:366-386 | labels are non-empty and distinct types get distinct labels |
| SectionSidebar.SectionTypeLabel | components/sections/section-sidebar.tsx:366-386 | a known type shows its label; any other text falls back to itself |
| SectionSidebar.SectionSidebarState.constructor | components/sections/section-sidebar.tsx:44 | nothing is expanded and nothing has been reordered |
| SectionSidebar.SectionSidebarState.ToggleExpanded | components/sections/section-sidebar.tsx:61-69 | the expanded set becomes the toggled set and no reorder is issued |
| SectionSidebar.SectionSidebarState.HandleDragEnd | components/sections/section-sidebar.tsx:71-96 | `onSectionReorder` is called once with the drag result when the drop reorders, not at all otherwise; the expanded set is untouched |
| ContentBlocks.IsTextBlock | types/content-blocks.ts:143-145 | the `type` test holds exactly for blocks whose payload is the Text variant (the narrowing TypeScript relies on) |
| ContentBlocks.IsHeadingBlock | types/content-blocks.ts:147-149 | the `type` test holds exactly for blocks whose payload is the Heading variant (the narrowing TypeScript relies on) |
| ContentBlocks.IsListBlock | types/content-blocks.ts:151-153 | the `type` test holds exactly for blocks whose payload is the List variant (the narrowing TypeScript relies on) |
| ContentBlocks.IsTableBlock | types/content-blocks.ts:155-157 | the `type` test holds exactly for blocks whose payload is the Table variant (the narrowing TypeScript relies on) |
| ContentBlocks.IsQuoteBlock | types/content-blocks.ts:159-161 | the `type` test holds exactly for blocks whose payload is the Quote variant (the narrowing TypeScript relies on) |
| ContentBlocks.IsCalloutBlock | types/content-blocks.ts:163-165 | the `type` test holds exactly for blocks whose payload is the Callout variant (the narrowing TypeScript relies on) |
| ContentBlocks.IsImageBlock | types/content-blocks.ts:167-169 | the `type` test holds exactly for blocks whose payload is the Image variant (the narrowing TypeScript relies on) |
| ContentBlocks.IsChartBlock | types/content-blocks.ts:171-173 | the `type` test holds exactly for blocks whose payload is the Chart variant (the narrowing TypeScript relies on) |
| ContentBlocks.IsCodeBlock | types/content-blocks.ts:175-177 | the `type` test holds exactly for blocks whose payload is the Code variant (the narrowing TypeScript relies on) |
| ContentBlocks.IsDividerBlock | types/content-blocks.ts:179-181 | the `type` test holds exactly for blocks whose payload is the Divider variant (the narrowing TypeScript relies on) |
| ContentBlocks.IsFootnoteRefBlock | types/content-blocks.ts:183-185 | the `type` test holds exactly for blocks whose payload is the FootnoteRef variant (the narrowing TypeScript relies on) |
| ContentBlocks.IsExhibitRefBlock | types/content-blocks.ts:187-189 | the `type` test holds exactly for blocks whose payload is the ExhibitRef variant (the narrowing TypeScript relies on) |
| ContentBlocks.CreateTextBlock | types/content-blocks.ts:192-199 | a text block with the given content, no alignment, carrying the supplied id and order and passing its own type guard |
| ContentBlocks.CreateHeadingBlock | types/content-blocks.ts:201-213 | a heading block with the given level (1-6, default 2) and text, no anchor, carrying the supplied id and order and passing its own type guard |
| ContentBlocks.CreateListBlock | types/content-blocks.ts:215-226 | a list block of the given kind with one empty item, carrying the supplied id and order and passing its own type guard |
| ContentBlocks.CreateTableBlock | types/content-blocks.ts:228-236 | a table block with headers "Column 1", "Column 2" and one row of two empty cells, carrying the supplied id and order and passing its own type guard |
| ContentBlocks.CreateQuoteBlock | types/content-blocks.ts:238-245 | a quote block with the given text and no author, source or citation, carrying the supplied id and order and passing its own type guard |
| ContentBlocks.CreateCalloutBlock | types/content-blocks.ts:247-259 | a callout block with the given variant (default info) and content, no title, carrying the supplied id and order and passing its own type guard |
| ContentBlocks.CreateImageBlock | types/content-blocks.ts:261-269 | an image block with the given url and alt text, no caption, carrying the supplied id and order and passing its own type guard |
| ContentBlocks.CreateChartBlock | types/content-blocks.ts:271-290 | a chart block of the given kind with one dataset whose data match its two labels, carrying the supplied id and order and passing its own type guard |
| ContentBlocks.CreateCodeBlock | types/content-blocks.ts:292-304 | a code block with the given language (default javascript) and code, carrying the supplied id and order and passing its own type guard |
| ContentBlocks.CreateDividerBlock | types/content-blocks.ts:306-312 | a divider block without style, carrying the supplied id and order and passing its own type guard |
| ContentBlocks.CreateFootnoteRefBlock | types/content-blocks.ts:314-326 | a footnote reference with the given footnote id and number, carrying the supplied id and order and passing its own type guard |
| ContentBlocks.CreateExhibitRefBlock | types/content-blocks.ts:328-340 | an exhibit reference with the given exhibit id and label, carrying the supplied id and order and passing its own type guard |
| BlockRenderer.Apply | components/content-blocks/content-block-renderer.tsx:25-29 | `{ ...block, ...updates }` keeps the block's id, order and type |
| BlockRenderer.Read | components/content-blocks/content-block-renderer.tsx:25-29 | the field an update writes can be read back from a block of the right type |
| BlockRenderer.ApplyOverridesOneField | components/content-blocks/content-block-renderer.tsx:25-29 | after a spread update the field reads as written, writing back the current value changes nothing, and a later update of the same field replaces the earlier one |
| BlockRenderer.HandleChange | components/content-blocks/content-block-renderer.tsx:25-29 | `onChange` receives the merged block exactly when a handler is supplied |
| BlockRenderer.EditListItem | components/content-blocks/content-block-renderer.tsx:141-145 | editing item i replaces only its text, keeps its other fields and leaves every other item alone |
| BlockRenderer.AddListItem | components/content-blocks/content-block-renderer.tsx:156 | adding an item appends one empty item after the existing ones |
| BlockRenderer.EditHeader | components/content-blocks/content-block-renderer.tsx:178-182 | editing header i replaces only that header |
| BlockRenderer.AddRow | components/content-blocks/content-block-renderer.tsx:220 | adding a row appends one row of empty cells, one per header |
| BlockRenderer.EditCell | components/content-blocks/content-block-renderer.tsx:201-205 | the shallow copy shares the row arrays: the cell is written in place in the existing row (so the old block sees it too) and no other row changes |
| BlockRenderer.CalloutClass | components/content-blocks/content-block-renderer.tsx:264-274 | a known variant gets its own class; the info class is used exactly for "info" and for unknown variants |
| BlockRenderer.DividerClass | components/content-blocks/content-block-renderer.tsx:357-366 | a missing or empty style draws solid; the solid class is used exactly for those, for "solid" and for unknown styles |
| JsonStrings.HexValue | app/api/ai/generate/route.ts:30 | a hex digit read back is below 16 |
| JsonStrings.HexRoundTrip | app/api/ai/generate/route.ts:30 | every digit written in a `\u00XX` escape reads back as itself |
| JsonStrings.EscapeChar | app/api/ai/generate/route.ts:30 | `JSON.stringify` leaves a character as itself exactly when it is not a quote, a backslash or a control character; an escape never starts with a quote |
| JsonStrings.Quote | app/api/ai/generate/route.ts:30 | a stringified string starts and ends with a double quote |
| JsonStrings.EscapedHasNoLineFeed | app/api/ai/generate/route.ts:30 | escaped text never holds a raw line feed |
| JsonStrings.QuoteHasNoLineFeed | app/api/ai/generate/route.ts:30 | a stringified string never holds a raw line feed |
| JsonStrings.ReadChar | components/ai/ai-panel.tsx:92 | reading one (possibly escaped) character of a JSON string advances within the text |
| JsonStrings.ReadEscapedChar | components/ai/ai-panel.tsx:92 | the parser reads every escape the writer produces back to its character, consuming exactly the escape |
| JsonStrings.EscapesRead | components/ai/ai-panel.tsx:92 | an escaped string read character by character gives back the original characters and ends right after the escapes |
| JsonStrings.ReadEscapedBody | components/ai/ai-panel.tsx:92 | reading the escaped characters up to the closing quote yields the whole original string |
| JsonStrings.ReadQuoted | app/api/ai/generate/route.ts:30 | `JSON.parse` after `JSON.stringify` is the identity on strings, wherever the quoted string sits in the text |
| ApiCommon.BodyFields | app/api/sections/route.ts:62-63 | destructuring a request body fails exactly for `null`; an object gives its fields and any other value gives no fields |
| SectionsRoute.Get | app/api/sections/route.ts:4-51 | every answer is 200, 400, 401, 403, 404 or 500 |
| SectionsRoute.GetStatuses | app/api/sections/route.ts:4-51 | 401 exactly without a user; 400 exactly without a truthy `reportId`; 404 exactly for an unknown report; 403 exactly for another user's unpublished report; 200 with the listed sections exactly when the reader may see the report and the listing succeeds |
| SectionsRoute.MaxFrom | app/api/sections/route.ts:90-96 | the scan returns the largest order index of the report's sections |
| SectionsRoute.FinalOrderIndex | app/api/sections/route.ts:87-99 | a numeric `orderIndex` is kept; otherwise the new section goes after the last one (one more than the largest index present) or at 0 in an empty report |
| SectionsRoute.Post | app/api/sections/route.ts:53-124 | a request that reaches the insert is answered 201 or 500, never with an earlier check's status |
| SectionsRoute.PostStatuses | app/api/sections/route.ts:53-124 | 401 exactly without a user; 500 and no insert for a missing or null body; 400 exactly without truthy `reportId` and `type`; 404 exactly for an unknown report; 403 exactly when the report is not the user's own; an insert exactly when both fields are given and the report exists and is the user's own; 201 exactly when that insert succeeds |
| SectionsRoute.PostInsertsNewSection | app/api/sections/route.ts:101-113 | an insert happens only for the report's author and writes that report's id, the parent id when truthy or null otherwise, the final order index and no content blocks |
| SectionsRoute.PostIgnoresPublication | app/api/sections/route.ts:83-85 | publication does not open POST to other users: the answer is the same for a published report |
| SectionsRoute.BuildUpdates | app/api/sections/route.ts:159-165 | the sequence of `if (x !== undefined) updates.col = x` statements builds the patch of the supplied fields |
| SectionsRoute.PatchIsSuppliedColumns | app/api/sections/route.ts:159-165 | a column is in the patch exactly when its body field is supplied, with that field's value |
| SectionsRoute.PatchWritesOnlySupplied | app/api/sections/route.ts:159-171 | applying the patch sets the supplied columns, keeps every other column, and never touches id, report_id, order_index or parent_id |
| SectionsRoute.Put | app/api/sections/route.ts:126-183 | a request that reaches the update is answered 200 or 500 |
| SectionsRoute.PutStatuses | app/api/sections/route.ts:126-183 | 401 exactly without a user; 500 with no update for a missing or null body; 400 exactly without a truthy `id`; 404 exactly for an unknown section; 403 exactly unless the user wrote the section's report; an update exactly for that author, writing the patch of the supplied fields to that section; 200 exactly when that update succeeds, 500 when it fails |
| SectionsRoute.Delete | app/api/sections/route.ts:185-232 | a request that reaches the delete is answered 200 or 500 |
| SectionsRoute.DeleteStatuses | app/api/sections/route.ts:185-232 | 401, 400, 404 and 403 exactly as for PUT; the section is deleted exactly when every check passes, and it is the requested one; 200 exactly when it is deleted without error |
| ReorderRoute.UpdatesFor | app/api/sections/reorder/route.ts:40-46 | the `map` issues one update per entry in order, each for that entry's `id` and `orderIndex` within the report, and throws (no updates) exactly when an entry is `null` |
| ReorderRoute.ErrorsUpTo | app/api/sections/reorder/route.ts:50-57 | the collected errors are empty exactly when no update failed, and never more than the updates |
| ReorderRoute.ReorderStatuses | app/api/sections/reorder/route.ts:4-63 | 401 exactly without a user; 400 exactly without a truthy `reportId` and an array of orders; 404 for an unknown report; 403 for another author |
| ReorderRoute.ReorderUpdatesEachEntry | app/api/sections/reorder/route.ts:40-48 | only the report's author issues updates: one per entry, in order, each restricted to the report and carrying that entry's id and order index |
| ReorderRoute.ReorderAllOrNothingReport | app/api/sections/reorder/route.ts:48-60 | 200 exactly when no update failed; otherwise 500 listing every failed update's error; the updates issued do not depend on which fail |
| AiProviders.StandardWordingSolid | lib/ai/providers.ts:53-59 | the two closing requests the application uses are non-empty and neither begins nor ends with white space, so the final `trim` leaves them intact |
| AiProviders.SectionPromptsCoverTypes | types/ai.ts:134-152 | every one of the seventeen section types has its own non-empty guidance entry |
| AiProviders.BuildPrompt | lib/ai/providers.ts:16-62 | the step-by-step string building yields the specified prompt: the system text around the guidance and the trimmed user text |
| AiProviders.GuidanceChoice | lib/ai/providers.ts:17 | the guidance is the type's own entry when it is present and non-empty, else the `custom` entry, and the system prompt contains it |
| AiProviders.RequestPrecedence | lib/ai/providers.ts:53-61 | the user prompt ends with the instruction when one is given, else with the review request when there is existing content, else with the comprehensive request |
| AiProviders.ExistingContentEnclosed | lib/ai/providers.ts:49-51 | existing content appears in the user prompt between the header and the closing `---` |
| AiProviders.ContextOpensWithTitle | lib/ai/providers.ts:34-43 | the context block opens with the report title line |
| AiProviders.ContextComesFirst | lib/ai/providers.ts:33-61 | with a report context the user prompt starts with `Report Title:` |
| AiProviders.BareRequest | lib/ai/providers.ts:33-61 | a request with nothing but a section type gives exactly the comprehensive request as user prompt |
| AiProviders.GetAPIKey | lib/ai/providers.ts:229-240 | the lookup fails exactly for a provider other than anthropic, openai and google |
| AiProviders.CreateDispatch | lib/ai/providers.ts:213-226 | a client is built exactly for the three providers, of the matching kind, holding the explicit key when truthy and the environment's otherwise |
| AiProviders.ExplicitKeyBypassesEnvironment | lib/ai/providers.ts:214 | with an explicit key the environment is never consulted |
| AiProviders.UnknownProviderErrors | lib/ai/providers.ts:213-240 | an unknown provider without a key fails in the key lookup ("No API key found"), and with a key in the switch ("Unsupported AI provider") |
| AiProviders.MissingEnvironmentGivesEmptyKey | lib/ai/providers.ts:229-236 | a known provider with no environment variable still gets a client, with the empty key |
| GenerateRoute.MergeConfig | app/api/ai/generate/route.ts:18-21 | without a config the defaults are used unchanged |
| GenerateRoute.MergeTakesSuppliedFields | app/api/ai/generate/route.ts:18-21 | each supplied field overrides the default and each absent field keeps it |
| GenerateRoute.MergeNothingSupplied | app/api/ai/generate/route.ts:18-21 | an empty config leaves the defaults unchanged |
| GenerateRoute.MergeComposes | app/api/ai/generate/route.ts:18-21 | spreading two configs one after the other is spreading their layered union once |
| GenerateRoute.MergeFullOverride | app/api/ai/generate/route.ts:18-21 | a config that supplies every field does not depend on the defaults |
| GenerateRoute.NoConfigUsesDefaults | app/api/ai/generate/route.ts:18-21 | with no config the route builds the Anthropic client with the environment's key |
| GenerateRoute.ContentPayload | app/api/ai/generate/route.ts:30 | `JSON.stringify({ content })` is a JSON object without a raw line feed, so it stays on one event line |
| GenerateRoute.Frames | app/api/ai/generate/route.ts:29-31 | one frame per chunk |
| GenerateRoute.StreamOf | app/api/ai/generate/route.ts:26-38 | the stream is closed exactly when it did not fail |
| GenerateRoute.Pump | app/api/ai/generate/route.ts:27-37 | the loop enqueues one `data:` frame per chunk in order, then the done frame and close when the source finishes; a throwing source errors the stream after the frames sent |
| GenerateRoute.StreamSource | lib/ai/providers.ts:252-261 | a provider that cannot be built makes the stream throw its error before any chunk; otherwise the provider's chunks and ending pass through |
| GenerateRoute.PostFailures | app/api/ai/generate/route.ts:8-59 | the route answers 500 with the error message exactly when the body cannot be read or, without streaming, the provider cannot be built or its generation fails |
| GenerateRoute.StreamedConstructionError | app/api/ai/generate/route.ts:24-47 | with streaming a provider construction error is not a 500: the 200 event stream opens and then errors with that message |
| AiPanel.ContentOfPayload | components/ai/ai-panel.tsx:92-94 | `JSON.parse` reads back the `content` of every payload the generate route writes (parse after stringify is the identity) |
| AiPanel.Effect | components/ai/ai-panel.tsx:88-100 | a line stops its read exactly when it is `data: [DONE]`, appends exactly when it is a `data: ` line whose JSON has non-empty content (that content), and is skipped otherwise |
| AiPanel.ConsumeLines | components/ai/ai-panel.tsx:87-101 | the accumulated text only grows: what was accumulated before stays a prefix |
| AiPanel.ConsumeLinesShift | components/ai/ai-panel.tsx:87-101 | consuming from position j of the second part of a list is consuming that part alone |
| AiPanel.ConsumeLinesAppend | components/ai/ai-panel.tsx:87-101 | without a done line, consuming two line lists in turn is consuming their concatenation |
| AiPanel.DoneEndsRead | components/ai/ai-panel.tsx:90 | a done line ends the line loop: the lines after it in the same read are ignored |
| AiPanel.DoneEndsOnlyItsRead | components/ai/ai-panel.tsx:80-102 | `break` leaves only the inner loop: a read starting with the done line contributes nothing and the next read is still consumed |
| AiPanel.OtherLinesIgnored | components/ai/ai-panel.tsx:88 | a line without the `data: ` prefix has no effect |
| AiPanel.EventLines | components/ai/ai-panel.tsx:85 | splitting an event (no line feed inside) followed by a blank line and more text gives the event, an empty line and the split of the rest |
| AiPanel.FrameLines | components/ai/ai-panel.tsx:85 | a server frame splits into its `data: ` line, an empty line and whatever follows |
| AiPanel.DoneFrameLines | components/ai/ai-panel.tsx:85 | the done frame splits into the done line, an empty line and whatever follows |
| AiPanel.EventLineEffect | components/ai/ai-panel.tsx:88-96 | a content event appends exactly its chunk to the accumulated text |
| AiPanel.DoneLineEffect | components/ai/ai-panel.tsx:90 | the done event ends consumption of its read, leaving the text as it was |
| AiPanel.FrameRead | components/ai/ai-panel.tsx:84-101 | a read holding one content frame appends exactly that chunk |
| AiPanel.DoneRead | components/ai/ai-panel.tsx:84-101 | a read holding the done frame leaves the text unchanged |
| AiPanel.ConcatStep | components/ai/ai-panel.tsx:94 | appending chunk i and then the rest is appending the rest from i |
| AiPanel.FramePerRead | components/ai/ai-panel.tsx:80-102 | when each read delivers one frame, the client accumulates the concatenation of the chunks |
| AiPanel.StreamRoundTrip | components/ai/ai-panel.tsx:80-102 | the client reassembles exactly the text the server streamed, one frame per read followed by the done frame |
| AiPanel.StreamTextStep | components/ai/ai-panel.tsx:84-101 | in one read holding all frames, each content frame appends its chunk and passes on to the next frame |
| AiPanel.StreamTextLines | components/ai/ai-panel.tsx:84-101 | one read holding the frames from i on, then the done frame, appends the concatenation of those chunks |
| AiPanel.StreamRoundTripOneRead | components/ai/ai-panel.tsx:80-102 | the text is also reassembled exactly when the whole stream arrives in one read |
| AiPanel.Panel.constructor | components/ai/ai-panel.tsx:30-34 | the panel starts on the default provider and model, with empty instruction and content, not generating |
| AiPanel.Panel.InitialSelectionConsistent | components/ai/ai-panel.tsx:30-31 | the default model is one of the default provider's models |
| AiPanel.Panel.HandleProviderChange | components/ai/ai-panel.tsx:39-46 | the provider is set; the model becomes that provider's first model when it has one, and otherwise stays |
| AiPanel.Panel.Request | components/ai/ai-panel.tsx:52-58 | the request carries the section data as given and the trimmed instruction, omitted exactly when the instruction is blank |
| AiPanel.Panel.Body | components/ai/ai-panel.tsx:65-69 | the posted config names only provider and model, so the route fills in the default temperature and token limit and no API key |
| AiPanel.Panel.GenerateStreaming | components/ai/ai-panel.tsx:48-124 | the content is the reassembled stream when the response is ok and empty otherwise; the alert fires exactly on a failed response or a failed read; generating ends |
| AiPanel.Panel.GenerateOnce | components/ai/ai-panel.tsx:103-123 | the content is the returned content, or empty with an alert on failure; generating ends |
| AiPanel.Panel.HandleInsert | components/ai/ai-panel.tsx:126-132 | non-empty content is handed over once and both content and instruction are cleared; empty content does nothing |
| ImportDocx.CollapseFromShape | scripts/import-docx.ts:116 | replacing each run of characters outside `[a-z0-9]` by one dash leaves only slug characters, never two dashes in a row, and starts with a dash exactly when the text does not start with a slug character |
| ImportDocx.StripAndCutShape | scripts/import-docx.ts:117-118 | stripping outer dashes and cutting to 50 keeps the slug alphabet, at most 50 characters and no leading dash |
| ImportDocx.SlugShape | scripts/import-docx.ts:113-119 | a slug uses only lower-case letters, digits and single dashes, is at most 50 characters and never starts with a dash |
| ImportDocx.SlugOfPlainTitle | scripts/import-docx.ts:113-119 | a title already made of slug characters is its own slug, cut to 50 characters |
| ImportDocx.SlugCanEndInDash | scripts/import-docx.ts:117-118 | because the cut comes after the strip, a 49-character word followed by " b" gives a slug ending in a dash |
| ImportDocx.ClassifyFromFirstMatch | scripts/import-docx.ts:76-90 | for any keyword table without a `custom` entry, the chain yields `custom` exactly when no keyword from position k occurs, and otherwise the type of the first keyword that occurs |
| ImportDocx.KeywordTypesNotCustom | scripts/import-docx.ts:79-90 | none of the twelve keywords maps to `custom` |
| ImportDocx.ClassifyFirstMatch | scripts/import-docx.ts:75-90 | a title is `custom` exactly when its lower-cased form contains none of the keywords, and otherwise gets the type of the first keyword in the chain that it contains |
| ImportDocx.KeywordPriority | scripts/import-docx.ts:79-81 | "introduction" wins over every other keyword; "background" wins when neither earlier keyword occurs |
| ImportDocx.IndexOfGt | scripts/import-docx.ts:61 | the search for the end of a tag stops at the first `>` or at the end |
| ImportDocx.StripTags | scripts/import-docx.ts:61 | removing tags never lengthens the text |
| ImportDocx.StripTagsFacts | scripts/import-docx.ts:61 | the result holds no complete `<...>` tag, adds no `>` and keeps a first character that does not open a tag |
| ImportDocx.StripTagsKeepsPlainText | scripts/import-docx.ts:61 | text without tags is left unchanged |
| ImportDocx.SplitParagraphs | scripts/import-docx.ts:67 | the split always yields at least one piece |
| ImportDocx.SplitPlainText | scripts/import-docx.ts:67 | text without `<` is one paragraph |
| ImportDocx.CleanParagraphCleaned | scripts/import-docx.ts:68 | a cleaned paragraph holds no tag and, when non-empty, starts and ends with a non-space |
| ImportDocx.CleanAll | scripts/import-docx.ts:68-69 | the filter keeps no more paragraphs than it is given and only non-empty ones |
| ImportDocx.CleanParagraphsCleaned | scripts/import-docx.ts:65-69 | every paragraph of a segment is non-empty, trimmed and free of tags |
| ImportDocx.ParseSections | scripts/import-docx.ts:54-106 | the heading loop yields one section per heading, in order, each with the content between its heading and the next (the last one up to the end) |
| ImportDocx.ParsedSectionFacts | scripts/import-docx.ts:59-106 | each parsed section has a tag-free title, the type classified from it, its heading's level and only cleaned paragraphs |
| ImportDocx.NonBlank | scripts/import-docx.ts:163 | the `paragraph.trim()` filter keeps no more paragraphs than given |
| ImportDocx.NonBlankKeepsCleaned | scripts/import-docx.ts:163 | on the parser's cleaned paragraphs the filter keeps every paragraph |
| ImportDocx.ImportedBlocks | scripts/import-docx.ts:156-166 | the blocks are the heading at order 0 with the section's level and title, then one block per paragraph |
| ImportDocx.ImportedBlocksAt | scripts/import-docx.ts:162-165 | block k is a text block with paragraph k and order k, its position in the list |
| ImportDocx.BuildContentBlocks | scripts/import-docx.ts:156-166 | the block-building loop gives the heading followed by a text block for each non-blank paragraph, numbered by position |
| ImportDocx.NewReport | scripts/import-docx.ts:128-139 | the report row has the title, its slug, the given user or the system user when none is given, and `meta` marking it as imported from `docx` at the given date |
| ImportDocx.ImportToSupabase | scripts/import-docx.ts:121-187 | the report row is built first; a failed report insert stops the import; otherwise one section row per parsed section, in order, with order index i and its content blocks |
| ApplyMigration.TrimAll | scripts/apply-migration.ts:20 | trimming keeps one piece per piece |
| ApplyMigration.TrimKeepsNoSeparator | scripts/apply-migration.ts:19-20 | a trimmed piece of the split still holds no semicolon |
| ApplyMigration.StatementsFacts | scripts/apply-migration.ts:18-21 | the statements are exactly the trimmed pieces between semicolons that are non-empty and do not start with `--`; each has no semicolon and no surrounding white space |
| ApplyMigration.CommentHeadedPieceDropped | scripts/apply-migration.ts:21 | a piece that opens with a `--` comment line is dropped whole, including any statement after the comment |
| ApplyMigration.Excerpt | scripts/apply-migration.ts:30 | the logged excerpt is a prefix of the statement of at most 100 characters |
| ApplyMigration.Report | scripts/apply-migration.ts:28-36 | a statement is logged as executed exactly when its call succeeded, and is numbered from 1 |
| ApplyMigration.SentUpTo | scripts/apply-migration.ts:23-27 | no more calls than statements considered |
| ApplyMigration.LogUpTo | scripts/apply-migration.ts:23-37 | no more log lines than statements considered |
| ApplyMigration.ApplyStatements | scripts/apply-migration.ts:23-38 | the loop sends and logs exactly what the specification functions describe, whatever the calls return |
| ApplyMigration.AttemptsUpTo | scripts/apply-migration.ts:23-38 | with non-empty statements, statement k is sent with its semicolon restored and logged with its own outcome, for every k before n |
| ApplyMigration.EveryStatementAttempted | scripts/apply-migration.ts:18-38 | a failing statement does not stop the run: every statement of the file is sent, in order, and gets its own log line |
| Common.TrimEnds | scripts/apply-migration.ts:20 | a trimmed string is empty or neither starts nor ends with ECMAScript white space |
| Common.TrimIsSlice | scripts/apply-migration.ts:20 | `trim` removes exactly the leading and trailing white space and keeps the inner text in place |
| Common.TrimEmptyIffAllSpace | components/ai/ai-panel.tsx:57 | trimming gives the empty string exactly when the text is all white space |
| Common.SplitJoinRoundTrip | scripts/apply-migration.ts:19 | `split` on one character loses nothing: joining the pieces gives the text back, and no piece holds the separator |
| Common.JoinSplitRoundTrip | components/ai/ai-panel.tsx:85 | splitting pieces joined by a separator they do not contain gives the pieces back |
| Common.Lower | scripts/import-docx.ts:77 | ASCII lower-casing: A-Z become a-z, every other character is kept, so the length is kept |
| Common.Upper | components/collaboration/presence-avatars.tsx:28 | ASCII upper-casing: a-z become A-Z, every other character is kept, so the length is kept |
| Common.DecimalRoundTrip | components/collaboration/collaboration-bar.tsx:26-32 | the printed count reads back as the number |
| Common.FilterMembers | lib/realtime/presence.ts:113-119 | a filtered list holds exactly the elements of the list that pass the test |
| Common.FilterAppend | lib/realtime/presence.ts:113-119 | filtering a concatenation is concatenating the filtered parts |

## Left out

- Network, database and SDK calls are not modelled as code. Supabase channels, `track`, `send`, queries and inserts, `fetch`, and the Anthropic, OpenAI and Gemini clients appear as recorded calls or as parameters that hold their answers.
- Clocks (`Date.now`, `new Date().toISOString()`), `crypto.randomUUID` and `process.env` are parameters.
- Optional arguments with defaults (the `create*Block` factories, the avatars' `maxDisplay`) are explicit parameters. The default values are the named constants `ContentBlocks.Default*` and `PresenceAvatars.DefaultMaxDisplay`.
- React scheduling is not modelled. State setters take effect at once, and an effect runs when the model's method is called. Rendering and markup are left out apart from the class names the style fallbacks choose.
- Concurrency (`Promise.all`, overlapping `await`s) is not modelled. The reorder route's concurrent updates are a list, and their results are a map from position to error.
- `console` logging is left out, except for the migration runner's per-statement log, which is its only output.
- Floating point is not modelled. JSON numbers in request bodies are integers, and the temperature is an exact real.
- The hash in `getUserColor` uses exact JavaScript semantics while `hash` stays below 2^53 in magnitude. That holds for ids shorter than about four million code units.
- Presence state is an ordered list of keyed entries. That order is the order `Object.values` gives. How the presence service overwrites a user's record on a later `track` is outside the code and is not modelled.
- Sync.MergeBlocks: compares blocks by structural equality where the source compares `JSON.stringify` output. The two agree on blocks whose fields are written in one fixed order.
- AiPanel.Effect: the reader accepts only the `{"content":"..."}` shape the route emits and treats any other `data:` payload as unparseable, so `JSON.parse` of other valid JSON is not modelled. `JsonStrings` writes strings exactly as `JSON.stringify` does.
- AiPanel.Panel.GenerateStreaming: each read is already text, so the decoder's handling of UTF-8 sequences split across reads is not modelled. A failed read is a flag that keeps the content received so far and raises the alert.
- Common.Upper: maps only ASCII a-z. JavaScript's `toUpperCase` applies full Unicode case mapping, which also changes other letters ('é' becomes 'É') and can lengthen the text ('ß' becomes 'SS').
- Common.Lower: maps only ASCII A-Z. `toLowerCase` also lowers other letters, can lengthen the text ('İ' becomes 'i' and a combining dot) and maps the Kelvin sign to 'k'. In a slug the source therefore keeps a 'k' for a Kelvin sign where the model drops the character.
- ApplyMigration.Excerpt: cuts 100 characters where `substring(0, 100)` cuts 100 UTF-16 code units. A statement with characters outside the Basic Multilingual Plane (emoji, say) in its first 100 code units gets a longer excerpt here than in the source, and the source can end its excerpt on half a surrogate pair, which a Dafny `char` cannot hold.
- PresenceAvatars.Initials: takes two characters where `substring(0, 2)` takes two UTF-16 code units, so a name that opens with a character outside the Basic Multilingual Plane ('😀a') gets that character and the next one instead of that character alone. It upper-cases only ASCII letters (see Common.Upper), so 'élise' gives 'éL' where the source gives 'ÉL'.
- AiPanel.Panel.GenerateOnce: takes `data.content` to be a string.
- The "Streaming not supported" error in `generateContentStream` is left out. All three providers implement streaming, so it cannot occur.
- GenerateRoute.MergeConfig: a config field sent explicitly as `null` is treated as absent.
- Object-literal lookups ignore `Object.prototype` keys such as `constructor`, which the source's `obj[key]` would find (a truthy function): the Guidance lookup (`SECTION_PROMPTS[...]`), `BlockRenderer.CalloutClass` (`variants[block.variant]`), `BlockRenderer.DividerClass` (`styles[block.style || 'solid']`) and `SectionSidebar.SectionTypeLabel` (`labels[type]`). For such a key the model falls back to the default where the source returns the inherited function.
- AiProviders.RequestPrecedence: covers instructions that do not end in white space. The final `trim` shortens an instruction that does, so the prompt then ends with the instruction trimmed.
- The DOCX importer's reading of the file, its mammoth conversion and its report title are left out: `import-docx.ts:37-51` depends on a library. Heading matches of `/<h([1-6])[^>]*>(.*?)<\/h\1>/gi` are an input to `ImportDocx.ParseSections`, required to be in order and not overlapping. The paragraph separator `/<\/p>|<br\s*\/?>/` and the tag pattern `/<[^>]+>/` are written out.
- The importer's per-section insert errors are only logged and do not change the rows sent, so they are not modelled. `getUserId` and the command-line entry point are left out.
- In the section routes, every query error on the report or section lookup is folded into "not found" (404), as the code's test on the error or the missing row does. The `try`/`catch` to 500 is modelled for a body that cannot be read and for a `null` body, whose destructuring throws. Other exceptions are not modelled.
- ReorderRoute.ErrorsUpTo: lists the failed updates' error messages, not the whole result objects the route serialises.
- SectionsRoute.Post: keeps an absent `title` as absent, where the database stores it as null.
- The AI panel's model selector lists the models of `AI_PROVIDERS` (`types/ai.ts:56-123`), which is modelled only as each provider's model ids.
