# BrandyManager: what plays where, and when

BrandyManager decides which music plays in each physical zone. A Django backend edits weekly
schedules, publishes playlists, channels and schedules as versions, and freezes them into one
snapshot per zone. A Go service turns a snapshot and a clock into the current track, an offset
and a page of upcoming tracks. This project models that chain in Dafny, with the smaller state
machines around it (devices, permissions, seats, codes, the unit hierarchy), and proves what
their operations keep.

| file | subject |
|---|---|
| `Schedules.dfy` | blocks and exceptions under edits, the published payload, the database resolver and the player's resolver |
| `Assignments.dfy` | which schedule governs a zone |
| `Playback.dfy` | channel and schedule publication, zone snapshots, manifests, the device runtime |
| `Queue.dfy` | the assets frozen into a snapshot and the queue built from them |
| `PlaybackClock.dfy` | which item of the queue is on air |
| `Playing.dfy` | frozen assets, schedule decision and queue together: what the player resolves is what the schedule says |
| `Governing.dfy` | assignments and zones together: the runtime carries the version of the schedule in charge |
| `Delivery.dfy` | the whole chain: what a device is given after any joint run, against what the schedule in charge asks for |
| `Player.dfy` | pages, continuation tokens, the player's runtime cache |
| `Playlists.dfy` | item positions under uniqueness, versioned publication |
| `Telemetry.dfy`, `Commands.dfy` | the device protocol |
| `Authorization.dfy` | effective permissions and the bulk zone index |
| `Codes.dfy`, `OrgUnits.dfy`, `Seats.dfy`, `DeviceAuth.dfy` | code search, unit hierarchy, seats, the authenticator's cache |
| `Sorting.dfy`, `Text.dfy`, `Sets.dfy`, `Wrappers.dfy` | stable sorts, splitting and printing, set sizes, Option and Result |

`dafny verify dfyconfig.toml` checks everything.

## How it is modelled

A database transaction is one serial step: `Apply` commits a new state or reports the error the
service raises, and `Run` folds any list of steps over an initial state. Claims over runs are
proved by induction from an invariant that every step keeps. Services that update rows in place
are classes; each of their methods is proved against the step function, and the theorems are
about that function. What each operation accepts and does is stated a second time in plain terms,
with the comparisons written out, so that the step functions do not vouch for themselves. Loops of
the source are loops here.

Values from outside are inputs: the clock, local dates, weekdays and seconds, the identifier of
each new row, the element Go's map iteration yields first, the upstream's answers. Identifiers
are numbers (the source compares the printed UUIDs; any total order does). Digests are taken to
be collision-free; `SwappedBodyRejected` is the only statement about the token's HMAC that needs
this, and says so in its precondition.

## Where the code differs from what one would expect

The model follows the code. Each of these is a lemma.

- The player cuts times to whole seconds and passes over exceptions that only override the
  volume; the database does neither. At every instant, on every schedule that edits reach, the player does what
  the database would select from the schedule read that way (`Schedules.PlayerFollowsContent`),
  so the two settle on the same entry if and only if the database's selection is also first
  there (`Schedules.ResolversAgree`). On whole-second schedules that is so if and only if no
  volume override comes first (`Schedules.WholeSecondsAgreeIff`); for a single window, at every
  instant of the day if and only if both bounds are whole seconds
  (`Schedules.WindowsAgreeIffWhole`). `Schedules.ResolversDiverge` is a schedule where they differ.
- A playlist snapshot that both the channel and the schedule bring is frozen once, with the
  channel's playback window, and that window applies to the schedule's entry too. All items that
  the manifest lists are queued if and only if the window is open or unset, or there are none;
  while it is closed the queue is empty (`Playing.AllListedIffOpen`, with a schedule emptied in
  that way in `Playing.ClosedRelationEmptiesSchedule`).
- A schedule in charge is not enough for music. Without an open channel the runtime carries a
  reason and the device is given nothing, although the zone snapshot holds the schedule's assets
  and the manifest can be READY. A device is given the items that the schedule in charge asks for
  if and only if its zone has an open channel or the schedule asks for none
  (`Delivery.GivenIffChannelOpen`); `Delivery.NoChannelNoMusic` is a run that leaves a device
  silent in that way.
- Reordering parks items above position 100000. Up to 100000 items this never clashes; beyond
  that it works if and only if every parking place is free when it is needed
  (`Playlists.Playlist.Reorder`, `Playlists.FirstPlaylistThatClashes`).
- A telemetry field that the greatest events do not carry can end differently under different
  delivery orders. Over any delivery, with late and repeated events and shared sequence numbers,
  it is order-free if and only if all news of the greatest sequence bring the same value, or no
  news brings a value other than the present one (`Telemetry.FieldIsOrderFreeIff`).
- The search for a free code tries one candidate per code in use and one more, unless the base
  is a variant of itself: another one is needed if and only if the base is in use and the codes in
  use are exactly the first variants (`Codes.CandidatesExceedIff`). A playlist code is its own variant if and only if it
  has all 120 characters and ends in a number's tail, a site code if and only if such a tail is
  all that follows its first 44 characters (`Codes.OwnVariantIff`, `Codes.OwnResourceVariantIff`).
- Only commands of a family supersede each other. A device has at most one waiting command of a
  kind over all runs if and only if the kind has a family, which RESTART_PLAYBACK and FORCE_SYNC
  do not (`Commands.OnePendingIff`).
- Suspending or reactivating overwrites a revoked membership without looking at the seat limit.
  An operation keeps the limit if and only if it does not do that in a full company
  (`Seats.OperationKeepsLimitIff`), and every run keeps it if and only if no membership is revoked
  at the start (`Seats.LimitHoldsIff`). No service writes the revoked status of a membership, so
  it takes an edit from outside them, such as an administrator's, to get there.
- The authenticator makes room before it inserts, and only above 2048 entries. An insert leaves
  2049 if and only if it adds a new key to exactly 2048 remaining entries, or adds nothing to a
  cache that had 2049 already (`DeviceAuth.OverflowsIff`); a run that gets there exists
  (`DeviceAuth.BoundIsReached`).
- The bulk zone index looks at the scopes on which a member has grants, the per-item check at the
  zone's own scope. Under overrides they agree if and only if `Authorization.AgreeOn` holds: an
  Allow on the zone needs a grant on the zone or a permission from around it, a Deny on the zone
  needs that there is none from around it, and an override on the company or the site must not
  hide or add what the zone is or is not granted (`Authorization.BulkAgreesIff`, with examples in
  both directions in `Authorization.OverridesBreakAgreement`).
- Before the epoch the clock always answers with the first item, so a cycle-long run of
  milliseconds is fair to all items if and only if it starts at or after the epoch or there is
  only one item (`PlaybackClock.FairIffAfterEpoch`).

## Model

| member | source | states |
|---|---|---|
| Schedules.ReachableInv | back_django/backend/apps/scheduling/services.py:165-198 | after any run of edits, entries of one day (or date) and priority never overlap, start before they end, and name a playlist that has a published snapshot |
| Schedules.StoreKeepsDisjoint | back_django/backend/apps/scheduling/selectors.py:182-195 | an empty conflict list is enough for the whole table to stay free of overlaps |
| Schedules.OverlapIffSharedInstant | back_django/backend/apps/scheduling/selectors.py:161-162 | the overlap check reports precisely the slots that share an instant |
| Schedules.NeverTwoAtOnce | back_django/backend/apps/scheduling/services.py:165-198 | after any run, no instant of a day is held twice at one priority |
| Schedules.CreateAcceptedIff | back_django/backend/apps/scheduling/services.py:247-326 | exactly when a new entry is taken, in terms of revision, the entry itself, published playlists and shared instants |
| Schedules.CreateStoresRow | back_django/backend/apps/scheduling/services.py:247-326 | the stored row is the one asked for |
| Schedules.UpdateAcceptedIff | back_django/backend/apps/scheduling/services.py:270-349 | exactly when an update is taken, and the row it leaves: what is not mentioned stays, a new kind drops the playlist, silence has none |
| Schedules.DeleteAcceptedIff | back_django/backend/apps/scheduling/services.py:295-357 | a deletion needs the row and the revision |
| Schedules.EditTouchesOneRow | back_django/backend/apps/scheduling/services.py:42-50 | every other row, the other table and the dates stay, and the revision moves by one |
| Schedules.NoLostUpdate | back_django/backend/apps/scheduling/services.py:37-50 | in any run, of two edits made from the same revision only the first to arrive takes effect |
| Schedules.DjangoPickUnique | back_django/backend/apps/scheduling/selectors.py:225-251 | the creation time that breaks ties in the two queries never decides: at any instant only one row can come first |
| Schedules.DjangoPickExists | back_django/backend/apps/scheduling/selectors.py:225-251 | the query order always yields a selection, an exception before any block |
| Schedules.SchedulePayload | back_django/backend/apps/scheduling/services.py:66-137 | the payload lists every block and exception once, with its printed times and the newest snapshot of its playlist, and nothing else |
| Schedules.ScanExceptions | back_go/internal/player/service.go:198-208 | the exception loop stops at the first matching entry that is not a volume override |
| Schedules.ScanBlocks | back_go/internal/player/service.go:213-227 | the block loop stops at the first matching block |
| Schedules.ResolveSchedule | back_go/internal/player/service.go:188-228 | dates, then exceptions, then blocks when no exception names content, over lists sorted by priority and smallest id |
| Schedules.ParseIsoTime | back_go/internal/player/service.go:343-360 | parsing a printed time gives its whole seconds: the fraction is dropped and nothing else is lost |
| Schedules.WindowsAgreeIffWhole | back_go/internal/player/service.go:343-360 | the player's window test equals the database's at every microsecond of the day if and only if both bounds are whole seconds |
| Schedules.DeciderIsFirst | back_go/internal/player/service.go:323-342 | what the player's sorted scan stops at is the row that the database order puts first among those it sees, although they break ties differently |
| Schedules.NothingToDecide | back_go/internal/player/service.go:198-230 | when no row it sees covers the instant, the scan finds nothing |
| Schedules.PlayerFollowsContent | back_go/internal/player/service.go:188-228 | at every instant, on every schedule that edits can reach, the player's decision on the published payload is what the database would select without volume overrides and with bounds cut to whole seconds |
| Schedules.MatchesIffSeen | back_go/internal/player/service.go:343-360 | the player's window test is the database's test on bounds cut to whole seconds |
| Schedules.ResolversAgree | back_django/backend/apps/scheduling/selectors.py:225-251 | the two settle on the same entry if and only if the database's selection is also first in the schedule as the player reads it, and then draw the same decision |
| Schedules.WholeSecondsAgreeIff | back_django/backend/apps/scheduling/selectors.py:225-251 | on whole-second schedules they settle on the same entry if and only if no volume override comes first |
| Schedules.VolumeWinsIffPicked | back_django/backend/apps/scheduling/selectors.py:230-241 | a volume override comes first among the exceptions of the instant if and only if the database selects it |
| Schedules.DivergingIsReached | back_django/backend/apps/scheduling/services.py:247-326 | three edits lead to a block and a volume override at the same time |
| Schedules.ResolversDiverge | back_go/internal/player/service.go:199-207 | there the database answers with the override and the player plays the block |
| Schedules.PayloadIsWellKinded | back_django/backend/apps/scheduling/services.py:66-137 | a published payload lists blocks as blocks and exceptions as exceptions |
| Schedules.ReachableResolversAgree | back_go/internal/player/service.go:188-228 | all this after any run of edits, at every date and instant, the database's selection being unique |
| Schedules.SelectionIs | back_django/backend/apps/scheduling/selectors.py:225-251 | what the database selects: from the first to the last valid day, the holding exception of highest priority, else the holding block of that weekday of highest priority, else nothing |
| Schedules.PlayerDecidesRight | back_go/internal/player/service.go:188-228 | after any edits, at any instant: nothing before the first and after the last valid day and when nothing holds the second; else what the holding exception, or without one the holding block, of highest priority says, volume overrides apart |
| Schedules.RightIsUnique | back_go/internal/player/service.go:188-228 | that leaves one decision |
| Schedules.Schedule.SaveEntry | back_django/backend/apps/scheduling/services.py:165-198 | save, look for conflicts, roll back when there are any |
| Schedules.Schedule.CreateEntry | back_django/backend/apps/scheduling/services.py:247-326 | creation in place is the creation step, its error being the step's error |
| Schedules.Schedule.UpdateEntry | back_django/backend/apps/scheduling/services.py:270-349 | field-by-field update in place is the update step |
| Schedules.Schedule.DeleteEntry | back_django/backend/apps/scheduling/services.py:295-357 | deletion in place is the deletion step |
| Schedules.Schedule.CheckPublishable | back_django/backend/apps/scheduling/services.py:416-432 | a schedule is ready when it has blocks and every playlist block names a published playlist; the check for overlapping blocks never fires |
| Schedules.NoBlockConflicts | back_django/backend/apps/scheduling/services.py:431-432 | publication finds no overlapping blocks |
| Assignments.MeetsIffSharedInstant | back_django/backend/apps/scheduling/selectors.py:165-179 | the conflict filters with their open ends report precisely the windows that share an instant |
| Assignments.ReachableInv | back_django/backend/apps/scheduling/services.py:360-409 | after any run of edits, active assignments with the same scope and priority are disjoint in time |
| Assignments.PublishNeverConflicts | back_django/backend/apps/scheduling/services.py:433-434 | the clash check of publication never fires, after any run of edits |
| Assignments.CollectCandidates | back_django/backend/apps/scheduling/selectors.py:198-214 | the loop keeps the rows that apply at the instant and on the schedule's local date, in order |
| Assignments.OrderedAssignments | back_django/backend/apps/scheduling/selectors.py:198-222 | the candidates, stably sorted by lock, priority, specificity and creation time |
| Assignments.Resolve | back_django/backend/apps/scheduling/selectors.py:225-251 | the first ordered assignment with content, else the first of all with none, else nothing |
| Assignments.CandidatesSeparated | back_django/backend/apps/organizations/models.py:381-384 | two candidates for one zone and instant differ in priority or scope type, as each target has one scope row |
| Assignments.CreatedAtNeverDecides | back_django/backend/apps/scheduling/selectors.py:214-222 | sorting without the creation time gives the same order |
| Assignments.ResolutionIsGreatest | back_django/backend/apps/scheduling/selectors.py:225-251 | after any run, the answer is the strictly greatest candidate that has content, or the strictly greatest of all with no content, or nothing |
| Assignments.ResolutionIsDeterministic | back_django/backend/apps/scheduling/selectors.py:198-251 | the answer does not depend on the order in which rows are read |
| Assignments.ResolutionGoverns | back_django/backend/apps/scheduling/selectors.py:198-251 | after any run, the answer is the applicable assignment with content that wins over every other such: by lock, then greater priority, then zone before site before company; without any with content, the winner of all, and nothing when none applies |
| Assignments.AnswerGoverns | back_django/backend/apps/scheduling/selectors.py:198-251 | the same from any state that edits keep |
| Assignments.AssignAcceptedIff | back_django/backend/apps/scheduling/services.py:360-384 | exactly when an assignment is taken, in terms of shared instants |
| Assignments.UpdateAcceptedIff | back_django/backend/apps/scheduling/services.py:387-399 | exactly when an update is taken |
| Assignments.ScheduleEditAcceptedIff | back_django/backend/apps/scheduling/services.py:412-490 | publishing, withdrawing and reactivating need the revision, publishing ready content too |
| Assignments.EditEffect | back_django/backend/apps/scheduling/services.py:360-490 | what each accepted edit changes, and that nothing else does |
| Assignments.WithdrawnGovernsNothing | back_django/backend/apps/scheduling/services.py:467-490 | an archived or disabled schedule is no candidate anywhere, and reactivating it brings no assignment back |
| Assignments.AssignmentTable.CreateAssignment | back_django/backend/apps/scheduling/services.py:360-384 | creation in place is the step, rolled back on conflict |
| Assignments.AssignmentTable.UpdateAssignment | back_django/backend/apps/scheduling/services.py:387-399 | update in place is the step; conflicts matter only for an active row |
| Assignments.AssignmentTable.DeactivateAssignment | back_django/backend/apps/scheduling/services.py:402-409 | deactivation in place is the step |
| Assignments.AssignmentTable.PublishSchedule | back_django/backend/apps/scheduling/services.py:412-438 | revision, then content (given as ready or not), then the loop over active assignments, then the new status |
| Assignments.AssignmentTable.WithdrawSchedule | back_django/backend/apps/scheduling/services.py:467-490 | archiving or disabling deactivates every assignment of the schedule and no other |
| Playback.RefreshKeepsZone | back_django/backend/apps/playback/services.py:228-271 | a new zone snapshot takes the next version, retires the others and names the newest channel version |
| Playback.NewVersionKeepsInv | back_django/backend/apps/playlists/services.py:371-400 | a new channel version leaves no zone behind: those that play it are refreshed, the others are unaffected |
| Playback.ReachableInv | back_django/backend/apps/playback/services.py:228-332 | after any timed run of publications, assignments and runtime requests, versions are consecutive, one snapshot and at most one manifest per zone is READY, and snapshots match their channel |
| Playback.ZoneViewsAreCoherent | back_django/backend/apps/playlists/services.py:350-471 | a zone with an open assignment has exactly one READY snapshot, of its highest version, naming the channel and the channel's newest published version |
| Playback.OneReadyManifest | back_django/backend/apps/playback/services.py:93-111 | a zone never has two READY manifests |
| Playback.RolledOverIsCurrent | back_django/backend/apps/playback/services.py:280-309 | after the rollover check the READY snapshot follows the effective schedule |
| Playback.ReadyManifestStreams | back_django/backend/apps/catalog/selectors.py:149-165 | an unexpired READY manifest is the one the streaming lookup selects |
| Playback.FetchIsFresh | back_django/backend/apps/playback/services.py:274-332 | the runtime's snapshot carries the newest version of the effective schedule and of the channel, with an unexpired manifest of that snapshot, which streaming honours when it is READY |
| Playback.SchedulePublicationReachesZones | back_django/backend/apps/scheduling/services.py:435-464 | the new version reaches every unarchived zone the schedule governs, and no other zone changes |
| Playback.ManifestMadeIff | back_django/backend/apps/playback/services.py:318-332 | a manifest is made if and only if one is forced or none is usable; it is READY if and only if there are assets |
| Playback.RuntimeIsFresh | back_django/backend/apps/playback/services.py:274-358 | the same after any run; nothing is returned only when nothing was ever published for the zone |
| Playback.StreamingIsNewest | back_django/backend/apps/catalog/selectors.py:149-165 | the streaming lookup selects the newest READY manifest valid at the instant |
| Playback.FetchFailsIff | back_django/backend/apps/playback/services.py:48-51 | a request fails exactly when a manifest must be made that would expire at once |
| Playback.AssignOpensChannel | back_django/backend/apps/playlists/services.py:425-455 | exactly when an assignment is accepted; then that channel is open, the only READY snapshot names it and its newest version, and every other zone is untouched |
| Playback.UnassignClosesChannel | back_django/backend/apps/playlists/services.py:458-471 | afterwards no channel is open, the only READY snapshot names none, and every other zone is untouched |
| Playback.ChannelPublishedIff | back_django/backend/apps/playlists/services.py:350-363 | exactly when a channel publication is accepted |
| Playback.ChannelPublicationEffect | back_django/backend/apps/playlists/services.py:350-400 | the channel's status, versions and revision afterwards, the zones that then show the new version, and what stays |
| Playback.SchedulePublishedIff | back_django/backend/apps/scheduling/services.py:412-452 | exactly when, and the version afterwards |
| Playback.ChannelRetiredIff | back_django/backend/apps/playlists/services.py:403-421 | archiving needs the revision and no zone that plays the channel, reactivating the revision; versions stay |
| Playback.Store.CreateZoneSnapshot | back_django/backend/apps/playback/services.py:228-271 | the zone's row after the snapshot; no other zone changes |
| Playback.Store.RefreshZones | back_django/backend/apps/playlists/services.py:396-399 | refreshing a set of zones one by one, in any order, refreshes exactly that set |
| Playback.Store.Publish | back_django/backend/apps/playlists/services.py:350-400 | publish_channel in place is the publication step, errors included |
| Playback.Store.Assign | back_django/backend/apps/playlists/services.py:425-455 | assignment in place is the step; assigning the open channel again changes nothing |
| Playback.Store.Unassign | back_django/backend/apps/playlists/services.py:458-471 | closing the assignment refreshes the zone; without one nothing changes |
| Playback.Store.PublishScheduleVersion | back_django/backend/apps/scheduling/services.py:435-464 | past its revision and clash checks, publication refreshes exactly the unarchived zones the schedule governs, and refuses content that is not ready |
| Playback.Store.CreateManifest | back_django/backend/apps/playback/services.py:33-126 | supersedes the READY manifest and appends the next version, READY or ERROR |
| Playback.Store.RollOver | back_django/backend/apps/playback/services.py:280-309 | replaces a snapshot whose schedule is stale, and only then |
| Playback.Store.PlayerRuntime | back_django/backend/apps/playback/services.py:274-358 | the whole runtime request in place, undone when no manifest can be made |
| Governing.ReachableInv | back_django/backend/apps/scheduling/services.py:412-464 | over any run of the joint system, both sides know the same schedules and a published one has a version |
| Governing.GoverningHasVersion | back_django/backend/apps/scheduling/selectors.py:225-251 | the schedule that resolution puts in charge of a zone is published and has a newest version |
| Governing.RuntimeFollowsAssignments | back_django/backend/apps/playback/services.py:290-309 | after any joint run, a device receives the newest version of the schedule of the greatest applicable assignment, and none when nothing applies |
| Governing.AnswerAfter | back_django/backend/apps/scheduling/selectors.py:225-251 | resolution after an accepted edit names the applicable assignment that wins |
| Governing.PublicationFollowsAssignments | back_django/backend/apps/scheduling/services.py:454-464 | with resolution computed from the assignments as publication leaves them, the new version reaches exactly the unarchived zones of which they put the schedule in charge |
| Delivery.ContentIsNewest | back_django/backend/apps/playback/services.py:228-271 | after any joint run, the content behind a device's runtime is made of the newest relations of the channel open on its zone and the newest payload of the schedule in charge |
| Delivery.GivenIffChannelOpen | back_go/internal/player/service.go:122-153 | with a schedule in charge, the device is given what it asks for when a channel is open and the manifest is READY, else nothing with the reason; so its items are the schedule's if and only if a channel is open or the schedule asks for none |
| Delivery.NothingInChargeWithholds | back_django/backend/apps/playback/services.py:310-339 | with nothing in charge the device is given nothing, with the reason |
| Delivery.GivenItemsStream | back_django/backend/apps/catalog/selectors.py:149-165 | every item a device is given is listed by the manifest that the streaming lookup selects |
| Delivery.DeviceObeysScheduleInCharge | back_go/internal/player/service.go:122-153 | what the schedule in charge asks for is what its newest published state says, and the device is given it exactly as above |
| Delivery.FindsSomething | back_django/backend/apps/scheduling/selectors.py:225-251 | the resolver always finds an entry or nothing in every schedule's live rows |
| Delivery.DevicePlaysResolvedEntry | back_django/backend/apps/scheduling/selectors.py:225-251 | while the schedule in charge is as published, on whole seconds and with no volume override first, the device of a zone with a channel does what the very entry asks for that the resolver names from the live rows |
| Delivery.StoryEnds | back_django/backend/apps/scheduling/services.py:412-464 | a joint run that publishes and assigns a schedule and creates a zone without a channel |
| Delivery.NoChannelNoMusic | back_go/internal/player/service.go:141-143 | there the schedule asks for an item that the READY manifest lists, and the device is given nothing |
| Queue.PayloadBuilder.IncludePlaylistSnapshot | back_django/backend/apps/playback/services.py:134-164 | a snapshot is included at most once, with all its items in order |
| Queue.PayloadBuilder.IncludeRelations | back_django/backend/apps/playback/services.py:166-178 | the loop over the channel's playlists includes each the first time it comes up |
| Queue.PayloadBuilder.IncludeScheduled | back_django/backend/apps/playback/services.py:180-192 | the loop over the schedule's playlist snapshots adds those that are missing |
| Queue.PayloadBuilder.IncludeAll | back_django/backend/apps/playback/services.py:166-194 | the references are the channel's, then the schedule's, without repetition; the assets are all items of the referenced snapshots and nothing else |
| Queue.IncludedOnce | back_django/backend/apps/playback/services.py:134-138 | no playlist snapshot is left out, none comes twice, nothing else gets in |
| Queue.FrozenIsDistinct | back_django/backend/apps/playback/services.py:148-164 | the frozen items have distinct item ids and distinct places, which makes the queue canonical |
| Queue.IncludedPermuted | back_django/backend/apps/playback/services.py:180-192 | the order in which the schedule's snapshots are read does not change what is included |
| Queue.FirstReferenceStays | back_django/backend/apps/playback/services.py:134-149 | a playlist snapshot keeps the reference it was first included with, the channel's before the schedule's |
| Queue.Collect | back_go/internal/player/service.go:260-278 | the filter loop keeps the eligible assets in order, each with its combined weight |
| Queue.ResolveAssets | back_go/internal/player/service.go:230-294 | sort, filter, shuffle when the mode says so, strip the weights |
| Queue.QueueIsPermutation | back_go/internal/player/service.go:230-294 | in every mode the queue holds exactly the eligible assets, each as often as it is listed |
| Queue.EntriesPlayable | back_go/internal/player/service.go:268-277 | every queued item has a positive duration and comes from an eligible asset |
| Queue.EntriesOfSnapshot | back_go/internal/player/service.go:260-263 | once a playlist snapshot is decided, the queue is drawn from that snapshot's items alone, all of them |
| Queue.EligibleIff | back_go/internal/player/service.go:260-270 | an asset of the decided snapshot is eligible if and only if the manifest lists it with a positive duration and the channel's window for the snapshot is open or unset |
| Queue.ListedWhileOpen | back_go/internal/player/service.go:260-278 | all listed items are queued while the window is open, none while it is closed |
| Queue.OpenIff | back_go/internal/player/service.go:297-312 | a window is open unless the relation that brings the snapshot starts after now or ends at or before now |
| Queue.QueuedIff | back_go/internal/player/service.go:260-278 | a listed asset of the decided snapshot is queued exactly under that condition |
| Queue.ReferenceValues | back_go/internal/player/service.go:235-242 | priority and combined weight come from the snapshot's reference, 0 and 1 without one |
| Queue.QueueFeedsClock | back_go/internal/player/service.go:361-377 | every queue meets what the clock needs, up to the 64-bit length of its cycle |
| Queue.QueueIsCanonical | back_go/internal/player/service.go:243-252 | the queue does not depend on the order in which the snapshot lists its assets |
| Queue.QueueIgnoresReferenceOrder | back_go/internal/player/service.go:235-242 | nor on the order of the playlist references |
| Queue.ShuffleOrder | back_go/internal/player/service.go:279-289 | shuffled queues are ordered by score, and by item id where scores tie |
| Queue.ShuffledOrder | back_go/internal/player/service.go:279-289 | of two queued items the first has the smaller score, or the same and no greater item id |
| Queue.SequentialOrder | back_go/internal/player/service.go:243-252 | in sequential mode playlists play by falling priority, one after the other, each by position |
| PlaybackClock.SumDurations | back_go/internal/player/service.go:361-365 | the cycle is the sum of the durations, wrapped to 64 bits |
| PlaybackClock.Wrap64Is | back_go/internal/player/service.go:362-365 | wrapping stays within 64 bits and changes a sum by a multiple of 2^64 |
| PlaybackClock.TruncModIs | back_go/internal/player/service.go:369 | the remainder has the sign of the clock and stays below the cycle |
| PlaybackClock.Seek | back_go/internal/player/service.go:370-376 | from an offset inside the cycle the loop returns the item on air; its last fallback is unreachable |
| PlaybackClock.DeterministicPosition | back_go/internal/player/service.go:361-377 | item and offset with prefix sum plus offset equal to the clock modulo the cycle, and what comes out before the epoch and for an overflowing cycle |
| PlaybackClock.OnAirUnique | back_go/internal/player/service.go:361-377 | at most one item is on air at an offset |
| PlaybackClock.OnAirExists | back_go/internal/player/service.go:361-377 | every offset below the cycle belongs to an item |
| PlaybackClock.FairAirtime | back_go/internal/player/service.go:361-377 | in any cycle-long run of milliseconds after the epoch each item is on air for exactly its duration |
| PlaybackClock.FairIffAfterEpoch | back_go/internal/player/service.go:369-376 | a cycle-long run is fair to all items if and only if it starts at or after the epoch or there is one item |
| Playing.ResolveAssets | back_go/internal/player/service.go:179-295 | schedule decision, then queue |
| Playing.AssembleSnapshot | back_django/backend/apps/playback/services.py:128-194 | the references and assets of a zone snapshot, from the channel's relations and the schedule's payload |
| Playing.AssembledIsComplete | back_django/backend/apps/playback/services.py:180-192 | every playlist snapshot that the payload names is among the references, once |
| Playing.AssemblyOrderIsImmaterial | back_django/backend/apps/playback/services.py:180-192 | two zone snapshots of one payload that read the schedule's snapshots in different orders play alike |
| Playing.QueueOfSnapshot | back_go/internal/player/service.go:260-278 | the queue holds exactly the listed items of the decided playlist snapshot while its window is open, and nothing while it is closed |
| Playing.AllListedIffOpen | back_go/internal/player/service.go:264-266 | all listed items are queued if and only if the window is open or there are none |
| Playing.ClosedRelationEmptiesSchedule | back_django/backend/apps/playback/services.py:134-149 | a scheduled playlist with a listed item and an empty queue, because the channel's window has closed |
| Playing.PlayerResolvesWhatIsScheduled | back_go/internal/player/service.go:179-295 | edit a schedule in any way, publish it and freeze a zone with it: at any instant the player resolves no content, silence, or exactly the listed items of the newest snapshot of the playlist that the database resolver selects from the schedule as the player reads it, and none of them while the channel closes that playlist |
| Playing.CurrentItem | back_go/internal/player/service.go:154-155 | the page starts at the queue item on air at that millisecond |
| Player.SignedVerifies | back_go/internal/player/service.go:379-406 | a signed token verifies back to its payload exactly while manifest, version and expiry hold |
| Player.SwappedBodyRejected | back_go/internal/player/service.go:386-400 | a signature vouches for no other body |
| Player.AcceptedMeans | back_go/internal/player/service.go:386-404 | an accepted token is a body and its signature around one dot, and the body names this manifest and version and a time to come |
| Player.FillPage | back_go/internal/player/service.go:164-167 | the page takes consecutive assets going round, at most one round |
| Player.Build | back_go/internal/player/service.go:154-176 | the clock decides the start without a token, the token's index with one |
| Player.ResumeIs | back_go/internal/player/service.go:155-167 | a token brings a page exactly if it is accepted, starting at its index |
| Player.TokenContinues | back_go/internal/player/service.go:154-176 | handing back a token yields the next page |
| Player.WalkReaches | back_go/internal/player/service.go:154-176 | following tokens, each at its own time before expiry, never fails and arrives at the computed start |
| Player.LateTokenEndsWalk | back_go/internal/player/service.go:386-404 | a token handed back at or after expiry is stale, however many came before |
| Player.PageStartClosedForm | back_go/internal/player/service.go:172-175 | the k-th page starts at (start + k*w) mod n |
| Player.WalkedPage | back_go/internal/player/service.go:154-176 | slot j of the k-th page is assets[(start + k*w + j) mod n] |
| Player.PagesCover | back_go/internal/player/service.go:164-175 | any ceil(n/w) consecutive pages of a walk show every asset |
| Player.CachedWasPublished | back_go/internal/player/service.go:103-112 | what is cached for a device is the newest authorised runtime fetched for it |
| Player.CacheNeverOutlivesAuthorization | back_go/internal/player/service.go:113-120 | an answer from the cache is that runtime and its authorisation has not run out |
| Player.AnswerIs | back_go/internal/player/service.go:103-120 | after any calls: the upstream's answer whenever there is one; when it fails, the newest runtime stored for the device exactly while it is valid, and nothing otherwise |
| Player.Service.FetchRuntime | back_go/internal/player/service.go:103-120 | cache and answer after one call |
| Player.Service.Manifest | back_go/internal/player/service.go:92-101 | a runtime of another device is never returned |
| Playlists.ChecksumInjective | back_django/backend/apps/playlists/services.py:84-89 | the text that is hashed determines the items |
| Playlists.PublishIsVersioned | back_django/backend/apps/playlists/services.py:592-633 | the returned snapshot equals the items, versions are 1..current_version, earlier snapshots are untouched and neighbours differ |
| Playlists.PublishAcceptedIff | back_django/backend/apps/playlists/services.py:592-608 | exactly when a playlist publication is accepted |
| Playlists.PublishEffect | back_django/backend/apps/playlists/services.py:592-633 | status, versions and revision afterwards |
| Playlists.StatusSteps | back_django/backend/apps/playlists/services.py:636-655 | archiving needs the revision and an unscheduled playlist, reactivating the revision; items and versions stay |
| Playlists.PublishIsRetrySafe | back_django/backend/apps/playlists/services.py:601-611 | repeating a publish with the same arguments returns the same snapshot and changes nothing |
| Playlists.HistoryIsSound | back_django/backend/apps/playlists/services.py:592-655 | the history is sound after any run of edits, publications, archivings and reactivations |
| Playlists.AscendingUnique | back_django/backend/apps/playlists/services.py:532 | reading the items by position has one possible result |
| Playlists.GapAscends | back_django/backend/apps/playlists/services.py:531 | removing an item from 1..n leaves an ascending list with one gap |
| Playlists.NextPositionIsFree | back_django/backend/apps/playlists/services.py:532-535 | each save of the compaction loop lands on a free position |
| Playlists.ParkingStep | back_django/backend/apps/playlists/services.py:548-551 | a parking save is accepted exactly when no waiting item holds that position |
| Playlists.ShortPlaylistsParkFreely | back_django/backend/apps/playlists/services.py:548-551 | up to 100000 items every parking place is free |
| Playlists.FirstPlaylistThatClashes | back_django/backend/apps/playlists/services.py:548-551 | with 100001 items reordering works if and only if the last item is moved to the front |
| Playlists.UnparkingIsFree | back_django/backend/apps/playlists/services.py:552-555 | each save of the second loop lands on a free position |
| Playlists.Playlist.SavePosition | back_django/backend/shared/db/models.py:11-14 | a save is refused exactly when another item holds the position |
| Playlists.Playlist.OrderByPosition | back_django/backend/apps/playlists/services.py:532 | lists the items by growing position |
| Playlists.Playlist.Compact | back_django/backend/apps/playlists/services.py:532-535 | renumbers to 1..n, changes nothing but positions, and no save is refused |
| Playlists.Playlist.Remove | back_django/backend/apps/playlists/services.py:527-537 | the others keep songs, weights and relative order at positions 1..n-1 |
| Playlists.Playlist.Add | back_django/backend/apps/playlists/services.py:487-500 | the item is appended at n+1, the others are untouched |
| Playlists.ReplacementIs | back_django/backend/apps/playlists/serializers.py:192-198 | new items are accepted exactly when their positions are 1..n, each once, and are then put in that order |
| Playlists.Playlist.ReplaceAll | back_django/backend/apps/playlists/services.py:503-524 | consecutive input becomes the whole list at 1..n, anything else is refused |
| Playlists.Playlist.Reorder | back_django/backend/apps/playlists/services.py:539-556 | the requested order results, or nothing changes; the parking clash is the only refusal of a valid request |
| Playlists.Playlist.Duplicate | back_django/backend/apps/playlists/services.py:559-588 | a draft copy with the same songs, positions and weights; the original is left alone |
| Playlists.Playlist.Publish | back_django/backend/apps/playlists/services.py:592-633 | publication in place is the publication step |
| Telemetry.DeliverKeepsLast | back_django/backend/apps/devices/services.py:475-538 | last_sequence is the greatest stored sequence, 0 when nothing is stored |
| Telemetry.ReceiveIs | back_django/backend/apps/devices/services.py:490-535 | what one admissible event stores and which fields it sets |
| Telemetry.DeliverStoresOnce | back_django/backend/apps/devices/services.py:490-510 | the store holds exactly the old ids and the delivered ones |
| Telemetry.DeliverKeepsStored | back_django/backend/apps/devices/services.py:490-513 | a stored event is never rewritten |
| Telemetry.StoreGrowsByAccepted | back_django/backend/apps/devices/services.py:508-511 | the store grows by exactly the accepted count |
| Telemetry.ReplayChangesNothing | back_django/backend/apps/devices/services.py:508-510 | replaying stored events changes nothing and counts only duplicates |
| Telemetry.BatchingIsImmaterial | back_django/backend/apps/devices/services.py:475-538 | two batches or one make no difference |
| Telemetry.FieldsTrack | back_django/backend/apps/devices/services.py:515-535 | each of the six state fields takes the value an applied event carries and otherwise stays |
| Telemetry.TopsDecide | back_django/backend/apps/devices/services.py:515-535 | a value that all news of the greatest sequence bring is the one the field ends with |
| Telemetry.GreatestEventWins | back_django/backend/apps/devices/services.py:515-535 | with distinct sequences, a field the greatest event carries ends with its value under any order, batching or repetition |
| Telemetry.FieldIsOrderFreeIff | back_django/backend/apps/devices/services.py:515-535 | over any delivery, late, repeated and equal-sequence events included, a field is independent of the order if and only if all news of the greatest sequence bring the same value or no news brings another |
| Telemetry.DeviceRecord.RecordTelemetry | back_django/backend/apps/devices/services.py:475-538 | an inadmissible event undoes the batch; otherwise accepted plus duplicates is the batch's length |
| Commands.Lifecycle | back_django/backend/apps/devices/services.py:383-451 | over all runs: one PENDING command per device and family, one command per idempotency key, no CANCELLED command was ever delivered |
| Commands.TerminalIsAbsorbing | back_django/backend/apps/devices/services.py:568-589 | EXECUTED, FAILED and EXPIRED are final however the run goes on |
| Commands.CreationIsIdempotent | back_django/backend/apps/devices/services.py:402-405 | a second creation with the same key returns the first command and changes nothing |
| Commands.AcknowledgementIsIdempotent | back_django/backend/apps/devices/services.py:568-589 | an acknowledgement changes that command alone, repeating it changes nothing, and a final one cannot be contradicted |
| Commands.CreateAcceptedIff | back_django/backend/apps/devices/services.py:383-401 | exactly which kinds and payloads are accepted |
| Commands.CreateEffect | back_django/backend/apps/devices/services.py:402-448 | a known key returns its first command; else the command waits for five minutes or as told and cancels exactly the waiting ones of its family |
| Commands.AcknowledgeAcceptedIff | back_django/backend/apps/devices/services.py:567-581 | exactly when an acknowledgement is accepted |
| Commands.DeliverEffect | back_django/backend/apps/devices/services.py:541-563 | a delivery expires what has run out, marks what it hands over and leaves every other row |
| Commands.DeliveryIsOldest | back_django/backend/apps/devices/services.py:549-557 | it hands over the oldest deliverable commands, oldest first, fifty at most, and leaves one out only then |
| Commands.OnePendingIff | back_django/backend/apps/devices/services.py:409-436 | for every approved kind: at most one command of it waits for a device over all runs if and only if the kind belongs to a family |
| Commands.UnfamiliedCommandsPileUp | back_django/backend/apps/devices/services.py:409-436 | for every kind without a family and every device, a run with two commands waiting |
| Commands.BatchIsOldestPrefix | back_django/backend/apps/devices/services.py:549-557 | the batch is a prefix of the live commands in creation order, short only when they run out |
| Commands.DeliveryHandsOverBatch | back_django/backend/apps/devices/services.py:541-564 | exactly that batch is handed over, unexpired and marked delivered once |
| Commands.CommandTable.CreateCommand | back_django/backend/apps/devices/services.py:383-451 | creation in place is the step, validation first, then the key, then supersession |
| Commands.CommandTable.DeliverCommands | back_django/backend/apps/devices/services.py:541-564 | expiry, selection and marking in place |
| Commands.CommandTable.AcknowledgeCommand | back_django/backend/apps/devices/services.py:567-589 | acknowledgement in place; the expiry it writes is rolled back with the error |
| Authorization.MatchingIsContainment | back_django/backend/apps/authorization/services.py:55-69 | scope matching is a partial order |
| Authorization.MatchesIff | back_django/backend/apps/authorization/services.py:55-69 | a scope contains another of its company if it is company-wide, the same row, or the site of a zone |
| Authorization.ResolveEffectivePermissions | back_django/backend/apps/authorization/services.py:72-104 | grants that are current and contain the scope, then its overrides in order of creation |
| Authorization.ZoneIdsAccessible | back_django/backend/apps/authorization/services.py:212-231 | None exactly when the permission holds company-wide, otherwise the zones reached by a contributing site or zone grant |
| Authorization.BulkAgreesWithItem | back_django/backend/apps/authorization/services.py:72-231 | with no override of the permission in force, a zone is in the bulk index if and only if the permission is effective on the zone's scope |
| Authorization.EffectiveIffKept | back_django/backend/apps/authorization/services.py:72-104 | the last override in force decides a permission, and the grants where there is none |
| Authorization.EffectiveIs | back_django/backend/apps/authorization/services.py:72-104 | a permission is effective exactly when the last override in force allows it, or without one an active grant in force on a containing scope includes it |
| Authorization.BulkAgreesIff | back_django/backend/apps/authorization/services.py:72-231 | with any overrides, the index and the check agree on a zone exactly under the stated condition on grants and overrides |
| Authorization.OverridesBreakAgreement | back_django/backend/apps/authorization/services.py:89-104 | overrides on the zone and on the company that make them differ, and one on the zone that the index does see |
| Codes.TailDecides | back_django/backend/apps/playlists/services.py:57-65 | candidates with different suffixes differ even after truncation |
| Codes.TriedBound | back_django/backend/apps/playlists/services.py:60-64 | after k taken candidates at least k codes are in use |
| Codes.VariantIs | back_django/backend/apps/playlists/services.py:62-63 | a variant is the base, cut to what 120 characters leave, a dash and the number |
| Codes.ResourceVariantIs | back_django/backend/apps/organizations/services.py:40-41 | of a site or zone code the first 44 characters stay |
| Codes.CandidatesExceedIff | back_django/backend/apps/playlists/services.py:57-65 | used + 2 candidates are needed if and only if the base is in use and the codes in use are exactly the first variants; otherwise used + 1 suffice |
| Codes.OwnVariantIff | back_django/backend/apps/playlists/services.py:57-65 | when a playlist or channel code is a variant of itself |
| Codes.OwnResourceVariantIff | back_django/backend/apps/organizations/services.py:32-42 | when a site or zone code is a variant of itself |
| Codes.OwnVariantCostsOneMore | back_django/backend/apps/playlists/services.py:57-65 | such a code alone in use costs three candidates |
| Codes.NextAvailableCode | back_django/backend/apps/playlists/services.py:57-65 | the base or its first free variant, within 120 characters, after at most used + 1 candidates unless the base is among the tried variants, and used + 2 then |
| Codes.GenerateCode | back_django/backend/apps/organizations/services.py:32-42 | the same for site and zone codes |
| OrgUnits.ChainEnds | back_django/backend/apps/organizations/models.py:163-167 | in a forest every chain of ancestors ends within as many steps as there are units |
| OrgUnits.SaveKeepsForestIff | back_django/backend/apps/organizations/models.py:156-167 | storing a unit keeps the forest if and only if the unit is not above its new parent |
| OrgUnits.AcceptableIs | back_django/backend/apps/organizations/models.py:156-167 | a save is acceptable without a parent, or under another unit of the company from which no line of parents leads to it |
| OrgUnits.Hierarchy.MeetsAncestor | back_django/backend/apps/organizations/models.py:163-167 | the walk ends and meets the unit if and only if it is the parent or an ancestor of it |
| OrgUnits.Hierarchy.Save | back_django/backend/apps/organizations/models.py:156-167 | accepted exactly for another unit of the same company that is not below; the store stays a forest |
| Seats.TimeFreesSeats | back_django/backend/apps/organizations/models.py:117-124 | time alone never takes a seat |
| Seats.SeatDelta | back_django/backend/apps/organizations/services.py:404-595 | the exact effect of each operation on the seats in use; accepting leaves the sum unchanged |
| Seats.UsedIs | back_django/backend/apps/organizations/services.py:129-145 | a seat is a membership that is not revoked or an invitation that waits |
| Seats.AcceptedIff | back_django/backend/apps/organizations/services.py:404-595 | exactly when each operation goes through |
| Seats.EffectIs | back_django/backend/apps/organizations/services.py:404-595 | what each does then, with its times, and that no other row changes |
| Seats.OperationKeepsLimitIff | back_django/backend/apps/organizations/services.py:548-563 | an operation keeps the limit if and only if it does not restore a revoked membership in a full company |
| Seats.SeatsNeverExceedLimit | back_django/backend/apps/organizations/services.py:129-145 | from a company without revoked members the limit holds over every run |
| Seats.SeatsCanBeFilled | back_django/backend/apps/organizations/services.py:404-459 | invitations can take every seat that is left |
| Seats.LimitHoldsIff | back_django/backend/apps/organizations/services.py:548-563 | every run stays within the limit if and only if no membership is revoked at the start |
| Seats.ReactivatingRevokedExceedsLimit | back_django/backend/apps/organizations/services.py:557-563 | a revoked member can be reactivated beyond the limit |
| Seats.Company.InviteMember | back_django/backend/apps/organizations/services.py:404-459 | invitation in place is the step, errors in the service's order |
| Seats.Company.AcceptInvitation | back_django/backend/apps/organizations/services.py:478-533 | acceptance in place is the step |
| Seats.Company.CancelInvitation | back_django/backend/apps/organizations/services.py:566-573 | cancellation in place is the step |
| Seats.Company.ResendInvitation | back_django/backend/apps/organizations/services.py:576-595 | resending in place is the step; within the cooldown nothing changes |
| Seats.Company.SetStatus | back_django/backend/apps/organizations/services.py:548-563 | the status is overwritten whatever it was, except the owner's |
| DeviceAuth.CacheIsBounded | back_go/internal/platform/middleware/device_auth.go:85-105 | under every interleaving of lookups and inserts the cache holds at most 2049 entries |
| DeviceAuth.BoundIsReached | back_go/internal/platform/middleware/device_auth.go:65-104 | a run of calls, each a missed lookup followed by its insert, ends with exactly 2049 entries |
| DeviceAuth.OverflowsIff | back_go/internal/platform/middleware/device_auth.go:81-104 | from every possible cache, when an insert leaves 2049 entries |
| DeviceAuth.HitsAreFresh | back_go/internal/platform/middleware/device_auth.go:65-88 | a hit is the upstream's answer for that token, from an introspection begun less than the ttl ago, and the token has not expired |
| DeviceAuth.LookupIs | back_go/internal/platform/middleware/device_auth.go:68-75 | when a lookup hits, and that it removes nothing but its own missed key |
| DeviceAuth.InsertedIsFound | back_go/internal/platform/middleware/device_auth.go:81-104 | a kept answer is found until the ttl or the token ends, whichever is first; an inactive or expired one is not kept |
| DeviceAuth.InsertKeepsOthers | back_go/internal/platform/middleware/device_auth.go:90-103 | other entries go only above 2048, the expired ones and one more |
| DeviceAuth.Authenticator.LookupSection | back_go/internal/platform/middleware/device_auth.go:68-75 | the first critical section |
| DeviceAuth.Authenticator.DropExpired | back_go/internal/platform/middleware/device_auth.go:91-95 | deletes exactly the expired entries |
| DeviceAuth.Authenticator.InsertSection | back_go/internal/platform/middleware/device_auth.go:81-105 | expiry, eviction and insertion; an inactive or expired principal is refused and not cached |

## Left out

- HTTP views, serializers (except the check on positions and the acknowledgement statuses), routing, e-mail, cookies, admin, migrations, billing, catalogue ingestion, campaigns: I/O and wiring.
- Database concurrency: transactions run one after another; row locks and the retry after an IntegrityError are not modelled.
- Libraries: JSON, base64, HMAC, SHA-256, JWT, time zones and RFC 3339 parsing are functions or inputs. `deterministicScore` is any function of item and weight into the reals; Go's stable sort and Python's sorted are one stable insertion sort, whose result is the only possible one where the comparator separates the elements.
- Schedules.GoParse: strconv.Atoi is modelled without its clamp on overflow, which no printed time reaches.
- Schedules.Apply: CHANNEL blocks fail validation on every edit, as the services never set a channel, so what Go plays for them is not modelled; a schedule's dates are day numbers rather than ISO strings, which sort alike; time zone changes do not appear.
- Assignments.Resolve: whether a schedule has content at the instant is a function of the schedule, and its local date an input; the resolver of one schedule's entries is in Schedules.
- Assignments.Apply: changes to a schedule's own dates after creation are not among the edits.
- Playback.Apply: the outcome of schedule resolution per zone is an input of each step (Governing computes it for the runtime request from the assignments) and is the same throughout the step; archiving of sites and reactivation of zones are not steps; whether a manifest finds assets and whether a channel or schedule has publishable content are inputs.
- Playback.Store.PublishScheduleVersion: the revision and clash checks that come before are in Assignments.AssignmentTable.PublishSchedule, the joint step in Governing.Step; what makes content publishable is an input.
- Playback.Fetch: the device's zone is given; a device without one gets an error before anything happens.
- Queue.ResolveAssets: the descriptive fields of an item (title, URL, size, ETag) are not carried; playback windows are instants, and text that does not parse, which the code treats as a closed window, has no counterpart.
- Playing.PlayerResolvesWhatIsScheduled: which assets a manifest lists, and with what duration, is an input; the zone is frozen with the payload that was published last.
- Delivery.DeviceObeysScheduleInCharge: the runtime is the one answered at that instant, not one from the player's cache; published versions are functions of their identifier and number, as their rows never change; the local date and time are inputs.
- Player.WalkedPage: the list of assets and the manifest stay the same during a walk.
- Player.Build: the reasons for an empty page (no manifest, a blocking reason, an empty queue) come before the modelled part; where a token signed by the service carried a negative index Go would panic, the model reports OutOfRange; the service signs no such token.
- Playlists.Playlist.Duplicate: names, codes and the plan's playlist limit are left out; codes are in Codes.
- Playlists.Step: Edited stands for any item operation; it bumps the revision and leaves the history alone.
- Telemetry.DeviceRecord.RecordTelemetry: heartbeat and last-seen times, technical payloads and a change of the device's zone between batches are not modelled.
- Commands.Lifecycle: CANCELLED is not claimed to be final, as an acknowledgement can still move it; results and error texts are left out.
- Authorization.ZoneIdsAccessible: matching of organizational units and resource groups is by scope row, as in the code, and contributes no zones.
- OrgUnits.Hierarchy.Save: changing the company of a unit that has children is not examined by the code and has no separate treatment here.
- Seats.SeatsNeverExceedLimit: the limit is fixed over the run, and transfers by support are left out.
- Codes.NextAvailableCode: slugify and upper-casing happen before the modelled search.
- `list_next_occurrences`, device activation and device limits: the listing's early break and the reactivation check leave little to state.
