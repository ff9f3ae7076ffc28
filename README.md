# A verified model of Gerrit's change, review and listing core

This project models, in Dafny, a set of self-contained rules from Gerrit Code Review: the server's
change entities, permissions, NoteDb update bookkeeping, diff and listing REST views, and several
pieces of the PolyGerrit web UI. Each source file of the core is one Dafny module. Functions the
code calls but whose bodies are not part of this model (JGit, the group backend, `RefNames`,
`encodeURL`, `getPatchRangeExpression`, `isMagicPath`, `filterMatch` and similar) are parameters:
function values, or the value the call returned. The assumptions made about them are stated as
`requires` where they are used.

- `Common` (common.dfy): `Option`/`Result`, decimal strings, string ordering, joining and splitting,
  sort helpers, and `Enumerates` (a sequence listing a set once each, standing for hash iteration
  order).
- `Change` (change.dfy): `Change.Id` parsing of sharded refs (`refs/changes/NN/<id>/…`) and of
  All-Users starred and draft refs and of edit refs, `toRefPrefix` with its round trip, `Key.abbreviate`/`max`, the
  `Status` codes, and the `Change` entity's patch-set setters as a class.
- `ChangeView` (change_view.dfy): the change, diff and edit URL builders of the web UI with their
  fixed query order, omission and fragment rules. Parsers read back the overview URL's tail (edit
  marker, comment id, query and hash) and the diff and edit URLs' line hashes; the shared part
  with the repository and the change number is not parsed back. `ChangeViewModel` covers the derived tab, the corrective updates its
  subscription issues, `diffUrl`'s base normalisation and `toggleSelectedCheckRun`.
- `DateUtil` (date_util.dfy): the relative-time buckets of `durationString`/`fromNow`, `parseDate`'s
  single replacement, and `isWithinHalfYear`.
- `AuthTokens` (auth_tokens.dfy): `VersionedAuthTokens` as a class over an optional token map. It
  covers the load check, the capacity, duplicate and lifetime refusals, deletion, and parsing and
  saving the config, with a round trip.
- `WatchedProjects` (watched_projects.dfy): the watched-projects editor, covering filter equality,
  the duplicate check, the sorted insert index, and add/remove bookkeeping with the unsaved flag.
- `ReviewInputs` (review_input.dfy): the `ReviewInput` builder, covering label range checks,
  message normalisation, reviewers, attention-set lists, the work-in-progress/ready exclusion and
  the Code-Review factories.
- `CodeReviewCommits` (code_review_commit.dfy): the conflict setters of `CodeReviewCommit`,
  `copyFrom` and the status message.
- `MergeUtil` (merge_util.dfy): the conflict message, strategy name, merge status, marker labels,
  the stage-collapse loop of a conflicting merge, `summarize`, and the merge commit message.
- `FileList` (file_list.dfy): the file list's totals, the modified/unmodified split, expand and
  collapse, the paging clamp, and `reviewFile`.
- `CommentThread` (comment_thread.dfy): the comment thread's lookup by id, the initial collapse
  rule, quoting, new drafts and replies, the display line and the root id.
- `ProjectWatch` (project_watch.dfy): group expansion in `deliverToMembers` (proved to reach
  exactly the members of the reachable internal, email-less groups, whatever cycles the subgroups
  form), the watcher lists and their union, and `getWatchers` with the All-Projects suppression.
- `NoteDbUpdates` (note_db_update_manager.dfy): `NoteDbUpdateManager` as a class, covering the
  one-shot execution, the same-project rule, and the rule that no ref is both updated and
  rewritten. It also covers `addRewrites`, `doDelete` and `allowNonFastForwards`.
- `ChangeQuery` (change_data.dfy): `ChangeData`'s storage constraint, lazily cached fields,
  changed-lines setters, the attention-set duplicate check, the patch-set cache, `isMerge` and
  `reviewedBy`.
- `ChangeControls` (change_control.dfy): the change permission predicates over abstract ref and
  project controls, and `ForChangeImpl` with its label-range cache, `can`, `test` and `check`.
- `ListProjects` (list_projects.dfy): `ListProjectsImpl`'s option checks, `toQuery`, state
  filtering, match options, the start/limit window with the more-projects flag, and pseudonyms
  for hidden parents. `display`'s loop is proved against a page function.
- `DiffOperations` (diff_operations.dfy): the diff base chosen for a patch set, the cache-key
  list, the single retry of negative cache results, and the path-keyed map of modified files.
- `ChangeIndexing` (all_changes_indexer.dfy): slice count and modulo slice membership, the skip
  set, the project-failure abort threshold, and the failed-percentage readiness rule.
- `PatchSetProtos` (patch_set_proto.dfy): `PatchSetProtoConverter`'s field defaults and both round
  trips.
- `ChangeFiles` (files.dfy): `Files.ListFiles`, covering the option exclusivity, the dispatch, the
  20-path query and the carried-over reviewed files.
- `ServerInfo` (server_info.dfy): `GetServerInfo`'s documentation URL, `isOff`, the sshd info,
  `toBoolean`, the metadata ordering and the per-auth-type fields.

Integers are unbounded. Where the source's Java `int`, truncating `%` or `short` range matters,
it is written out (`JavaRem`, the label range check).

## Model

| member | source | states |
|---|---|---|
| Change.DigitRunEnd | java/com/google/gerrit/entities/Change.java:236-241 | the index it returns is at or after the start, every character before it is a digit, and the character at it, if any, is not |
| Change.NextNonDigit | java/com/google/gerrit/entities/Change.java:236-241 | the loop stops at the end of the digit run, the position `DigitRunEnd` defines |
| Change.IsNumeric | java/com/google/gerrit/entities/Change.java:164-174 | true iff there is at least one character at the offset and every character from there to the end is a digit |
| Change.ParseIdDigits | java/com/google/gerrit/entities/Change.java:131-137 | `parseInt` of a digit run yields an id iff the run is non-empty and its value fits an `int`, otherwise the exception outcome |
| Change.StartIndex | java/com/google/gerrit/entities/Change.java:193-234 | the result is -1 or the position after prefix, two shard digits and `/`; when non-negative the ref has the sharded shape |
| Change.StartIndexCharacterization | java/com/google/gerrit/entities/Change.java:197-234 | `startIndex` is non-negative iff the ref is prefix, two digits, `/`, an id without a leading zero followed by `/`, with the shard equal to the id's last two digits (`0d` for a one-digit id) |
| Change.ShardOfTwoDigits | java/com/google/gerrit/entities/Change.java:253-260 | for an id of two or more digits the shard written by `toRefPrefix` is the id's last two digits |
| Change.ShardOfOneDigit | java/com/google/gerrit/entities/Change.java:255-258 | for a one-digit id the shard is `0` followed by that digit |
| Change.RefPrefixLayout | java/com/google/gerrit/entities/Change.java:249-260 | `toRefPrefix(id)` followed by anything has the sharded shape, with the id's decimal digits between the shard and the final `/` |
| Change.ToRefPrefixRoundTrip | java/com/google/gerrit/entities/Change.java:197-260 | for every id from 1 to the largest `int`, `startIndex` of `toRefPrefix(id)` plus any suffix is the index of the id digits, they end at the prefix's last `/`, and they parse back to `id` |
| Change.FromRef | java/com/google/gerrit/entities/Change.java:122-139 | a ref that is not an edit ref and fails `startIndex` gives no id |
| Change.FromRefMetaRoundTrip | java/com/google/gerrit/entities/Change.java:122-139 | the meta ref `toRefPrefix(id) + "meta"` reads back as `id` |
| Change.FromEditRefPart | java/com/google/gerrit/entities/Change.java:176-185 | an id is only read when the ref holds `edit-` (or the index arithmetic still fits); Change.FromEditRefRoundTrip and FromEditRefWithoutDigits prove an edit ref reads back as its id and one without digits as none |
| Change.NoEditPrefixBefore | java/com/google/gerrit/entities/Change.java:177-178 | no `edit-` starts inside a prefix free of `edit-` when `edit-` is appended to it, not even across the join |
| Change.FirstEditPrefix | java/com/google/gerrit/entities/Change.java:177-178 | `indexOf` finds the appended `edit-` after a prefix that has none |
| Change.FromEditRefRoundTrip | java/com/google/gerrit/entities/Change.java:176-185 | an edit ref whose id digits follow its first `edit-` and end before a non-digit, such as the `/` before the patch set, reads back as that id |
| Change.FromEditRefWithoutDigits | java/com/google/gerrit/entities/Change.java:176-185 | an `edit-` followed by no digit gives no id |
| Change.FromAllUsersRef | java/com/google/gerrit/entities/Change.java:140-162 | null, and a ref with neither the starred-changes nor the draft-comments prefix, give no id |
| Change.AllUsersIdAfterShape | java/com/google/gerrit/entities/Change.java:153-161 | after a prefix, an id is read iff the ref has the sharded shape followed by `/` and at least one digit and only digits to its end, and the id fits an `int` |
| Change.AllUsersPrefixesDisjoint | java/com/google/gerrit/entities/Change.java:146-152 | no ref starts with both all-users prefixes, so the order of the two tests does not matter |
| Change.FromAllUsersRefShape | java/com/google/gerrit/entities/Change.java:140-162 | a starred-changes or draft-comments ref gives an id iff it has the sharded shape, then `/` followed by only digits (at least one) |
| Change.TryParse | java/com/google/gerrit/entities/Change.java:116-120 | a parsed id is a 32-bit integer |
| Change.TryParseRoundTrip | java/com/google/gerrit/entities/Change.java:116-120 | `tryParse` reads back every 32-bit id that `toString` writes |
| Change.Abbreviate | java/com/google/gerrit/entities/Change.java:300-304 | the first `min(length, 9)` characters of the key |
| Change.KeyMax | java/com/google/gerrit/entities/Change.java:291-297 | the key with one character appended |
| Change.KeyMaxIsAfterPrefixed | java/com/google/gerrit/entities/Change.java:291-297 | `max()` sorts after every key that the key prefixes and whose next character is below U+9FA5 |
| Change.ForCode | java/com/google/gerrit/entities/Change.java:417-426 | the status returned has the given code; no status is returned only when no status has that code |
| Change.StatusCodes | java/com/google/gerrit/entities/Change.java:316-426 | `forCode(getCode(s)) == s`, and a status is closed (code outside `a`..`z`) iff it is not NEW |
| Change.ChangeRecord.constructor | java/com/google/gerrit/entities/Change.java:506-515 | a new change has its key and id and status NEW, and no current patch set or subjects |
| Change.ChangeRecord.GetStatus | java/com/google/gerrit/entities/Change.java:672-674 | the status whose code is stored |
| Change.ChangeRecord.SetStatus | java/com/google/gerrit/entities/Change.java:676-678 | stores the code of the status; the ids, key, current patch set, subject and original subject stay as they were |
| Change.ChangeRecord.IsClosed | java/com/google/gerrit/entities/Change.java:680-694 | being abandoned or merged agrees with the closed flag of the stored status |
| Change.ChangeRecord.OriginalSubject | java/com/google/gerrit/entities/Change.java:613-616 | the original subject when set, the subject otherwise |
| Change.ChangeRecord.CurrentPatchSetId | java/com/google/gerrit/entities/Change.java:622-629 | an id iff the stored number is positive, then for this change |
| Change.ChangeRecord.SetCurrentPatchSetInfo | java/com/google/gerrit/entities/Change.java:631-646 | a change without original subject keeps its last subject as original; a new change remembers the new subject; the number and subject are replaced |
| Change.ChangeRecord.SetCurrentPatchSet | java/com/google/gerrit/entities/Change.java:648-655 | refuses, changing nothing, a patch set of another change; otherwise stores number, subject and original subject |
| Change.ChangeRecord.ClearCurrentPatchSet | java/com/google/gerrit/entities/Change.java:657-661 | number 0 and both subjects null, nothing else changed |
| Change.ClearedHasNoCurrentPatchSet | java/com/google/gerrit/entities/Change.java:624-661 | after `clearCurrentPatchSet`, `currentPatchSetId()` is null |
| Change.Shard | java/com/google/gerrit/entities/Change.java:253-259 | the shard directory is the id's Java remainder modulo 100, zero-padded to two digits; `ShardOfTwoDigits` and `ShardOfOneDigit` prove it is the last two digits of the id |
| Change.ToRefPrefix | java/com/google/gerrit/entities/Change.java:249-260 | `refs/changes/`, the shard, a slash, the id and a slash; `RefPrefixLayout` states the layout and `ToRefPrefixRoundTrip` proves that parsing it gives the id back |
| Change.AllUsersIdAfter | java/com/google/gerrit/entities/Change.java:153-161 | after the chosen prefix: the id digits, a slash and a numeric rest give the id, anything else no id; `AllUsersIdAfterShape` characterises it |
| Change.Code | java/com/google/gerrit/entities/Change.java:341-403 | the one-character status codes n, M and A; `StatusCodes` proves them distinct and inverted by `ForCode` |
| Change.IsClosedStatus | java/com/google/gerrit/entities/Change.java:394-411 | a status is closed exactly when its code lies outside a to z, that is for MERGED and ABANDONED |
| ChangeView.Or | polygerrit-ui/app/models/views/change.ts:435-448 | `a ?? b`: the override when it is present, else the fallback |
| ChangeView.ObjToState | polygerrit-ui/app/models/views/change.ts:147-161 | the state carries the requested child view; a change object contributes its number and project, a state is kept as it is |
| ChangeView.RenderParams | polygerrit-ui/app/models/views/change.ts:221-223 | one `key=value` piece per parameter, in order |
| ChangeView.QueryPart | polygerrit-ui/app/models/views/change.ts:221-223 | the query part is empty exactly when there are no parameters |
| ChangeView.Present | polygerrit-ui/app/models/views/change.ts:182-214 | only slots holding a value give a parameter, under their own key; no parameter at all iff every slot is empty |
| ChangeView.OverviewSlots | polygerrit-ui/app/models/views/change.ts:184-214 | one slot per overview parameter, in the order the URL lists them |
| ChangeView.EditUrlState | polygerrit-ui/app/models/views/change.ts:272-279 | the edit URL always has a patch set: the given one, else the change edit |
| ChangeView.CreateChangeViewUrl | polygerrit-ui/app/models/views/change.ts:163-172 | a URL exists exactly when the child view is set, and is the overview, diff or edit URL of that child view |
| ChangeView.ParseParams | polygerrit-ui/app/models/views/change.ts:221-223 | reading the pieces back parses each piece on its own, one parameter per piece |
| ChangeView.LookupAbsent | polygerrit-ui/app/models/views/change.ts:182-214 | a key no parameter has is looked up as absent |
| ChangeView.CutAt | polygerrit-ui/app/models/views/change.ts:215-226 | the cut is within the text and covers a first character that is not a stop |
| ChangeView.LookupPresent | polygerrit-ui/app/models/views/change.ts:182-214 | with distinct keys, looking up each key in the parameters gives back its slot |
| ChangeView.Rank | polygerrit-ui/app/models/views/change.ts:182-214 | the rank of a key is its position among the parameter keys, or past them when absent |
| ChangeView.PresentOrdered | polygerrit-ui/app/models/views/change.ts:182-214 | the parameters appear in key order, each key at most once |
| ChangeView.OverviewQueryOrder | polygerrit-ui/app/models/views/change.ts:184-214 | the overview parameters always appear in the fixed order checksPatchset, attempt, filter, checksResultsFilter, checksRunsSelected, tab, forceReload, openReplyDialog, usp |
| ChangeView.ParseParamOfRendered | polygerrit-ui/app/models/views/change.ts:189-213 | a `key=value` piece whose key holds no `=` parses back into that key and value |
| ChangeView.ParseQueryStringRoundTrip | polygerrit-ui/app/models/views/change.ts:221-223 | joining the parameters with `&` and splitting them again gives back every parameter, when keys hold no `=` or `&` and values no `&` |
| ChangeView.ParsedLookup | polygerrit-ui/app/models/views/change.ts:221-223 | a key looked up in the parsed query string has the value it had in the parameters |
| ChangeView.PresentSafe | polygerrit-ui/app/models/views/change.ts:182-214 | slots without `&` give parameters that can be joined and parsed back |
| ChangeView.SortedRunsSafe | polygerrit-ui/app/models/views/change.ts:200-202 | sorting the selected runs introduces no character the runs did not hold |
| ChangeView.IntToStringNotAll | polygerrit-ui/app/models/views/change.ts:191-193 | a numeric attempt never prints as the word `all`, so it cannot be misread as all attempts |
| ChangeView.OverviewSlotsSafe | polygerrit-ui/app/models/views/change.ts:184-214 | when the free-text values hold no `&` (or `#`), no overview slot does |
| ChangeView.ComputedSlotsSafe | polygerrit-ui/app/models/views/change.ts:184-202 | the patch set, attempt and runs slots the view prints itself hold no `&` or `#` |
| ChangeView.SlotRoundTrip | polygerrit-ui/app/models/views/change.ts:184-223 | every overview parameter reads back from the query string as its slot |
| ChangeView.ChecksPatchsetReadBack | polygerrit-ui/app/models/views/change.ts:184-190 | `checksPatchset` reads back when it is shown, and is absent otherwise |
| ChangeView.AttemptReadBack | polygerrit-ui/app/models/views/change.ts:191-193 | the attempt reads back, except `latest`, which is left out of the URL |
| ChangeView.ParseAttemptOfText | polygerrit-ui/app/models/views/change.ts:191-193 | every attempt the URL writes parses back as itself |
| ChangeView.RunsReadBack | polygerrit-ui/app/models/views/change.ts:200-202 | the selected runs read back as their sorted list, and are absent when none is selected |
| ChangeView.TextFieldsReadBack | polygerrit-ui/app/models/views/change.ts:194-214 | filter, checksResultsFilter, tab (unless it is the files tab) and usp read back as the state held them |
| ChangeView.FlagsReadBack | polygerrit-ui/app/models/views/change.ts:206-211 | forceReload and openReplyDialog read back as the state's flags |
| ChangeView.OverviewQueryRoundTrip | polygerrit-ui/app/models/views/change.ts:182-223 | decoding the overview query gives back everything the state put in it |
| ChangeView.RunsTextOrderFree | polygerrit-ui/app/models/views/change.ts:200-202 | the order in which runs were selected does not change the URL |
| ChangeView.NoQueryNoQuestionMark | polygerrit-ui/app/models/views/change.ts:221-226 | without parameters the overview URL has no `?` part, and nothing reads back from it |
| ChangeView.StripQueryOf | polygerrit-ui/app/models/views/change.ts:221-226 | the `?` part is split off cleanly before the message hash |
| ChangeView.StripCommentOf | polygerrit-ui/app/models/views/change.ts:218-220 | the `/comments/<id>` part is split off cleanly before the query |
| ChangeView.StripEditOf | polygerrit-ui/app/models/views/change.ts:215-217 | the `,edit` marker is split off cleanly before the comment part |
| ChangeView.OverviewTailRoundTrip | polygerrit-ui/app/models/views/change.ts:215-228 | the overview URL's tail reads back as the edit marker, the comment id, the query and the message hash of the state |
| ChangeView.DecodeLineHashOf | polygerrit-ui/app/models/views/change.ts:260-267 | a line fragment `#<n>` or `#b<n>` reads back as the line and its side |
| ChangeView.DiffHashRoundTrip | polygerrit-ui/app/models/views/change.ts:260-267 | the diff URL's fragment reads back as the line and side when a non-zero line is given, and as nothing otherwise |
| ChangeView.EditHashRoundTrip | polygerrit-ui/app/models/views/change.ts:281-285 | the edit URL's fragment reads back as the line when a non-zero line is given |
| ChangeView.EditUrlDefaultsToEdit | polygerrit-ui/app/models/views/change.ts:272-286 | an edit URL without a patch set is the URL of the change edit |
| ChangeView.DiffQueryIsChecksPatchset | polygerrit-ui/app/models/views/change.ts:247-258 | the diff URL carries only `checksPatchset`, under the same condition and with the same value as the overview URL |
| ChangeView.TabSurvivesOverviewUrl | polygerrit-ui/app/models/views/change.ts:346-350 | `tab$` of the state read back from the URL equals `tab$` of the state except when a comment is targeted and the tab is the files tab |
| ChangeView.TabOf | polygerrit-ui/app/models/views/change.ts:346-350 | `tab$` always names a tab: the state's own when set, else the comment threads tab exactly when a comment is targeted, and the files tab otherwise |
| ChangeView.ChecksPatchsetOf | polygerrit-ui/app/models/views/change.ts:353-359 | `checksPatchset$` is never the edit: the selected checks patch set when there is one; with none selected, the state's patch set unless it is the edit, and nothing for the edit or a missing state |
| ChangeView.ChecksPatchsetSurvivesOverviewUrl | polygerrit-ui/app/models/views/change.ts:353-359 | leaving `checksPatchset` out of the URL does not change what `checksPatchset$` emits |
| ChangeView.Settle | polygerrit-ui/app/models/views/change.ts:377-390 | the corrected state has no one-shot property and no `checksPatchset` equal to the patch set, and differs from the input in no other property |
| ChangeView.NotificationsOfSettled | polygerrit-ui/app/models/views/change.ts:377-390 | storing a state that needs no correction notifies the subscriber once |
| ChangeView.NotificationsSettle | polygerrit-ui/app/models/views/change.ts:377-390 | the first notification is the stored state, the last is its settled form |
| ChangeView.DoubleCorrection | polygerrit-ui/app/models/views/change.ts:377-390 | a state needing both corrections is notified four times, the settled state twice |
| ChangeView.SettleKeepsChecksPatchset | polygerrit-ui/app/models/views/change.ts:353-390 | the corrections never change what `checksPatchset$` emits |
| ChangeView.SettleAfterClear | polygerrit-ui/app/models/views/change.ts:377-390 | clearing the one-shot properties first settles to the same state |
| ChangeView.DiffBase | polygerrit-ui/app/models/views/change.ts:436-441 | the base becomes the parent exactly when both are numbers and the patch set is not after the base; otherwise it is kept |
| ChangeView.DiffTarget | polygerrit-ui/app/models/views/change.ts:430-449 | each property comes from the override, else the current state, and a numeric base is always before a numeric patch set |
| ChangeView.EditTarget | polygerrit-ui/app/models/views/change.ts:456-466 | the patch set and edit view come from the override, else the current state |
| ChangeView.ChangeViewModel.constructor | polygerrit-ui/app/models/views/change.ts:375-392 | the model starts with no state, the subscriber notified of that, and no pending timeout |
| ChangeView.ChangeViewModel.Store | polygerrit-ui/app/models/views/change.ts:377-390 | storing notifies the subscriber of every correction in turn, and leaves the settled state |
| ChangeView.ChangeViewModel.SetState | polygerrit-ui/app/models/views/change.ts:418-424 | a state asking for a reload clears the state and schedules it without the flag; any other state is stored and settled |
| ChangeView.ChangeViewModel.ForceLoad | polygerrit-ui/app/models/views/change.ts:411-416 | the state is cleared now and restored without the reload flag by a pending timeout |
| ChangeView.ChangeViewModel.FireTimer | polygerrit-ui/app/models/views/change.ts:413-415 | the oldest pending timeout stores its state, which is settled |
| ChangeView.ChangeViewModel.Reload | polygerrit-ui/app/models/views/change.ts:402-405 | with a current state, it is cleared and rescheduled without the reload flag; without one nothing changes |
| ChangeView.ChangeViewModel.ToggleSelectedCheckRun | polygerrit-ui/app/models/views/change.ts:469-474 | the selected runs become the toggled runs and the rest of the state is kept |
| ChangeView.ChangeViewModel.DiffUrl | polygerrit-ui/app/models/views/change.ts:430-450 | fails exactly when there is no state, change number or repository; otherwise the diff URL of the merged target |
| ChangeView.ChangeViewModel.EditUrl | polygerrit-ui/app/models/views/change.ts:456-467 | fails exactly when there is no state, change number or repository; otherwise the edit URL of the merged target |
| ChangeView.CreateChangeUrlCommon | polygerrit-ui/app/models/views/change.ts:292-301 | the part shared by the three child views: base URL, /c/, the encoded repository and /+/ when there is one, the change number and the patch range behind a slash when non-empty; no parser reads this part back |
| ChangeView.CreateChangeUrl | polygerrit-ui/app/models/views/change.ts:174-228 | the overview URL: the shared part, then the tail of optional /edit and comment segments, the ordered query and the message hash; ChangeView.OverviewTailRoundTrip proves the tail reads back as the state's edit marker, comment id, query and hash, and OverviewQueryRoundTrip that every query parameter does |
| ChangeView.CreateDiffUrl | polygerrit-ui/app/models/views/change.ts:231-269 | the diff URL: the shared part, the file path, the comment segment, the checks patchset query when it differs from the patch set, and the line hash; ChangeView.DiffHashRoundTrip proves the hash reads back as the line and side, and DiffQueryIsChecksPatchset states the query |
| ChangeView.CreateEditUrl | polygerrit-ui/app/models/views/change.ts:272-289 | the edit URL: the state with patchNum defaulting to the edit, the file path, ,edit and the line hash; ChangeView.EditUrlDefaultsToEdit proves the default and EditHashRoundTrip that the hash reads back as the line |
| ChangeView.RunsText | polygerrit-ui/app/models/views/change.ts:200-202 | the selected check runs sorted and joined by commas; ChangeView.RunsReadBack and RunsTextOrderFree prove the runs read back whatever order they were selected in |
| ChangeView.ParseQueryString | polygerrit-ui/app/models/views/change.ts:221-223 | the reading side of the query: split at & and each piece at its first =; ChangeView.ParseQueryStringRoundTrip proves it gives back every rendered parameter list |
| DateUtil.FloorDiv | polygerrit-ui/app/utils/date-util.ts:35 | `Math.floor(a / b)`: the greatest quotient whose product does not exceed the dividend, negative dividends included |
| DateUtil.FromNow | polygerrit-ui/app/utils/date-util.ts:28-30 | under a minute "just now", or the seconds when `noAgo`; one minute up to two "1 minute", then whole minutes below an hour; from a minute on the text with ` ago` is the text without it plus ` ago` |
| DateUtil.Units | polygerrit-ui/app/utils/date-util.ts:41-49 | the minutes, hours and days computed by repeated flooring are the seconds divided by 60, 3600 and 86400 |
| DateUtil.DurationJustNow | polygerrit-ui/app/utils/date-util.ts:36-39 | up to 59 seconds, negative differences included: `<s> seconds` without the suffix, else `just now` |
| DateUtil.DurationOneMinute | polygerrit-ui/app/utils/date-util.ts:40 | 60 to 119 seconds give `1 minute` |
| DateUtil.DurationMinutes | polygerrit-ui/app/utils/date-util.ts:41-42 | from two minutes to below an hour: `<m> minutes` |
| DateUtil.DurationOneHour | polygerrit-ui/app/utils/date-util.ts:43 | exactly sixty whole minutes: `1 hour` |
| DateUtil.DurationHourMinutes | polygerrit-ui/app/utils/date-util.ts:44 | 61 to 119 minutes: `1 hour <m-60> min` |
| DateUtil.DurationHours | polygerrit-ui/app/utils/date-util.ts:45-46 | two to 23 hours: `<h> hours` |
| DateUtil.DurationOneDay | polygerrit-ui/app/utils/date-util.ts:47 | exactly 24 whole hours: `1 day` |
| DateUtil.DurationDayHours | polygerrit-ui/app/utils/date-util.ts:48 | 25 to 47 hours: `1 day <h-24> hr` |
| DateUtil.DurationDays | polygerrit-ui/app/utils/date-util.ts:49-50 | two to 30 days: `<d> days` |
| DateUtil.DurationOneMonth | polygerrit-ui/app/utils/date-util.ts:51 | 31 to 60 days: `1 month` |
| DateUtil.DurationMonths | polygerrit-ui/app/utils/date-util.ts:52-53 | 61 to 359 days: `<d/30> months` |
| DateUtil.DurationOneYear | polygerrit-ui/app/utils/date-util.ts:54 | 360 to 389 days: `1 year` |
| DateUtil.DurationYearMonths | polygerrit-ui/app/utils/date-util.ts:55 | 390 to 749 days: `1 year <mo-12> m`, where the month count reaches 12 |
| DateUtil.DurationYears | polygerrit-ui/app/utils/date-util.ts:56-57 | from 750 days on: `<d/365> years`, always at least two |
| DateUtil.AgoIsSuffix | polygerrit-ui/app/utils/date-util.ts:34-57 | from one minute on, the text with the suffix is the text without it followed by ` ago` |
| DateUtil.ReplaceFirstSpace | polygerrit-ui/app/utils/date-util.ts:19 | `replace(' ', 'T')` keeps the length and changes nothing in a text without a space |
| DateUtil.IsoTimestamp | polygerrit-ui/app/utils/date-util.ts:19 | the ISO text is the munged timestamp followed by `Z` |
| DateUtil.ReplaceFirstT | polygerrit-ui/app/utils/date-util.ts:19 | turning the first `T` back into a space keeps the length |
| DateUtil.ReplaceRoundTrip | polygerrit-ui/app/utils/date-util.ts:19 | in a server timestamp with a space and no `T` before it, replacing the first space and then the first `T` gives it back |
| DateUtil.IsoTimestampRoundTrip | polygerrit-ui/app/utils/date-util.ts:14-20 | the server timestamp is recovered from the text handed to the `Date` constructor |
| DateUtil.OnlyFirstSpaceReplaced | polygerrit-ui/app/utils/date-util.ts:19 | every space after the first survives the replacement |
| DateUtil.IsWithinHalfYear | polygerrit-ui/app/utils/date-util.ts:81-84 | true iff the two instants are less than 180 days apart, either way |
| DateUtil.HalfYearSymmetric | polygerrit-ui/app/utils/date-util.ts:81-84 | the order of the two instants does not matter |
| DateUtil.DurationString | polygerrit-ui/app/utils/date-util.ts:33-58 | `durationString`: "just now" or the seconds under a minute, otherwise the largest unit that fits with ` ago` unless `noAgo`; the buckets are proved one by one as `DurationJustNow` to `DurationYears`, and the suffix as `AgoIsSuffix` |
| DateUtil.ElapsedText | polygerrit-ui/app/utils/date-util.ts:40-57 | the ladder of units from one minute on, without the suffix; its buckets are the `Duration*` lemmas |
| DateUtil.SecondsBetween | polygerrit-ui/app/utils/date-util.ts:35 | whole seconds from one time to the other, rounded down, negative when the second is earlier; `FloorDiv` states the rounding |
| DateUtil.Ago | polygerrit-ui/app/utils/date-util.ts:34 | the suffix ` ago`, or nothing when `noAgo` |
| AuthTokens.LifetimeParts | java/com/google/gerrit/server/account/VersionedAuthTokens.java:198-204 | the days are the whole days of the lifetime, the hours the whole hours left below 24 and the minutes the whole minutes left below 60: days, hours and minutes together come within a minute of the lifetime from below |
| AuthTokens.AcceptedMeansAllowed | java/com/google/gerrit/server/account/VersionedAuthTokens.java:182-206 | a token is accepted iff the map is below the cap, its id is new, and, with a maximum lifetime, it expires no later than now plus that lifetime |
| AuthTokens.AcceptedStaysUnderCap | java/com/google/gerrit/server/account/VersionedAuthTokens.java:182-208 | after an accepted add the token count is one more and still within the cap |
| AuthTokens.DuplicateIsConflict | java/com/google/gerrit/server/account/VersionedAuthTokens.java:182-189 | an existing id is refused with a conflict, unless the cap is already reached, which is reported first |
| AuthTokens.LifetimeBoundInclusive | java/com/google/gerrit/server/account/VersionedAuthTokens.java:191-205 | expiring exactly at now plus the maximum is accepted; one millisecond later is refused |
| AuthTokens.Parse | java/com/google/gerrit/server/account/VersionedAuthTokens.java:116-133 | parsing fails iff some subsection's expiration is no instant; otherwise every token that creation accepts is stored under its subsection, invalid ones are skipped, and, creation keeping the id, every token is stored under its own id |
| AuthTokens.SaveMessage | java/com/google/gerrit/server/account/VersionedAuthTokens.java:99-101 | a non-empty commit message is kept; an empty or missing one becomes the default message |
| AuthTokens.SavedConfig | java/com/google/gerrit/server/account/VersionedAuthTokens.java:103-110 | one subsection per token with its hash, and an expiration exactly for the tokens that have one |
| AuthTokens.SaveParseRoundTrip | java/com/google/gerrit/server/account/VersionedAuthTokens.java:98-133 | what saving writes, parsing reads back as the same tokens, when instants survive their text form |
| AuthTokens.VersionedAuthTokens.constructor | java/com/google/gerrit/server/account/VersionedAuthTokens.java:65-78 | the limits come from the configuration and no tokens are loaded yet |
| AuthTokens.VersionedAuthTokens.OnLoad | java/com/google/gerrit/server/account/VersionedAuthTokens.java:92-95 | loading stores the parsed map |
| AuthTokens.VersionedAuthTokens.GetToken | java/com/google/gerrit/server/account/VersionedAuthTokens.java:147-151 | fails before loading; otherwise the token with that id, or none iff the id is absent |
| AuthTokens.VersionedAuthTokens.GetTokens | java/com/google/gerrit/server/account/VersionedAuthTokens.java:136-139 | fails before loading; otherwise exactly the stored tokens |
| AuthTokens.VersionedAuthTokens.AddToken | java/com/google/gerrit/server/account/VersionedAuthTokens.java:178-210 | fails before loading; a refused token changes nothing; an accepted one is stored under its id and nothing else changes |
| AuthTokens.VersionedAuthTokens.AddNewToken | java/com/google/gerrit/server/account/VersionedAuthTokens.java:162-168 | fails before loading; a token creation refuses changes nothing; otherwise as adding the created token |
| AuthTokens.VersionedAuthTokens.DeleteToken | java/com/google/gerrit/server/account/VersionedAuthTokens.java:219-222 | fails before loading; otherwise true iff the id was present, and afterwards it is absent with the rest unchanged |
| AuthTokens.VersionedAuthTokens.OnSave | java/com/google/gerrit/server/account/VersionedAuthTokens.java:98-114 | fails before loading; otherwise the commit message and exactly the config that writes one subsection per stored token, keyed by its id |
| AuthTokens.Refusal | java/com/google/gerrit/server/account/VersionedAuthTokens.java:182-206 | why addToken refuses a token, checked in the order count, conflict, lifetime; AuthTokens.AcceptedMeansAllowed, DuplicateIsConflict and LifetimeBoundInclusive prove each case |
| WatchedProjects.AreFiltersEqual | polygerrit-ui/app/elements/settings/gr-watched-projects-editor/gr-watched-projects-editor.ts:342-351 | true iff the filters are identical or both are null or undefined |
| WatchedProjects.FilterEqualityIsEquivalence | polygerrit-ui/app/elements/settings/gr-watched-projects-editor/gr-watched-projects-editor.ts:342-351 | filter equality is reflexive, symmetric and transitive |
| WatchedProjects.CanAddNeedsInput | polygerrit-ui/app/elements/settings/gr-watched-projects-editor/gr-watched-projects-editor.ts:241-243 | without a project and without text nothing can be added |
| WatchedProjects.CanAddFreeText | polygerrit-ui/app/elements/settings/gr-watched-projects-editor/gr-watched-projects-editor.ts:245-248 | typed text without a chosen project is always accepted |
| WatchedProjects.CanAddUnlessDuplicate | polygerrit-ui/app/elements/settings/gr-watched-projects-editor/gr-watched-projects-editor.ts:250-261 | with a chosen project and a loaded list, adding fails iff some entry has the same project and an equal filter |
| WatchedProjects.NewProjectIndex | polygerrit-ui/app/elements/settings/gr-watched-projects-editor/gr-watched-projects-editor.ts:265-281 | the insertion point is within the list; no entry before it sorts after the new watch, and the entry at it does |
| WatchedProjects.BeforeIndexNotGreater | polygerrit-ui/app/elements/settings/gr-watched-projects-editor/gr-watched-projects-editor.ts:268-279 | every entry before the insertion point has a project name at most the new one |
| WatchedProjects.InsertKeepsSorted | polygerrit-ui/app/elements/settings/gr-watched-projects-editor/gr-watched-projects-editor.ts:295-304 | inserting at the insertion point keeps a list sorted by project name sorted |
| WatchedProjects.NewIndexUnique | polygerrit-ui/app/elements/settings/gr-watched-projects-editor/gr-watched-projects-editor.ts:265-281 | the insertion point is the only index with that property |
| WatchedProjects.InsertThenRemove | polygerrit-ui/app/elements/settings/gr-watched-projects-editor/gr-watched-projects-editor.ts:222-234 | removing a watch just inserted, and absent before, restores the list |
| WatchedProjects.WatchedProjectsEditor.constructor | polygerrit-ui/app/elements/settings/gr-watched-projects-editor/gr-watched-projects-editor.ts:47-54 | nothing is loaded, nothing is pending removal and no event was fired |
| WatchedProjects.WatchedProjectsEditor.LoadData | polygerrit-ui/app/elements/settings/gr-watched-projects-editor/gr-watched-projects-editor.ts:176-181 | the server's answer becomes the original list, and a copy of it (or an empty list) the edited one |
| WatchedProjects.WatchedProjectsEditor.Unsaved | polygerrit-ui/app/elements/settings/gr-watched-projects-editor/gr-watched-projects-editor.ts:331-336 | true iff the edited list differs from the loaded one or a removal is pending |
| WatchedProjects.WatchedProjectsEditor.SetHasUnsavedChanges | polygerrit-ui/app/elements/settings/gr-watched-projects-editor/gr-watched-projects-editor.ts:331-336 | fires one event carrying the unsaved flag, and changes nothing else |
| WatchedProjects.WatchedProjectsEditor.CanAddProject | polygerrit-ui/app/elements/settings/gr-watched-projects-editor/gr-watched-projects-editor.ts:236-262 | the scan answers as the definition of an addable watch |
| WatchedProjects.WatchedProjectsEditor.GetNewProjectIndex | polygerrit-ui/app/elements/settings/gr-watched-projects-editor/gr-watched-projects-editor.ts:265-281 | nothing without a list; otherwise the insertion point |
| WatchedProjects.WatchedProjectsEditor.HandleAddProject | polygerrit-ui/app/elements/settings/gr-watched-projects-editor/gr-watched-projects-editor.ts:284-309 | an unaddable watch changes nothing; otherwise exactly one local watch is inserted at its sorted place and the unsaved flag is fired |
| WatchedProjects.WatchedProjectsEditor.HandleRemoveProject | polygerrit-ui/app/elements/settings/gr-watched-projects-editor/gr-watched-projects-editor.ts:222-234 | without both lists or without the entry nothing changes; otherwise its first occurrence is removed, it is queued for deletion iff it was loaded, and the unsaved flag is fired |
| WatchedProjects.IsFilterDefined | polygerrit-ui/app/elements/settings/gr-watched-projects-editor/gr-watched-projects-editor.ts:338-340 | a filter is defined when it is neither null nor undefined; WatchedProjects.FilterEqualityIsEquivalence proves the filter equality built on it is an equivalence |
| WatchedProjects.CanAdd | polygerrit-ui/app/elements/settings/gr-watched-projects-editor/gr-watched-projects-editor.ts:236-262 | the add button rule: there must be a project or typed text, and no row may already watch the same project with an equal filter; WatchedProjects.CanAddNeedsInput, CanAddFreeText and CanAddUnlessDuplicate prove each case |
| WatchedProjects.SortsAfter | polygerrit-ui/app/elements/settings/gr-watched-projects-editor/gr-watched-projects-editor.ts:268-279 | the stop condition of the index scan: the entry project sorts after the name, or it is the same project, both filters are defined and its filter sorts after; WatchedProjects.BeforeIndexNotGreater and InsertKeepsSorted prove the insertion keeps the list sorted |
| WatchedProjects.HasUnsavedChanges | polygerrit-ui/app/elements/settings/gr-watched-projects-editor/gr-watched-projects-editor.ts:331-336 | the list differs from the one loaded, or removals are pending; WatchedProjects.WatchedProjectsEditor.SetHasUnsavedChanges stores it |
| ReviewInputs.Put | java/com/google/gerrit/extensions/api/changes/ReviewInput.java:137-140 | `LinkedHashMap.put`: the map grows by at most one entry and every existing name keeps its position |
| ReviewInputs.PutLookup | java/com/google/gerrit/extensions/api/changes/ReviewInput.java:140 | after `put` the name reads back the new value and every other name is unchanged |
| ReviewInputs.PutDistinct | java/com/google/gerrit/extensions/api/changes/ReviewInput.java:137-140 | `put` keeps names distinct and appends only a name not yet present |
| ReviewInputs.StoredMessage | java/com/google/gerrit/extensions/api/changes/ReviewInput.java:117-120 | an empty or null message is stored as null; any other is stored unchanged |
| ReviewInputs.ReviewInput.constructor | java/com/google/gerrit/extensions/api/changes/ReviewInput.java:244-246 | a new input has every field unset |
| ReviewInputs.ReviewInput.Message | java/com/google/gerrit/extensions/api/changes/ReviewInput.java:117-120 | the message becomes the stored form of the argument and nothing else changes |
| ReviewInputs.ReviewInput.PatchSetLevelComment | java/com/google/gerrit/extensions/api/changes/ReviewInput.java:123-130 | the comments become a single patch-set-level comment with that message, nothing else changes |
| ReviewInputs.ReviewInput.LabelShort | java/com/google/gerrit/extensions/api/changes/ReviewInput.java:133-142 | refused, with nothing changed, for a null or empty name; otherwise the vote is put into the labels, created if absent |
| ReviewInputs.ReviewInput.Label | java/com/google/gerrit/extensions/api/changes/ReviewInput.java:145-150 | additionally refuses values outside the `short` range |
| ReviewInputs.ReviewInput.LabelOne | java/com/google/gerrit/extensions/api/changes/ReviewInput.java:153-155 | puts a +1 vote |
| ReviewInputs.ReviewInput.Reviewer | java/com/google/gerrit/extensions/api/changes/ReviewInput.java:168-178 | appends exactly one entry with the given reviewer, state and confirmation |
| ReviewInputs.ReviewInput.AddReviewer | java/com/google/gerrit/extensions/api/changes/ReviewInput.java:158-160 | appends an unconfirmed REVIEWER |
| ReviewInputs.ReviewInput.Cc | java/com/google/gerrit/extensions/api/changes/ReviewInput.java:163-165 | appends an unconfirmed CC |
| ReviewInputs.ReviewInput.AddUserToAttentionSet | java/com/google/gerrit/extensions/api/changes/ReviewInput.java:181-190 | appends exactly one entry to the users to add |
| ReviewInputs.ReviewInput.RemoveUserFromAttentionSet | java/com/google/gerrit/extensions/api/changes/ReviewInput.java:193-202 | appends exactly one entry to the users to remove |
| ReviewInputs.ReviewInput.BlockAutomaticAttentionSetRules | java/com/google/gerrit/extensions/api/changes/ReviewInput.java:205-208 | sets the flag and changes nothing else |
| ReviewInputs.ReviewInput.SetWorkInProgress | java/com/google/gerrit/extensions/api/changes/ReviewInput.java:211-215 | work in progress is the argument and ready its negation, so never both |
| ReviewInputs.ReviewInput.SetReady | java/com/google/gerrit/extensions/api/changes/ReviewInput.java:218-222 | ready is the argument and work in progress its negation, so never both |
| ReviewInputs.CodeReviewFactory | java/com/google/gerrit/extensions/api/changes/ReviewInput.java:224-242 | a fresh input carrying exactly one Code-Review vote of the given value; message, comments, attention-set changes and the other options are unset |
| ReviewInputs.Recommend | java/com/google/gerrit/extensions/api/changes/ReviewInput.java:224-226 | Code-Review +1 |
| ReviewInputs.Dislike | java/com/google/gerrit/extensions/api/changes/ReviewInput.java:228-230 | Code-Review -1 |
| ReviewInputs.NoScore | java/com/google/gerrit/extensions/api/changes/ReviewInput.java:232-234 | Code-Review 0 |
| ReviewInputs.Approve | java/com/google/gerrit/extensions/api/changes/ReviewInput.java:236-238 | Code-Review +2 |
| ReviewInputs.Reject | java/com/google/gerrit/extensions/api/changes/ReviewInput.java:240-242 | Code-Review -2 |
| CodeReviewCommits.MergeConflicts | java/com/google/gerrit/server/git/CodeReviewCommit.java:193-212 | base, ours, theirs and strategy are recorded without a no-base reason, and conflicts are flagged iff a non-empty file set is given |
| CodeReviewCommits.NoBaseConflicts | java/com/google/gerrit/server/git/CodeReviewCommit.java:221-240 | no base but the reason for it, the other sides and strategy, and conflicts flagged iff a non-empty file set is given |
| CodeReviewCommits.BaseXorReason | java/com/google/gerrit/server/git/CodeReviewCommit.java:176-241 | every setter records either a base or a no-base reason, never both and never neither |
| CodeReviewCommits.OrderCompare | java/com/google/gerrit/server/git/CodeReviewCommit.java:55-60 | the same commit (or two nulls) ties before anything is read, as `nullsFirst` checks identity first; otherwise a null commit sorts first, comparing two commits one of which has no patch set throws NullPointerException, and two others compare by the sign of their change ids |
| CodeReviewCommits.OrderIsStrictWeak | java/com/google/gerrit/server/git/CodeReviewCommit.java:55-60 | every commit ties with itself; where `ORDER` answers it is antisymmetric and transitive, and it ties exactly the same commit or two commits of one change |
| CodeReviewCommits.WriteStatusMessage | java/com/google/gerrit/server/git/CodeReviewCommit.java:277-284 | `writeUTF` fails exactly for a present message whose modified UTF-8 encoding exceeds 65535 bytes; otherwise at most one record after the default fields |
| CodeReviewCommits.StatusMessageSerialisationRoundTrip | java/com/google/gerrit/server/git/CodeReviewCommit.java:277-293 | whenever writing succeeds, reading back the serialised form restores the status message, present or absent |
| CodeReviewCommits.ModifiedUtf8Bounds | java/com/google/gerrit/server/git/CodeReviewCommit.java:281 | the modified UTF-8 length of a text lies between one and six bytes per character: every text of at most 10922 characters can be written, and none of more than 65535 |
| CodeReviewCommits.CodeReviewCommit.constructor | java/com/google/gerrit/server/git/CodeReviewCommit.java:122-154 | a new commit has no patch set, notes, status, status message, conflicts or conflict files |
| CodeReviewCommits.CodeReviewCommit.SetStatusCode | java/com/google/gerrit/server/git/CodeReviewCommit.java:164-166 | sets the status and nothing else |
| CodeReviewCommits.CodeReviewCommit.SetStatusMessage | java/com/google/gerrit/server/git/CodeReviewCommit.java:172-174 | `Optional.ofNullable`: null clears the message, and nothing else changes |
| CodeReviewCommits.CodeReviewCommit.SetNoConflictsForNonMergeCommit | java/com/google/gerrit/server/git/CodeReviewCommit.java:176-185 | records no sides, no strategy, reason NO_MERGE_PERFORMED and no conflicts, and nothing else changes |
| CodeReviewCommits.CodeReviewCommit.SetConflicts | java/com/google/gerrit/server/git/CodeReviewCommit.java:187-213 | records the merge's conflicts; the conflict files are replaced only by a non-empty set |
| CodeReviewCommits.CodeReviewCommit.SetConflictsBaseNotAvailable | java/com/google/gerrit/server/git/CodeReviewCommit.java:215-241 | records the conflicts without a base; the conflict files are replaced only by a non-empty set |
| CodeReviewCommits.CodeReviewCommit.GetFilesWithGitConflicts | java/com/google/gerrit/server/git/CodeReviewCommit.java:247-249 | the stored set, or the empty set while unset |
| CodeReviewCommits.CodeReviewCommit.ConflictsHaveFiles | java/com/google/gerrit/server/git/CodeReviewCommit.java:193-249 | whenever conflicts are flagged, some file with conflict markers is stored |
| CodeReviewCommits.CodeReviewCommit.SetPatchsetId | java/com/google/gerrit/server/git/CodeReviewCommit.java:255-257 | sets the patch set and nothing else |
| CodeReviewCommits.CodeReviewCommit.SetNotes | java/com/google/gerrit/server/git/CodeReviewCommit.java:273-275 | sets the notes and nothing else |
| CodeReviewCommits.CodeReviewCommit.CopyFrom | java/com/google/gerrit/server/git/CodeReviewCommit.java:259-263 | copies exactly the notes, patch set and status code of the source commit |
| CodeReviewCommits.ReadStatusMessage | java/com/google/gerrit/server/git/CodeReviewCommit.java:286-293 | readObject: the status message is the written record when one is there, otherwise absent; CodeReviewCommits.StatusMessageSerialisationRoundTrip proves reading back what writeObject wrote gives the same message |
| MergeUtil.ConflictMessageShape | java/com/google/gerrit/server/git/MergeUtil.java:589-601 | no files give exactly `merge conflict(s)`; otherwise the header, a colon, and one `* <file>` line per file in input order |
| MergeUtil.CreateConflictMessage | java/com/google/gerrit/server/git/MergeUtil.java:589-601 | the joiner loop builds exactly that message |
| MergeUtil.MergeStrategyName | java/com/google/gerrit/server/git/MergeUtil.java:1046-1068 | simple-two-way-in-core iff content merge is off; recursive iff content and recursive merge are on; resolve iff only content merge is on |
| MergeUtil.GetCommitMergeStatus | java/com/google/gerrit/server/git/MergeUtil.java:919-928 | PATH_CONFLICT exactly for conflicts during the merge-base calculation, MANUAL_RECURSIVE_MERGE for every other reason |
| MergeUtil.Truncate | java/com/google/gerrit/server/git/MergeUtil.java:363 | the subject is cut to at most 60 characters, keeping a prefix, and a short subject is kept whole |
| MergeUtil.PadRight | java/com/google/gerrit/server/git/MergeUtil.java:367-368 | `%-<w>s` keeps the text as a prefix and pads it with spaces to the width |
| MergeUtil.LabelsAligned | java/com/google/gerrit/server/git/MergeUtil.java:354-386 | with at least one non-empty name every label exists, starts with its name padded to the longest name followed by ` (`, and the ours label quotes its commit id and at most 60 characters of subject |
| MergeUtil.BaseLabelAligned | java/com/google/gerrit/server/git/MergeUtil.java:356-368 | the base label starts with the padded base name and ` (` |
| MergeUtil.OursLabelAligned | java/com/google/gerrit/server/git/MergeUtil.java:375-380 | the ours label starts with the padded ours name and ` (` |
| MergeUtil.TheirsLabelAligned | java/com/google/gerrit/server/git/MergeUtil.java:381-386 | the theirs label starts with the padded theirs name and ` (` |
| MergeUtil.NextEntry | java/com/google/gerrit/server/git/MergeUtil.java:424 | the next index after the group of entries sharing the path at `i` |
| MergeUtil.Collapsed | java/com/google/gerrit/server/git/MergeUtil.java:424-453 | the replacement of a conflicted group keeps its path at stage 0 |
| MergeUtil.CollapseOnlyStageZero | java/com/google/gerrit/server/git/MergeUtil.java:414-457 | the built index holds only stage-0 entries and is never longer than the original |
| MergeUtil.CollapseOfClean | java/com/google/gerrit/server/git/MergeUtil.java:416-422 | an index without conflicts is copied unchanged |
| MergeUtil.CollapseGroup | java/com/google/gerrit/server/git/MergeUtil.java:424-454 | a conflicted group becomes a single entry holding the merged blob when one was produced, the higher stage of a two-stage group, and the first stage otherwise |
| MergeUtil.CollapseStages | java/com/google/gerrit/server/git/MergeUtil.java:414-456 | the builder loop produces exactly the collapsed index |
| MergeUtil.QuotedTopics | java/com/google/gerrit/server/git/MergeUtil.java:1008-1013 | exactly the quoted non-empty topics of the merged changes |
| MergeUtil.FirstKeys | java/com/google/gerrit/server/git/MergeUtil.java:1020-1022 | the abbreviated keys of the first five changes, in order |
| MergeUtil.SummarizeOne | java/com/google/gerrit/server/git/MergeUtil.java:1002-1006 | a single merged commit is summarised as its quoted subject |
| MergeUtil.SummarizeTopics | java/com/google/gerrit/server/git/MergeUtil.java:1008-1019 | with topics, the summary lists them sorted, once each, and says `topics` only for more than one |
| MergeUtil.TopicsOrderFree | java/com/google/gerrit/server/git/MergeUtil.java:1008-1013 | the listed topics do not depend on the order of the merged commits |
| MergeUtil.SummarizeKeys | java/com/google/gerrit/server/git/MergeUtil.java:1020-1023 | without topics, at most five abbreviated keys, followed by `, ...` when more than five changes are merged |
| MergeUtil.NoTopics | java/com/google/gerrit/server/git/MergeUtil.java:1008-1013 | changes without topics contribute no topic |
| MergeUtil.MergeMessageRules | java/com/google/gerrit/server/git/MergeUtil.java:973-987 | the master branch gets no ` into` part, and a single merged change gets no change list |
| MergeUtil.MergedOfAppend | java/com/google/gerrit/server/git/MergeUtil.java:962-971 | one more walked commit adds itself to the merged changes iff it has a patch set, so they are the walked commits with a patch set, in walk order |
| MergeUtil.CollectMerged | java/com/google/gerrit/server/git/MergeUtil.java:962-971 | the walk loop collects exactly those commits |
| MergeUtil.AppendChangeLines | java/com/google/gerrit/server/git/MergeUtil.java:979-987 | the loop writes one indented subject line per merged change |
| MergeUtil.WriteMergeMessage | java/com/google/gerrit/server/git/MergeUtil.java:962-994 | the message built is the summary, the ` into` part and the change list of the walked commits |
| MergeUtil.ConflictMessage | java/com/google/gerrit/server/git/MergeUtil.java:589-601 | "merge conflict(s)", then for a non-empty file list a colon and one bullet line per file; `ConflictMessageShape` proves the bullet form |
| MergeUtil.Labels | java/com/google/gerrit/server/git/MergeUtil.java:354-386 | the three conflict-marker labels, each name padded to the longest name and followed by the commit name and its truncated subject, or the base's no-merge-base reason; None when every name is empty; `LabelsAligned` proves the alignment |
| MergeUtil.SortedTopics | java/com/google/gerrit/server/git/MergeUtil.java:1008-1013 | the quoted non-empty topics, once each, in natural order; `QuotedTopics` and `TopicsOrderFree` state their contents and that merge order does not matter |
| MergeUtil.Summarize | java/com/google/gerrit/server/git/MergeUtil.java:1001-1023 | one change: its quoted subject; with topics: the sorted topics, `topics` only for several; otherwise at most five abbreviated keys and `, ...` beyond five; proved as `SummarizeOne`, `SummarizeTopics` and `SummarizeKeys` |
| MergeUtil.MergeMessage | java/com/google/gerrit/server/git/MergeUtil.java:973-987 | the summary, ` into` the short branch name unless it is master, and for several changes the list of their subjects; `MergeMessageRules` proves it |
| MergeUtil.ShortName | java/com/google/gerrit/server/git/MergeUtil.java:976 | the branch name without refs/heads/; MergeUtil.MergeMessageRules proves the merge message names the target branch this way |
| FileList.DeltaInserted | polygerrit-ui/app/elements/change/gr-file-list/gr-file-list.ts:1901-1902 | the growth part of a binary size delta is never negative |
| FileList.DeltaDeleted | polygerrit-ui/app/elements/change/gr-file-list/gr-file-list.ts:1903-1904 | the shrink part of a binary size delta is never positive |
| FileList.ContributionSizes | polygerrit-ui/app/elements/change/gr-file-list/gr-file-list.ts:1897-1912 | a text file contributes no size and no size delta; a binary file's growth and shrink parts add up to its size delta |
| FileList.TotalAppend | polygerrit-ui/app/elements/change/gr-file-list/gr-file-list.ts:1897-1913 | the totals of two file lists concatenated are the sums of their totals, so the fold order does not matter |
| FileList.TotalSigns | polygerrit-ui/app/elements/change/gr-file-list/gr-file-list.ts:1897-1913 | summed inserted lines, deleted lines and sizes are non-negative, the summed growth non-negative and the summed shrink non-positive |
| FileList.HideTotals | polygerrit-ui/app/elements/change/gr-file-list/gr-file-list.ts:2282-2292 | the line totals are hidden exactly when no non-magic file inserts or deletes a line, the binary totals exactly when no non-magic binary file changes size |
| FileList.MagicPathsIgnored | polygerrit-ui/app/elements/change/gr-file-list/gr-file-list.ts:1893-1895 | prepending a magic path (commit message, merge list) leaves the totals unchanged |
| FileList.BinaryOnlySizes | polygerrit-ui/app/elements/change/gr-file-list/gr-file-list.ts:1892-1914 | `calculatePatchChange` never reports a negative growth or a positive shrink |
| FileList.SplitIsPermutation | polygerrit-ui/app/elements/change/gr-file-list/gr-file-list.ts:836-842 | the changed files followed by the unmodified files are a permutation of the files received |
| FileList.ModifiedOfModified | polygerrit-ui/app/elements/change/gr-file-list/gr-file-list.ts:836-841 | the two filters are idempotent and disjoint: filtering the changed files again keeps them all and finds no unmodified one, and vice versa |
| FileList.FilterStatus | polygerrit-ui/app/elements/change/gr-file-list/gr-file-list.ts:836-841 | every changed file has a status other than unmodified, every unmodified file has the unmodified status |
| FileList.ModifiedFirst | polygerrit-ui/app/elements/change/gr-file-list/gr-file-list.ts:836-842 | the shown list is a permutation of the received files whose changed files keep their order, come first, and whose unmodified files keep their order after them |
| FileList.PatchSetFileOf | polygerrit-ui/app/elements/change/gr-file-list/gr-file-list.ts:2130-2138 | the expanded file has the file's path, and a base path exactly when the file has a non-empty old path |
| FileList.IndexOfPath | polygerrit-ui/app/elements/change/gr-file-list/gr-file-list.ts:1933-1935 | -1 exactly when no expanded file has the path; otherwise the first index holding it |
| FileList.Toggled | polygerrit-ui/app/elements/change/gr-file-list/gr-file-list.ts:1933-1944 | a file whose path is not expanded is appended; otherwise one entry is removed |
| FileList.ToggleExpands | polygerrit-ui/app/elements/change/gr-file-list/gr-file-list.ts:1936-1938 | toggling a collapsed file expands its path and never expands a path twice |
| FileList.ToggleCollapses | polygerrit-ui/app/elements/change/gr-file-list/gr-file-list.ts:1939-1943 | toggling an expanded file collapses its path when no path was expanded twice |
| FileList.ToggleTwiceWhenCollapsed | polygerrit-ui/app/elements/change/gr-file-list/gr-file-list.ts:1930-1944 | expanding a collapsed file and toggling it again restores the expanded list exactly |
| FileList.ToggleTwiceWhenExpanded | polygerrit-ui/app/elements/change/gr-file-list/gr-file-list.ts:1930-1944 | collapsing an expanded file and toggling it again leaves the same set of paths expanded |
| FileList.NotYetExpandedFacts | polygerrit-ui/app/elements/change/gr-file-list/gr-file-list.ts:1965-1969 | each new entry of `expandAllDiffs` is a shown file not yet expanded, and every shown file not yet expanded gets an entry |
| FileList.ExpandAllProperties | polygerrit-ui/app/elements/change/gr-file-list/gr-file-list.ts:1964-1973 | afterwards every file among the first `numFilesShown` is expanded, the earlier expansions end the list in their old order, and no path is expanded twice |
| FileList.ComputeExpandedFiles | polygerrit-ui/app/elements/change/gr-file-list/gr-file-list.ts:2452-2459 | NONE exactly when nothing is expanded, ALL exactly when something is and the count equals the file count, SOME otherwise |
| FileList.Incremented | polygerrit-ui/app/elements/change/gr-file-list/gr-file-list.ts:2388-2393 | the shown count grows by the increment but never past the number of files |
| FileList.GrFileList.constructor | polygerrit-ui/app/elements/change/gr-file-list/gr-file-list.ts:263-266 | no files, nothing expanded, the default increment of 200 and nothing shown |
| FileList.GrFileList.SetFilesIncludingUnmodified | polygerrit-ui/app/elements/change/gr-file-list/gr-file-list.ts:832-844 | the changed and unmodified files are the two filters of the new list, the shown files are their concatenation, and nothing else changes |
| FileList.GrFileList.OnFilesChanged | polygerrit-ui/app/elements/change/gr-file-list/gr-file-list.ts:924-928 | every diff collapses and the shown count is the file count capped at 200; nothing else changes |
| FileList.GrFileList.OnPatchRangeChanged | polygerrit-ui/app/elements/change/gr-file-list/gr-file-list.ts:911-917 | the shown count returns to 200, the selection to the first file, and every diff collapses |
| FileList.GrFileList.ToggleFileExpanded | polygerrit-ui/app/elements/change/gr-file-list/gr-file-list.ts:1930-1944 | the expanded list becomes `Toggled` of the old one and nothing else changes |
| FileList.GrFileList.ExpandAllDiffs | polygerrit-ui/app/elements/change/gr-file-list/gr-file-list.ts:1964-1973 | the expanded list becomes the not yet expanded shown files followed by the old list; nothing else changes |
| FileList.GrFileList.CollapseAllDiffs | polygerrit-ui/app/elements/change/gr-file-list/gr-file-list.ts:1975-1978 | the expanded list is emptied and nothing else changes |
| FileList.GrFileList.FilesExpanded | polygerrit-ui/app/elements/change/gr-file-list/gr-file-list.ts:2452-2459 | the expansion state of the current lists, NONE exactly when nothing is expanded |
| FileList.GrFileList.IncrementNumFilesShown | polygerrit-ui/app/elements/change/gr-file-list/gr-file-list.ts:2388-2393 | the shown count becomes `Incremented` of the old one, so stays within the file count when it was, and nothing else changes |
| FileList.GrFileList.ShowAllFiles | polygerrit-ui/app/elements/change/gr-file-list/gr-file-list.ts:2427-2429 | every file is shown and nothing else changes |
| FileList.GrFileList.ReviewFile | polygerrit-ui/app/elements/change/gr-file-list/gr-file-list.ts:2017-2021 | no request in edit mode; otherwise a request for the path with the given flag, or the opposite of whether the path is already reviewed |
| FileList.CalculatePatchChange | polygerrit-ui/app/elements/change/gr-file-list/gr-file-list.ts:1892-1914 | the line and binary-size totals over the files that are not magic paths; FileList.MagicPathsIgnored, TotalSigns and BinaryOnlySizes prove magic paths never count, inserted and deleted sizes keep their signs and only binary files add sizes |
| FileList.ShouldHideChangeTotals | polygerrit-ui/app/elements/change/gr-file-list/gr-file-list.ts:2282-2284 | the line totals row is hidden when nothing was inserted or deleted; FileList.HideTotals proves this holds exactly when no counted file changes a line |
| FileList.ShouldHideBinaryChangeTotals | polygerrit-ui/app/elements/change/gr-file-list/gr-file-list.ts:2287-2292 | the binary totals row is hidden when both size deltas are zero; FileList.HideTotals proves this holds exactly when no counted binary file changes size |
| CommentThread.IndexOfComment | polygerrit-ui/app/elements/shared/gr-comment-thread/gr-comment-thread.js:552-561 | -1 exactly when no comment in the list has the same draft id or id; otherwise the first position that has |
| CommentThread.InitialStateRules | polygerrit-ui/app/elements/shared/gr-comment-thread/gr-comment-thread.js:330-343 | only a comment whose `collapsed` is unset is decided, and nothing else about it changes; a robot comment stays open; the last five of an unresolved thread stay open; every other comment of a resolved thread and every earlier human comment of an unresolved one is collapsed |
| CommentThread.InitialStateIdempotent | polygerrit-ui/app/elements/shared/gr-comment-thread/gr-comment-thread.js:330-343 | setting the initial expanded state a second time changes nothing |
| CommentThread.QuoteNewlines | polygerrit-ui/app/elements/shared/gr-comment-thread/gr-comment-thread.js:389 | replacing the newlines never shortens the message |
| CommentThread.QuoteRoundTrip | polygerrit-ui/app/elements/shared/gr-comment-thread/gr-comment-thread.js:389 | the newline prefixes can be removed again to give back the original message |
| CommentThread.QuoteLength | polygerrit-ui/app/elements/shared/gr-comment-thread/gr-comment-thread.js:389 | each newline adds the two characters of the `> ` prefix and no newline is added or lost |
| CommentThread.QuotedLinesPrefixed | polygerrit-ui/app/elements/shared/gr-comment-thread/gr-comment-thread.js:389 | every newline of the quoted text is followed by `> ` |
| CommentThread.GetSide | polygerrit-ui/app/elements/shared/gr-comment-thread/gr-comment-thread.js:487-490 | the side is PARENT exactly when the comment is on the parent |
| CommentThread.ComputeDisplayLine | polygerrit-ui/app/elements/shared/gr-comment-thread/gr-comment-thread.js:258-269 | `#` and the line when there is one; otherwise nothing for a patch-set level comment and FILE for a file comment without a range; `#` and the range's end line when there is a range |
| CommentThread.DisplayLineKinds | polygerrit-ui/app/elements/shared/gr-comment-thread/gr-comment-thread.js:258-269 | a display line is empty, FILE, or `#` followed by a number |
| CommentThread.ComputeRootId | polygerrit-ui/app/elements/shared/gr-comment-thread/gr-comment-thread.js:492-498 | the previous root id for an empty thread, else the first comment's id, or its draft id when it has no id |
| CommentThread.NewDraft | polygerrit-ui/app/elements/shared/gr-comment-thread/gr-comment-thread.js:444-485 | a fresh draft with only its draft id set; a reply copies the seven location keys from the root comment, a root draft takes the thread's path, patch set and comment side, PARENT or REVISION, and a line, range and parent only when they are given |
| CommentThread.NewReply | polygerrit-ui/app/elements/shared/gr-comment-thread/gr-comment-thread.js:428-438 | a draft replying to the given comment, holding the given message and resolved state |
| CommentThread.DraftUnresolved | polygerrit-ui/app/elements/shared/gr-comment-thread/gr-comment-thread.js:218 | a new draft is resolved only when told so explicitly |
| CommentThread.GrCommentThread.constructor | polygerrit-ui/app/elements/shared/gr-comment-thread/gr-comment-thread.js:78-160 | no comments, no root id, no last comment, no draft and no robot comment |
| CommentThread.GrCommentThread.UpdateThreadProperties | polygerrit-ui/app/elements/shared/gr-comment-thread/gr-comment-thread.js:280-287 | the last ordered comment gives the last comment, the resolved state, the draft flag and the robot flag; an empty ordered list changes none of them, and the comments, ordered comments and root id stay as they were |
| CommentThread.GrCommentThread.CommentsChanged | polygerrit-ui/app/elements/shared/gr-comment-thread/gr-comment-thread.js:275-278 | the comments stay; the ordered list is the sorted comments, the root id is recomputed (kept for an empty thread) and the properties follow the last ordered comment, keeping their values when there is none |
| CommentThread.GrCommentThread.SetInitialExpandedState | polygerrit-ui/app/elements/shared/gr-comment-thread/gr-comment-thread.js:330-343 | the ordered comments are left in their initial expanded state, as `InitialStateRules` describes, and nothing else changes |
| CommentThread.GrCommentThread.AddDraft | polygerrit-ui/app/elements/shared/gr-comment-thread/gr-comment-thread.js:215-220 | the draft `_newDraft` makes, in editing state and unresolved unless told otherwise, is appended; the thread is re-sorted, the root id recomputed and the last comment, resolved state, draft flag and robot flag follow the last ordered comment |
| CommentThread.GrCommentThread.AddOrEditDraft | polygerrit-ui/app/elements/shared/gr-comment-thread/gr-comment-thread.js:197-213 | a last comment that is a draft is reopened by its id or draft id and nothing in the thread changes; otherwise exactly the draft `addDraft` makes is appended, with the given range or else the last comment's (a reply takes the root's) and the last comment's resolved state, unresolved in an empty thread, and the thread is re-sorted, the root id recomputed and the last comment, resolved state, draft flag and robot flag follow the last ordered comment |
| CommentThread.GrCommentThread.CreateReplyComment | polygerrit-ui/app/elements/shared/gr-comment-thread/gr-comment-thread.js:345-375 | with no ordered comment the element throws and nothing changes; otherwise a reply to the last ordered comment is appended, marked when another comment is being edited, and the thread is re-sorted, the root id recomputed and the last comment, resolved state, draft flag and robot flag follow the last ordered comment |
| CommentThread.GrCommentThread.ProcessCommentReply | polygerrit-ui/app/elements/shared/gr-comment-thread/gr-comment-thread.js:384-392 | a missing last comment, quoting a missing message or an empty ordered list throws and nothing changes; otherwise an editing reply to the last comment is appended, with its quoted message when asked to quote, keeping its resolved state, and the thread is re-sorted, the root id recomputed and the last comment, resolved state, draft flag and robot flag follow the last ordered comment |
| CommentThread.GrCommentThread.HandleCommentFix | polygerrit-ui/app/elements/shared/gr-comment-thread/gr-comment-thread.js:410-416 | a comment without a message or an empty ordered list throws and nothing changes; otherwise a reply holding the quoted message and `Please fix.` is appended, leaving the thread unresolved, and the thread is re-sorted, the root id recomputed and the last comment, resolved state, draft flag and robot flag follow the last ordered comment |
| CommentThread.GrCommentThread.HandleCommentAckOrDone | polygerrit-ui/app/elements/shared/gr-comment-thread/gr-comment-thread.js:402-408 | an empty ordered list throws and nothing changes; otherwise a resolving reply `Ack` or `Done` is appended and the thread is re-sorted, the root id recomputed and the last comment, resolved state, draft flag and robot flag follow the last ordered comment |
| CommentThread.GrCommentThread.HandleCommentDiscard | polygerrit-ui/app/elements/shared/gr-comment-thread/gr-comment-thread.js:500-512 | a comment not in the thread is refused and nothing changes; otherwise the first comment that is the same comment is removed, the thread reports whether it became empty, and the thread is re-sorted, the root id recomputed and the last comment, resolved state, draft flag and robot flag follow the last ordered comment, the root id being kept when nothing is left |
| CommentThread.GrCommentThread.HandleCommentUpdate | polygerrit-ui/app/elements/shared/gr-comment-thread/gr-comment-thread.js:536-550 | found exactly when the thread holds the comment, otherwise nothing changes; then the first comment that is the same comment is replaced by it and, as setting the entry notifies the observers of `comments`, the thread is re-sorted, the root id recomputed and the last comment, resolved state, draft flag and robot flag follow the last ordered comment |
| CommentThread.DiscardLastKeepsRootId | polygerrit-ui/app/elements/shared/gr-comment-thread/gr-comment-thread.js:492-498 | discarding the only comment keeps the root id, so the thread can still be removed by it |
| CommentThread.Quote | polygerrit-ui/app/elements/shared/gr-comment-thread/gr-comment-thread.js:388-389 | the quoted reply text: a leading quote marker, every line break followed by one, and a blank line after; CommentThread.QuoteRoundTrip, QuoteLength and QuotedLinesPrefixed prove the message is recoverable, the length grows by two per line and every new line is prefixed |
| CommentThread.FixReply | polygerrit-ui/app/elements/shared/gr-comment-thread/gr-comment-thread.js:410-416 | the fix reply: the quoted message followed by Please fix.; the quoting is proved by the same lemmas as CommentThread.Quote |
| ProjectWatch.EnqueueSubgroups | java/com/google/gerrit/server/mail/send/ProjectWatch.java:211-215 | every subgroup of the expanded group not seen before is marked seen and queued once; no group is queued twice |
| ProjectWatch.VisitGroup | java/com/google/gerrit/server/mail/send/ProjectWatch.java:188-215 | an unknown group adds nothing; a group with an address adds only that address; a non-internal group adds nothing; an internal one adds its members and queues its unseen subgroups |
| ProjectWatch.ReachLeast | java/com/google/gerrit/server/mail/send/ProjectWatch.java:180-217 | the groups reachable from the start group form the least set holding it that contains the subgroups of each of its expandable groups |
| ProjectWatch.DeliverToMembers | java/com/google/gerrit/server/mail/send/ProjectWatch.java:180-217 | the walk ends with `seen` equal to the groups reachable from the start group, having taken each of them from the work list exactly once, and adds exactly their members and addresses |
| ProjectWatch.UnionMembers | java/com/google/gerrit/server/mail/send/ProjectWatch.java:124-131 | an account or address is in the union exactly when some of the lists holds it |
| ProjectWatch.Union | java/com/google/gerrit/server/mail/send/ProjectWatch.java:124-131 | the loop builds the union of the lists |
| ProjectWatch.AddToList | java/com/google/gerrit/server/mail/send/ProjectWatch.java:142-152 | the list a header names gains the new accounts and addresses and the other two lists stay as they were |
| ProjectWatch.Watchers.constructor | java/com/google/gerrit/server/mail/send/ProjectWatch.java:134-136 | to, cc and bcc start empty |
| ProjectWatch.Watchers.List | java/com/google/gerrit/server/mail/send/ProjectWatch.java:142-152 | TO gives `to`, CC gives `cc` and BCC gives `bcc` |
| ProjectWatch.Watchers.All | java/com/google/gerrit/server/mail/send/ProjectWatch.java:138-140 | an account or address is in `all()` exactly when it is in to, cc or bcc |
| ProjectWatch.Watchers.AddTo | java/com/google/gerrit/server/mail/send/ProjectWatch.java:170 | the list the header names gains the accounts and addresses; the others are unchanged |
| ProjectWatch.AddAccountWatch | java/com/google/gerrit/server/mail/send/ProjectWatch.java:220-246 | true exactly when the watch's filter matches for the account; the account is added to bcc only when, in addition, the watch covers the notify type; a filter that does not match or does not parse adds nothing |
| ProjectWatch.AddProjectWatches | java/com/google/gerrit/server/mail/send/ProjectWatch.java:76-83 | the account hit the project exactly when one of its watches of the project matches, and it is added to bcc exactly when one of those also covers the notify type |
| ProjectWatch.AddAllProjectsWatches | java/com/google/gerrit/server/mail/send/ProjectWatch.java:87-95 | an account that did not hit the project is added to bcc exactly when one of its All-Projects watches matches and covers the notify type; otherwise nothing changes |
| ProjectWatch.NotifiedIdsMembers | java/com/google/gerrit/server/mail/send/ProjectWatch.java:74-96 | an account is notified by the watches of a project exactly when it is not skipped and one of its watches of that project matches and covers the notify type |
| ProjectWatch.HitIdsMembers | java/com/google/gerrit/server/mail/send/ProjectWatch.java:74-84 | an account is among the project watchers exactly when one of its watches of the project matches |
| ProjectWatch.AllProjectsSuppressed | java/com/google/gerrit/server/mail/send/ProjectWatch.java:74-96 | an account is in bcc exactly when a watch of the project notifies it, or no watch of the project matched for it and an All-Projects watch notifies it |
| ProjectWatch.FailureStops | java/com/google/gerrit/server/mail/send/ProjectWatch.java:155-166 | once the filter fails to parse on a group, the groups after it add nothing |
| ProjectWatch.NotifyGroupsOnlyHeader | java/com/google/gerrit/server/mail/send/ProjectWatch.java:158-166 | a section only adds, and only to the list its header names |
| ProjectWatch.NotifyGroupsMembers | java/com/google/gerrit/server/mail/send/ProjectWatch.java:158-166 | without a parse failure, the header's list gains exactly the members of the groups reachable from the groups whose filter matched |
| ProjectWatch.DeliverGroup | java/com/google/gerrit/server/mail/send/ProjectWatch.java:161 | the members and addresses of the groups reachable from the group are added to the section's list |
| ProjectWatch.AddNotifyGroups | java/com/google/gerrit/server/mail/send/ProjectWatch.java:158-166 | the group loop adds the reachable members of each matching group in order and stops, reporting a failure, at a filter that does not parse |
| ProjectWatch.AddNotifyConfig | java/com/google/gerrit/server/mail/send/ProjectWatch.java:155-178 | the groups are added, then the addresses when there are any and the filter matches anonymously; a filter that does not parse ends the section, keeping what was already added |
| ProjectWatch.WatchesOnlyBcc | java/com/google/gerrit/server/mail/send/ProjectWatch.java:98-100 | without the notify sections, to and cc are empty, bcc holds no address and its accounts are those the two watch loops notify |
| ProjectWatch.SectionsOnlyAdd | java/com/google/gerrit/server/mail/send/ProjectWatch.java:102-114 | the notify sections only add to the lists the account watches left |
| ProjectWatch.AddProjectWatchers | java/com/google/gerrit/server/mail/send/ProjectWatch.java:74-84 | the first loop yields the project watchers and puts exactly the accounts its watches notify into bcc |
| ProjectWatch.AddAllProjectsWatchers | java/com/google/gerrit/server/mail/send/ProjectWatch.java:86-96 | the second loop adds to bcc exactly the accounts an All-Projects watch notifies, leaving out the project watchers |
| ProjectWatch.AddSections | java/com/google/gerrit/server/mail/send/ProjectWatch.java:102-114 | each section that notifies for the type is added in order; one whose filter fails is kept as far as it got |
| ProjectWatch.GetWatchers | java/com/google/gerrit/server/mail/send/ProjectWatch.java:69-117 | a fresh `Watchers` holding the two watch loops' bcc accounts and, when asked, the additions of the notify sections |
| ProjectWatch.Reach | java/com/google/gerrit/server/mail/send/ProjectWatch.java:180-217 | the groups reachable from the start group through the subgroups of internal groups without an address, defined apart from the work list; ProjectWatch.ReachLeast proves it is the least closed set holding the start group |
| ProjectWatch.MembersOf | java/com/google/gerrit/server/mail/send/ProjectWatch.java:202-210 | the members of the expanded groups of a set; ProjectWatch.DeliverToMembers proves the walk adds exactly these |
| ProjectWatch.EmailsOf | java/com/google/gerrit/server/mail/send/ProjectWatch.java:192-197 | the addresses of the groups of a set that have one; ProjectWatch.DeliverToMembers proves the walk adds exactly these |
| ProjectWatch.NotifiedIds | java/com/google/gerrit/server/mail/send/ProjectWatch.java:74-96 | the accounts whose watch of the project notifies for the type, except those skipped; ProjectWatch.NotifiedIdsMembers characterises membership |
| ProjectWatch.HitIds | java/com/google/gerrit/server/mail/send/ProjectWatch.java:74-84 | projectWatchers: the accounts with a matching watch of the project; ProjectWatch.HitIdsMembers characterises membership |
| ProjectWatch.WatchersOf | java/com/google/gerrit/server/mail/send/ProjectWatch.java:69-117 | what getWatchers returns; ProjectWatch.WatchesOnlyBcc proves that without the notify sections only the bcc list holds anyone, and only the accounts of the two watch loops, and ProjectWatch.GetWatchers computes it |
| ProjectWatch.NotifyGroups | java/com/google/gerrit/server/mail/send/ProjectWatch.java:158-166 | the group loop of a notify config, stopped by an invalid filter; ProjectWatch.FailureStops, NotifyGroupsOnlyHeader and NotifyGroupsMembers prove it stops at the failure, touches only its header and adds exactly the members of the groups reached |
| ProjectWatch.WatchBcc | java/com/google/gerrit/server/mail/send/ProjectWatch.java:74-96 | the bcc accounts of the project and all-projects watch loops; ProjectWatch.AllProjectsSuppressed proves an account is in them exactly when a project watch notifies it, or no project watch matched for it and an all-projects watch notifies it |
| NoteDbUpdates.GetAfterQueue | java/com/google/gerrit/server/notedb/NoteDbUpdateManager.java:387-389 | after a command is queued, the ref it names reads as its new id and every other ref reads as before |
| NoteDbUpdates.Put | java/com/google/gerrit/server/notedb/NoteDbUpdateManager.java:237 | putting into a multimap appends the value to its key's values and leaves the other keys alone |
| NoteDbUpdates.ExecutedRejects | java/com/google/gerrit/server/notedb/NoteDbUpdateManager.java:394-396 | once executed, adding an update, adding a draft update and deleting a change fail with `update has already been executed` and change nothing |
| NoteDbUpdates.OtherProjectRejected | java/com/google/gerrit/server/notedb/NoteDbUpdateManager.java:225-229 | an update for another project is refused with its message and changes nothing |
| NoteDbUpdates.SetChangeRepoOnce | java/com/google/gerrit/server/notedb/NoteDbUpdateManager.java:145-150 | a first repository is kept, and a second one is refused with `change repo already initialized` |
| NoteDbUpdates.AddRewriterKeepsValid | java/com/google/gerrit/server/notedb/NoteDbUpdateManager.java:239-251 | a delete rewriter is recorded exactly when its ref has neither an update nor a rewriter, and the ref discipline is kept |
| NoteDbUpdates.PutUpdateKeepsValid | java/com/google/gerrit/server/notedb/NoteDbUpdateManager.java:268 | recording an update keeps the ref discipline when its ref has no rewriter or no earlier update |
| NoteDbUpdates.AddKeepsRefsValid | java/com/google/gerrit/server/notedb/NoteDbUpdateManager.java:223-269 | `add` keeps the ref discipline (a rewritten ref has one rewriter and at most one update), also when it fails part-way |
| NoteDbUpdates.AddRejectsBothOrders | java/com/google/gerrit/server/notedb/NoteDbUpdateManager.java:230-266 | a successful `add` found no rewriter for the update's ref and neither an update nor a rewriter for the ref of either of its rewriters |
| NoteDbUpdates.EmptyOnlyWithoutWork | java/com/google/gerrit/server/notedb/NoteDbUpdateManager.java:202-209 | an empty manager never allows non-fast-forwards, and a manager with a change to delete or an update is not empty |
| NoteDbUpdates.RewriteTipsFirst | java/com/google/gerrit/server/notedb/NoteDbUpdateManager.java:408-416 | the first rewriter runs on the old tip and the rest on what it returns; a rewriter returning `null` keeps the tip and one that throws ends the rewrite |
| NoteDbUpdates.RewriteTipsAllKeep | java/com/google/gerrit/server/notedb/NoteDbUpdateManager.java:410-416 | rewriters that all return `null` keep the tip |
| NoteDbUpdates.RewriteRef | java/com/google/gerrit/server/notedb/NoteDbUpdateManager.java:401-406 | a ref with no value or the zero id fails with `Ref … is empty` |
| NoteDbUpdates.RewriteRefCommand | java/com/google/gerrit/server/notedb/NoteDbUpdateManager.java:401-423 | a successful rewrite had a non-zero old tip, and queues one command from the old tip to the new when the tip moved and none otherwise |
| NoteDbUpdates.AddRewrites | java/com/google/gerrit/server/notedb/NoteDbUpdateManager.java:398-425 | the loop rewrites each rewritten ref once, in the multimap's iteration order |
| NoteDbUpdates.RewriteAllFailed | java/com/google/gerrit/server/notedb/NoteDbUpdateManager.java:398-425 | a failure at one ref is the result of the whole rewrite: the refs after it are not rewritten |
| NoteDbUpdates.DeleteOne | java/com/google/gerrit/server/notedb/NoteDbUpdateManager.java:385-392 | a delete command from the meta ref's value to the zero id is queued only when the meta ref has a value; the change's drafts are always queued for deletion |
| NoteDbUpdates.DeletedMetaRefAbsent | java/com/google/gerrit/server/notedb/NoteDbUpdateManager.java:385-392 | a deleted change's meta ref reads as absent afterwards |
| NoteDbUpdates.DeleteChanges | java/com/google/gerrit/server/notedb/NoteDbUpdateManager.java:380-382 | each change to delete is deleted once, in the set's iteration order |
| NoteDbUpdates.RewritesAllowNonFastForward | java/com/google/gerrit/server/notedb/NoteDbUpdateManager.java:427-441 | a successful execution with rewriters or draft updates allows non-fast-forwards, marks the manager executed and closes the repository |
| NoteDbUpdates.NoteDbUpdateManager.constructor | java/com/google/gerrit/server/notedb/NoteDbUpdateManager.java:110-133 | no updates, draft updates, rewriters or changes to delete, no repository, not executed |
| NoteDbUpdates.NoteDbUpdateManager.IsEmpty | java/com/google/gerrit/server/notedb/NoteDbUpdateManager.java:202-209 | empty exactly when there are no updates, draft updates, rewriters, changes to delete, queued commands or queued draft work |
| NoteDbUpdates.NoteDbUpdateManager.AllowNonFastForwards | java/com/google/gerrit/server/notedb/NoteDbUpdateManager.java:439-441 | exactly when there are draft updates or rewriters |
| NoteDbUpdates.NoteDbUpdateManager.SetChangeRepo | java/com/google/gerrit/server/notedb/NoteDbUpdateManager.java:145-150 | the repository is set when none is open, and refused otherwise |
| NoteDbUpdates.NoteDbUpdateManager.Add | java/com/google/gerrit/server/notedb/NoteDbUpdateManager.java:223-269 | the checks run in the source's order, each failure keeps what was recorded before it, and the ref discipline is kept |
| NoteDbUpdates.NoteDbUpdateManager.AddDraft | java/com/google/gerrit/server/notedb/NoteDbUpdateManager.java:271-274 | the draft update is recorded under its storage key unless the manager was executed |
| NoteDbUpdates.NoteDbUpdateManager.DeleteChange | java/com/google/gerrit/server/notedb/NoteDbUpdateManager.java:276-279 | the change joins the changes to delete unless the manager was executed |
| NoteDbUpdates.NoteDbUpdateManager.Execute | java/com/google/gerrit/server/notedb/NoteDbUpdateManager.java:301-349 | refused once executed; an empty manager becomes executed with no result; otherwise the work is staged, the repository closed whatever happens, and the manager marked executed only when staging succeeded |
| NoteDbUpdates.NoteDbUpdateManager.Stage | java/com/google/gerrit/server/notedb/NoteDbUpdateManager.java:371-383 | the updates are added to the change repository, the draft updates handed to the draft executor, the rewriters applied and the changes deleted, in that order, stopping at the first failure |
| NoteDbUpdates.RewriteAll | java/com/google/gerrit/server/notedb/NoteDbUpdateManager.java:398-425 | addRewrites over the refs in order, stopping at the first failed rewrite; NoteDbUpdates.AddRewrites computes it and RewriteAllFailed proves a failure at any ref fails the whole |
| NoteDbUpdates.StageCommands | java/com/google/gerrit/server/notedb/NoteDbUpdateManager.java:371-383 | addCommands: the change updates, then the draft updates queued, then the rewrites, then the deletions, and the first failure returned; NoteDbUpdates.NoteDbUpdateManager.Execute is proved against it and RewritesAllowNonFastForward proves the staged batch allows non-fast-forwards |
| NoteDbUpdates.ExecuteNonEmpty | java/com/google/gerrit/server/notedb/NoteDbUpdateManager.java:301-349 | execute of a non-empty manager: open the repository when needed, choose the draft executor, stage, close the repository, and mark executed only on success; NoteDbUpdates.RewritesAllowNonFastForward proves the end state |
| NoteDbUpdates.AddChangeUpdate | java/com/google/gerrit/server/notedb/NoteDbUpdateManager.java:223-269 | the checks and the puts of add for one change update; NoteDbUpdates.ExecutedRejects, OtherProjectRejected and AddKeepsRefsValid prove it is refused once executed or for another project, and keeps every queued ref non-empty with at most one rewriter, and one update where a rewriter is queued |
| NoteDbUpdates.AddRewriter | java/com/google/gerrit/server/notedb/NoteDbUpdateManager.java:239-251 | the checks and the put of one delete rewriter; NoteDbUpdates.AddRewriterKeepsValid proves the ref state stays valid and only the rewriters change |
| NoteDbUpdates.RewriteTips | java/com/google/gerrit/server/notedb/NoteDbUpdateManager.java:408-416 | the rewriters of one ref applied left to right, none once one fails; NoteDbUpdates.RewriteTipsFirst and RewriteTipsAllKeep prove the step order and that rewriters keeping the tip keep it |
| NoteDbUpdates.DeleteAll | java/com/google/gerrit/server/notedb/NoteDbUpdateManager.java:380-392 | the deletion loop of addCommands, one change at a time in the given order; NoteDbUpdates.DeletedMetaRefAbsent proves a deleted change meta ref reads as absent |
| ChangeQuery.Lazyload | java/com/google/gerrit/server/query/change/ChangeData.java:545-548 | NoteDb may be read exactly when the constraint is not INDEX_ONLY |
| ChangeQuery.WithInsertions | java/com/google/gerrit/server/query/change/ChangeData.java:627-635 | after `setLinesInserted` the counts are known and hold the new insertion count |
| ChangeQuery.WithDeletions | java/com/google/gerrit/server/query/change/ChangeData.java:637-645 | after `setLinesDeleted` the counts are known and hold the new deletion count |
| ChangeQuery.SetterKeepsOtherCount | java/com/google/gerrit/server/query/change/ChangeData.java:627-645 | setting one count keeps the other when it is known and puts -1 there when it is not |
| ChangeQuery.SettersCompose | java/com/google/gerrit/server/query/change/ChangeData.java:623-645 | setting both counts one after the other, in either order and from any state, is `setChangedLines` |
| ChangeQuery.AccountCountIffDistinct | java/com/google/gerrit/server/query/change/ChangeData.java:968-969 | the distinct-account count equals the number of entries exactly when no account appears twice |
| ChangeQuery.FindPatchSet | java/com/google/gerrit/server/query/change/ChangeData.java:997-1002 | none exactly when no patch set has the id; otherwise the first one that has it |
| ChangeQuery.CachedPatchSetIsFound | java/com/google/gerrit/server/query/change/ChangeData.java:993-1003 | with unique ids, looking up a patch set's id finds that patch set |
| ChangeQuery.ScanPatchSets | java/com/google/gerrit/server/query/change/ChangeData.java:997-1002 | the loop finds the first patch set with the id |
| ChangeQuery.TakeUntil | java/com/google/gerrit/server/query/change/ChangeData.java:1407-1412 | the events before the first one by the owner: a prefix of the events that does not hold the owner |
| ChangeQuery.InsertionOrdered | java/com/google/gerrit/server/query/change/ChangeData.java:1405-1411 | a `LinkedHashSet` holds each event once and exactly the events added |
| ChangeQuery.ReviewedAfterNonOwner | java/com/google/gerrit/server/query/change/ChangeData.java:1398-1412 | a newest message by someone other than the owner adds its author and keeps the earlier reviewers |
| ChangeQuery.NoneReviewedAfterOwnerSpoke | java/com/google/gerrit/server/query/change/ChangeData.java:1398-1412 | when the newest message is the owner's, nobody has reviewed the change |
| ChangeQuery.ReviewedByMembers | java/com/google/gerrit/server/query/change/ChangeData.java:1389-1415 | an account reviewed the change exactly when it wrote a message after the owner's newest one; the owner never did, and no account is listed twice |
| ChangeQuery.CollectAuthors | java/com/google/gerrit/server/query/change/ChangeData.java:1398-1403 | the first loop collects the authors of the authored messages in message order |
| ChangeQuery.CollectUntil | java/com/google/gerrit/server/query/change/ChangeData.java:1405-1412 | the second loop collects each author once, newest first, stopping at the owner |
| ChangeQuery.ChangeData.constructor | java/com/google/gerrit/server/query/change/ChangeData.java:403-434 | every cached value unloaded, the notes not loaded and the constraint NOTEDB_ONLY |
| ChangeQuery.ChangeData.SetStorageConstraint | java/com/google/gerrit/server/query/change/ChangeData.java:535-538 | only the constraint changes |
| ChangeQuery.ChangeData.IsLazyload | java/com/google/gerrit/server/query/change/ChangeData.java:545-548 | true exactly when the constraint is not INDEX_ONLY |
| ChangeQuery.ChangeData.Notes | java/com/google/gerrit/server/query/change/ChangeData.java:805-815 | succeeds exactly when the notes were loaded before or NoteDb may be read, else `StorageException("ChangeNotes not available, lazyLoad = false")` with nothing changed; the first load drops the cached patch sets and current patch set |
| ChangeQuery.AfterNotes | java/com/google/gerrit/server/query/change/ChangeData.java:805-815 | after `notes()` the notes are loaded; a first load leaves the patch sets unloaded and no current patch set, a later one changes nothing, and no other field changes |
| ChangeQuery.WithPatchSets | java/com/google/gerrit/server/query/change/ChangeData.java:978-984 | after a successful `patchSets()` the patch sets are loaded and hold what it returned; cached ones change nothing |
| ChangeQuery.NotesLoadIsIdempotent | java/com/google/gerrit/server/query/change/ChangeData.java:805-815 | a second `notes()` changes nothing, and once `patchSets()` has answered, asking again answers with the same patch sets whatever storage now holds |
| ChangeQuery.PatchSetsFailOnlyIndexOnly | java/com/google/gerrit/server/query/change/ChangeData.java:805-808 | `patchSets()` throws exactly when neither the patch sets nor the notes are loaded and the constraint is INDEX_ONLY |
| ChangeQuery.ChangeData.GetChangedLines | java/com/google/gerrit/server/query/change/ChangeData.java:613-621 | cached counts are returned unchanged; without them nothing is returned or cached when NoteDb may not be read; otherwise the diff's counts are cached and returned |
| ChangeQuery.ChangeData.SetChangedLines | java/com/google/gerrit/server/query/change/ChangeData.java:623-625 | the counts become the two given |
| ChangeQuery.ChangeData.SetLinesInserted | java/com/google/gerrit/server/query/change/ChangeData.java:627-635 | the counts become `WithInsertions` of the old ones and nothing else changes |
| ChangeQuery.ChangeData.SetLinesDeleted | java/com/google/gerrit/server/query/change/ChangeData.java:637-645 | the counts become `WithDeletions` of the old ones and nothing else changes |
| ChangeQuery.ChangeData.SetNoChangedLines | java/com/google/gerrit/server/query/change/ChangeData.java:647-649 | the counts become known to be absent |
| ChangeQuery.ChangeData.GetAttentionSet | java/com/google/gerrit/server/query/change/ChangeData.java:930-938 | the cached set is returned; without one, the empty set when NoteDb may not be read, otherwise the stored set, read through `notes()` (whose first load drops the cached patch sets and current patch set) and then cached |
| ChangeQuery.ChangeData.SetAttentionSet | java/com/google/gerrit/server/query/change/ChangeData.java:963-976 | accepted exactly when no account appears twice, then stored; otherwise an `IllegalStateException` with the duplicate-update message, leaving the field unchanged |
| ChangeQuery.ChangeData.GetPatchSets | java/com/google/gerrit/server/query/change/ChangeData.java:978-984 | the cached patch sets; otherwise those read from storage through `notes()`, which are then cached; `StorageException` exactly when neither the patch sets nor the notes are loaded and the constraint is INDEX_ONLY |
| ChangeQuery.ChangeData.SetPatchSets | java/com/google/gerrit/server/query/change/ChangeData.java:986-989 | the patch sets are replaced and the cached current patch set dropped |
| ChangeQuery.ChangeData.GetCurrentPatchSet | java/com/google/gerrit/server/query/change/ChangeData.java:818-832 | the cached one; otherwise nothing for an unknown change, the `StorageException` of `patchSets()` when it throws, or the first patch set with the change's current id, then cached |
| ChangeQuery.ChangeData.PatchSetById | java/com/google/gerrit/server/query/change/ChangeData.java:993-1003 | the cached current patch set when it has the id, else the first loaded patch set with it, or the `StorageException` of `patchSets()`; any result has the id, and with unique ids the one found is the stored patch set |
| ChangeQuery.ChangeData.IsMerge | java/com/google/gerrit/server/query/change/ChangeData.java:1327-1334 | unknown exactly when neither a cached nor a loaded parent count exists; otherwise whether the commit has more than one parent, the loaded count being cached |
| ChangeQuery.ChangeData.GetReviewedBy | java/com/google/gerrit/server/query/change/ChangeData.java:1389-1415 | the cached reviewers; nothing when NoteDb may not be read or the change is unknown; otherwise the accounts that wrote after the owner's newest message, newest first, which are then cached after the messages are read through `notes()` |
| ChangeQuery.ChangeData.IsReviewedBy | java/com/google/gerrit/server/query/change/ChangeData.java:1385-1387 | membership in what `reviewedBy()` returns |
| ChangeQuery.ChangeData.SetReviewedBy | java/com/google/gerrit/server/query/change/ChangeData.java:1417-1419 | the reviewers become the given set |
| ChangeQuery.ReviewedByOf | java/com/google/gerrit/server/query/change/ChangeData.java:1395-1412 | the authors of the messages after the owner newest one, newest first and each once; ChangeQuery.ReviewedByMembers proves membership both ways, that the owner is absent and that nobody is listed twice |
| ChangeControls.OnlyIdentifiedOwnerIsOwner | java/com/google/gerrit/server/permissions/ChangeControl.java:145-151 | a user owns the change exactly when it is an identified user whose account is the change's owner |
| ChangeControls.NonIdentifiedNeverOwner | java/com/google/gerrit/server/permissions/ChangeControl.java:145-151 | a user that is not identified never owns the change, so only an admin edits custom keyed values and adding a patch set needs CREATE_CHANGE plus the ref's add-patch-set right |
| ChangeControls.VisibilityRules | java/com/google/gerrit/server/permissions/ChangeControl.java:81-87 | a change is visible with READ on the ref, and a private one only when in addition the user is project admin, owner, reviewer, may view private changes, or is internal |
| ChangeControls.RestoreImpliesAbandon | java/com/google/gerrit/server/permissions/ChangeControl.java:118-121 | restoring is allowed exactly to those who may abandon and have CREATE_CHANGE on the ref |
| ChangeControls.AddPatchSetNeedsCreateChange | java/com/google/gerrit/server/permissions/ChangeControl.java:134-142 | adding a patch set always needs CREATE_CHANGE; with it the owner needs nothing more and anyone else needs the ref's add-patch-set right |
| ChangeControls.ClosedChangeEditing | java/com/google/gerrit/server/permissions/ChangeControl.java:163-192 | on a change that is not new nobody edits the description and the topic is editable only through the forced-edit right |
| ChangeControls.LabelValueRule | java/com/google/gerrit/server/permissions/ChangeControl.java:334-340 | on behalf of someone a value is refused when the range is empty or misses it; for oneself it is accepted exactly when the range holds it, so an empty range still accepts 0 |
| ChangeControls.AcceptedMembers | java/com/google/gerrit/server/permissions/ChangeControl.java:279-288 | a permission is in the accepted set exactly when it was asked for and is allowed |
| ChangeControls.AcceptedStep | java/com/google/gerrit/server/permissions/ChangeControl.java:282-286 | each step of the test loop adds the permission when allowed, and its label name to the names asked |
| ChangeControls.ForChange.constructor | java/com/google/gerrit/server/permissions/ChangeControl.java:250-254 | a new backend holds the given control and an empty label cache |
| ChangeControls.ForChange.Label | java/com/google/gerrit/server/permissions/ChangeControl.java:342-352 | the range answered is the one getRange gives, and the cache maps the permission to it afterwards |
| ChangeControls.ForChange.CanDo | java/com/google/gerrit/server/permissions/ChangeControl.java:295-340 | the answer is the permission rule for a change permission, a label or a label value; only a label's name is added to the cache |
| ChangeControls.ForChange.Check | java/com/google/gerrit/server/permissions/ChangeControl.java:268-276 | succeeds exactly when the permission is allowed, and otherwise fails with the description, "not permitted" and the hint in parentheses when there is one |
| ChangeControls.ForChange.Test | java/com/google/gerrit/server/permissions/ChangeControl.java:279-288 | returns exactly the asked permissions that are allowed, and caches the range of every label asked |
| ChangeControls.IsOwner | java/com/google/gerrit/server/permissions/ChangeControl.java:145-151 | the user is identified and its account owns the change; `OnlyIdentifiedOwnerIsOwner` and `NonIdentifiedNeverOwner` prove that no other user is ever the owner |
| ChangeControls.IsReviewer | java/com/google/gerrit/server/permissions/ChangeControl.java:154-160 | the user is identified and its account is among the change's reviewers |
| ChangeControls.IsPrivateVisible | java/com/google/gerrit/server/permissions/ChangeControl.java:210-248 | a private change is visible to a project admin, the owner, a reviewer, a holder of VIEW_PRIVATE_CHANGES and the internal user, tried in that order; `VisibilityRules` states the result |
| ChangeControls.IsVisible | java/com/google/gerrit/server/permissions/ChangeControl.java:81-87 | a private change the user may not see privately is hidden; otherwise READ on the ref decides; `VisibilityRules` states both cases |
| ChangeControls.CanAbandon | java/com/google/gerrit/server/permissions/ChangeControl.java:89-96 | the change owner, a ref owner, a project owner, a holder of ABANDON or a project admin may abandon |
| ChangeControls.CanRebaseOnBehalfOfUploader | java/com/google/gerrit/server/permissions/ChangeControl.java:103-115 | the owner, a user who may submit or one who may rebase; the uploader's own rights are not checked here |
| ChangeControls.CanRebase | java/com/google/gerrit/server/permissions/ChangeControl.java:97-101 | rebasing on behalf of the uploader is allowed and the user may create changes on the ref |
| ChangeControls.CanRestore | java/com/google/gerrit/server/permissions/ChangeControl.java:117-121 | whoever may abandon may restore, provided they may create changes; proved as `RestoreImpliesAbandon` |
| ChangeControls.CanRevert | java/com/google/gerrit/server/permissions/ChangeControl.java:123-126 | REVERT on the ref and the right to create changes |
| ChangeControls.CanAddPatchSet | java/com/google/gerrit/server/permissions/ChangeControl.java:133-142 | needs the right to create changes; then the owner always may and others need ADD_PATCH_SET; proved as `AddPatchSetNeedsCreateChange` |
| ChangeControls.CanEditTopicName | java/com/google/gerrit/server/permissions/ChangeControl.java:163-173 | on an open change the owner, a ref or project owner, a holder of EDIT_TOPIC_NAME or an admin; on a closed one only a forced edit; `ClosedChangeEditing` states the closed case |
| ChangeControls.CanToggleWorkInProgressState | java/com/google/gerrit/server/permissions/ChangeControl.java:176-181 | the owner, a project owner, a holder of TOGGLE_WORK_IN_PROGRESS_STATE or an admin |
| ChangeControls.CanEditDescription | java/com/google/gerrit/server/permissions/ChangeControl.java:184-192 | only on an open change, by the owner, a ref or project owner or an admin; never on a closed change, as `ClosedChangeEditing` proves |
| ChangeControls.CanEditHashtags | java/com/google/gerrit/server/permissions/ChangeControl.java:195-202 | the owner, a ref or project owner, a holder of EDIT_HASHTAGS or an admin |
| ChangeControls.CanEditCustomKeyedValues | java/com/google/gerrit/server/permissions/ChangeControl.java:205-208 | the owner or a project admin; for a user who is not identified only an admin, as `NonIdentifiedNeverOwner` proves |
| ChangeControls.CanChange | java/com/google/gerrit/server/permissions/ChangeControl.java:306-328 | each change permission is dispatched to its own rule; DELETE for an admin or by the ref's delete rule, SUBMIT by the ref's submit rule, REMOVE_REVIEWER and SUBMIT_AS by the named permission |
| ChangeControls.Can | java/com/google/gerrit/server/permissions/ChangeControl.java:295-340 | a change permission is decided by `CanChange`, a label by a non-empty range, a label value by membership in the range, refused for an empty range on behalf of another user; `LabelValueRule` states the label cases |
| ChangeControls.NotPermittedMessage | java/com/google/gerrit/server/permissions/ChangeControl.java:268-276 | the refusal text: the permission's description, " not permitted", and the hint in parentheses when there is one |
| ChangeControls.Accepted | java/com/google/gerrit/server/permissions/ChangeControl.java:279-288 | the permissions of the list that `Can` accepts; `AcceptedMembers` proves that membership is exactly being listed and accepted |
| ListProjects.QueryShape | java/com/google/gerrit/server/restapi/project/ListProjectsImpl.java:279-303 | the index query is refused exactly when both a prefix and a substring are given; otherwise it is empty exactly when no state, prefix or substring is given, and the clauses come as state, prefix, substring joined by AND |
| ListProjects.ListProjectsImpl.ToQuery | java/com/google/gerrit/server/restapi/project/ListProjectsImpl.java:279-303 | the query the options are expressed as, with the refusal for prefix plus substring |
| ListProjects.SubstringMatches | java/com/google/gerrit/server/restapi/project/ListProjectsImpl.java:626-630 | a name is kept exactly when its lower-cased form contains the lower-cased substring |
| ListProjects.ScanOptions | java/com/google/gerrit/server/restapi/project/ListProjectsImpl.java:622-649 | two or more of prefix, substring and regex are refused with "specify exactly one of p/m/r"; with none every cached name is scanned, and with only a substring the case-insensitive matches |
| ListProjects.ProjectStatesOf | java/com/google/gerrit/server/restapi/project/ListProjectsImpl.java:569-586 | every candidate kept is a cached project for a scanned name that passes the permission check |
| ListProjects.AdmitsRules | java/com/google/gerrit/server/restapi/project/ListProjectsImpl.java:392-407 | a hidden project is admitted only with `all` or the HIDDEN state asked for, and a state filter admits only projects in that state |
| ListProjects.AdmittedOf | java/com/google/gerrit/server/restapi/project/ListProjectsImpl.java:389-407 | the admitted candidates are candidates that pass the state, hidden and group filters, and no more than were scanned |
| ListProjects.AdmittedPrefix | java/com/google/gerrit/server/restapi/project/ListProjectsImpl.java:389-407 | filtering a prefix of the candidates gives a prefix of the filtered list |
| ListProjects.Window | java/com/google/gerrit/server/restapi/project/ListProjectsImpl.java:414-422 | the candidates processed are the admitted ones after the first `start`, at most `limit` of them when the limit is positive, and all the rest otherwise |
| ListProjects.WindowAtLimit | java/com/google/gerrit/server/restapi/project/ListProjectsImpl.java:417-422 | once `start + limit` admitted candidates are seen, further ones leave the window unchanged and mark that more projects exist |
| ListProjects.PseudonymInjective | java/com/google/gerrit/server/restapi/project/ListProjectsImpl.java:562 | two hidden-parent pseudonyms "?-n" are equal only for equal numbers |
| ListProjects.HiddenInsert | java/com/google/gerrit/server/restapi/project/ListProjectsImpl.java:560-564 | giving a new inaccessible parent the next number keeps the numbering 1 to n without gaps |
| ListProjects.ParentNameGrows | java/com/google/gerrit/server/restapi/project/ListProjectsImpl.java:548-567 | naming a parent only adds to the hidden names, and an inaccessible parent gets the pseudonym of the number it holds |
| ListProjects.ParentNameKeepsValid | java/com/google/gerrit/server/restapi/project/ListProjectsImpl.java:548-567 | naming a parent keeps the hidden-name numbering valid |
| ListProjects.AddParentProjectInfo | java/com/google/gerrit/server/restapi/project/ListProjectsImpl.java:548-620 | the parent field and the hidden names are those of the naming rule, and the access cache only holds answers of the access check |
| ListProjects.HasValidRef | java/com/google/gerrit/server/restapi/project/ListProjectsImpl.java:697-704 | true exactly when some branch ref is present |
| ListProjects.BranchesOf | java/com/google/gerrit/server/restapi/project/ListProjectsImpl.java:528-538 | every branch reported is a requested branch whose ref is present, mapped to that ref's object id |
| ListProjects.AddProjectBranchesInfo | java/com/google/gerrit/server/restapi/project/ListProjectsImpl.java:528-538 | the branch map built by the loop is the one of the requested branches with a present ref |
| ListProjects.CheckRepo | java/com/google/gerrit/server/restapi/project/ListProjectsImpl.java:437-464 | a project is dropped when branches are asked and the repository is missing, does not match the filter type or has no valid ref, or when the filter type needs the repository and it is missing or does not match |
| ListProjects.ProcessAllValid | java/com/google/gerrit/server/restapi/project/ListProjectsImpl.java:424-430 | the hidden-name numbering stays valid while projects are processed |
| ListProjects.ProcessAllShape | java/com/google/gerrit/server/restapi/project/ListProjectsImpl.java:424-470 | at most one output entry per processed project, none of them flagged as followed by more |
| ListProjects.ProcessAllEntries | java/com/google/gerrit/server/restapi/project/ListProjectsImpl.java:424-470 | every output entry is a processed project kept by the repository checks, with the parent it was named and its description, state and branches |
| ListProjects.HiddenGrows | java/com/google/gerrit/server/restapi/project/ListProjectsImpl.java:548-567 | the hidden names only grow while the window is processed |
| ListProjects.ParentPseudonymStable | java/com/google/gerrit/server/restapi/project/ListProjectsImpl.java:556-565 | with the tree shown, an entry whose parent is inaccessible gets the pseudonym that parent keeps for the rest of the listing |
| ListProjects.ParentPseudonymsDistinct | java/com/google/gerrit/server/restapi/project/ListProjectsImpl.java:556-565 | two entries get the same hidden-parent pseudonym exactly when their inaccessible parents are the same |
| ListProjects.ListedAdmitted | java/com/google/gerrit/server/restapi/project/ListProjectsImpl.java:389-470 | every listed project is a candidate that passed the state, hidden and group filters |
| ListProjects.ListedWithinLimit | java/com/google/gerrit/server/restapi/project/ListProjectsImpl.java:414-422 | at most `limit` projects are listed when the limit is positive |
| ListProjects.ListedMoreFlag | java/com/google/gerrit/server/restapi/project/ListProjectsImpl.java:417-422 | only the last listed project can carry the more-projects flag, and only when a further admitted project exists |
| ListProjects.Finalize | java/com/google/gerrit/server/restapi/project/ListProjectsImpl.java:486-489 | the keys stay the same, every entry gets its encoded name as id and loses its name |
| ListProjects.AllWithStateRejected | java/com/google/gerrit/server/restapi/project/ListProjectsImpl.java:372-374 | `all` together with a state is refused before anything is scanned |
| ListProjects.ProcessCandidate | java/com/google/gerrit/server/restapi/project/ListProjectsImpl.java:424-471 | one window entry is processed as the listing rule says: parent named, repository checked, output entry written when kept |
| ListProjects.PageStep | java/com/google/gerrit/server/restapi/project/ListProjectsImpl.java:389-484 | one round of the loop keeps the loop invariant, or stops with the complete listing when the limit is passed |
| ListProjects.ListPage | java/com/google/gerrit/server/restapi/project/ListProjectsImpl.java:379-484 | the output of the display loop is the listing of the admitted candidates in the window, with the more-projects flag |
| ListProjects.ListProjectsImpl.constructor | java/com/google/gerrit/server/restapi/project/ListProjectsImpl.java:175-187 | no branches, no tree, filter type ALL, no description, not all, no state, limit and start 0, no match options, no group |
| ListProjects.ListProjectsImpl.AddShowBranch | java/com/google/gerrit/server/restapi/project/ListProjectsImpl.java:116-118 | appends the branch to the requested branches and changes no other option |
| ListProjects.ListProjectsImpl.SetShowTree | java/com/google/gerrit/server/restapi/project/ListProjectsImpl.java:121-123 | sets only the tree option |
| ListProjects.ListProjectsImpl.SetFilterType | java/com/google/gerrit/server/restapi/project/ListProjectsImpl.java:126-128 | sets only the filter type |
| ListProjects.ListProjectsImpl.SetShowDescription | java/com/google/gerrit/server/restapi/project/ListProjectsImpl.java:131-133 | sets only the description option |
| ListProjects.ListProjectsImpl.SetAll | java/com/google/gerrit/server/restapi/project/ListProjectsImpl.java:136-138 | sets only the `all` option |
| ListProjects.ListProjectsImpl.SetState | java/com/google/gerrit/server/restapi/project/ListProjectsImpl.java:141-143 | sets only the state filter |
| ListProjects.ListProjectsImpl.SetLimit | java/com/google/gerrit/server/restapi/project/ListProjectsImpl.java:146-148 | sets only the limit |
| ListProjects.ListProjectsImpl.SetStart | java/com/google/gerrit/server/restapi/project/ListProjectsImpl.java:151-153 | sets only the start |
| ListProjects.ListProjectsImpl.SetMatchPrefix | java/com/google/gerrit/server/restapi/project/ListProjectsImpl.java:156-158 | sets only the prefix |
| ListProjects.ListProjectsImpl.SetMatchSubstring | java/com/google/gerrit/server/restapi/project/ListProjectsImpl.java:161-163 | sets only the substring |
| ListProjects.ListProjectsImpl.SetMatchRegex | java/com/google/gerrit/server/restapi/project/ListProjectsImpl.java:166-168 | sets only the regex |
| ListProjects.ListProjectsImpl.SetGroupUuid | java/com/google/gerrit/server/restapi/project/ListProjectsImpl.java:171-173 | sets only the group filter |
| ListProjects.ListProjectsImpl.Display | java/com/google/gerrit/server/restapi/project/ListProjectsImpl.java:370-506 | the JSON listing is the refusal of `all` with a state, the empty listing for an invisible group, a scan refusal, or the finalised listing of the permitted, admitted candidates in the window |
| ListProjects.QueryOf | java/com/google/gerrit/server/restapi/project/ListProjectsImpl.java:279-303 | toQuery: an error when both a prefix and a substring are given, otherwise the state, prefix and substring clauses joined by AND; its cases are proved in ListProjects.QueryShape |
| ListProjects.Scan | java/com/google/gerrit/server/restapi/project/ListProjectsImpl.java:622-649 | scan: an error for two or more match options, otherwise the names by prefix, by substring, by regex or all of them; its cases are proved in ListProjects.ScanOptions |
| ListProjects.ParentName | java/com/google/gerrit/server/restapi/project/ListProjectsImpl.java:548-567 | addParentProjectInfo naming: the parent name when accessible, else a stable pseudonym, with a new number for a new parent; ListProjects.ParentNameGrows and ParentNameKeepsValid prove the naming state only grows and stays injective |
| ListProjects.RepoCheck | java/com/google/gerrit/server/restapi/project/ListProjectsImpl.java:437-464 | the repository checks of display: a project is skipped when its repository is missing or has no branch the filter needs, else its branches are kept; ListProjects.CheckRepo computes it |
| ListProjects.ProcessAll | java/com/google/gerrit/server/restapi/project/ListProjectsImpl.java:424-470 | the window processed in order; ListProjects.ProcessAllValid, ProcessAllShape and ProcessAllEntries prove the naming state stays valid, at most one entry per candidate and each entry built from its candidate |
| ListProjects.Listed | java/com/google/gerrit/server/restapi/project/ListProjectsImpl.java:389-484 | the output map of display; ListProjects.ListedAdmitted, ListedWithinLimit and ListedMoreFlag prove every entry is admitted, at most limit entries and the more-projects flag only on the last when a further candidate exists |
| ListProjects.ProcessOne | java/com/google/gerrit/server/restapi/project/ListProjectsImpl.java:424-470 | one window entry: its parent is named, and it enters the output unless a repository check skips it; ListProjects.ProcessAllEntries proves every output entry is built from its candidate this way |
| DiffOperations.DiffBaseSelection | java/com/google/gerrit/server/patch/DiffOperationsImpl.java:519-568 | an explicit parent is diffed against that parent, or the root when it cannot be resolved; otherwise a root commit against the root, one parent against it, two against the auto-merge, more against the first parent with files skipped; only an unresolved base without an explicit parent is refused |
| DiffOperations.CacheKeyDefaults | java/com/google/gerrit/server/patch/DiffOperationsImpl.java:396-415 | a file-diff key keeps the project, commits, path, algorithm and timeout it is given, uses the rename score 60, and ignores no whitespace unless a setting is given |
| DiffOperations.KeysShape | java/com/google/gerrit/server/patch/DiffOperationsImpl.java:255-297 | the commit message key comes first, the merge list key second exactly for an auto-merge or a merge diffed against a parent, then one key per modified file in order unless files are skipped, all with the default algorithm, the timeout and the two commits |
| DiffOperations.GetModifiedFilesKeys | java/com/google/gerrit/server/patch/DiffOperationsImpl.java:258-296 | the key list built by appending is the one the key rule names |
| DiffOperations.FallbackKeyShape | java/com/google/gerrit/server/patch/DiffOperationsImpl.java:327-340 | a retried key differs from the original only in using the no-fallback algorithm without a timeout |
| DiffOperations.Kept | java/com/google/gerrit/server/patch/DiffOperationsImpl.java:325-348 | the results kept from the first lookup are non-negative results of requested keys |
| DiffOperations.Retried | java/com/google/gerrit/server/patch/DiffOperationsImpl.java:325-348 | every requested key is kept or retried, and the retried keys are the fallback keys of negative results |
| DiffOperations.FallbackOnce | java/com/google/gerrit/server/patch/DiffOperationsImpl.java:319-350 | every key yields exactly one result, its first result when that is not negative and else the result of its fallback key |
| DiffOperations.Entries | java/com/google/gerrit/server/patch/DiffOperationsImpl.java:357-371 | the entries put into the map are exactly the included outputs, each under its path, and the build fails with "No value present" exactly when an included output lacks that path |
| DiffOperations.BuildMap | java/com/google/gerrit/server/patch/DiffOperationsImpl.java:372 | a map built from the entries holds exactly their keys, each with its value, or it is refused as holding duplicate keys |
| DiffOperations.BuildMapRefusesDuplicates | java/com/google/gerrit/server/patch/DiffOperationsImpl.java:372 | the map is refused exactly when two entries share a key |
| DiffOperations.MapByFilePathContents | java/com/google/gerrit/server/patch/DiffOperationsImpl.java:357-373 | a built map holds exactly the outputs that are not empty and not skipped as all due to a rebase, each under its path |
| DiffOperations.MapByFilePathKeys | java/com/google/gerrit/server/patch/DiffOperationsImpl.java:353-373 | a deleted file is keyed by its old path and any other by its new path, and no empty output appears |
| DiffOperations.CollectEntries | java/com/google/gerrit/server/patch/DiffOperationsImpl.java:361-371 | the builder loop puts the entries the mapping rule names |
| DiffOperations.BuildMapOf | java/com/google/gerrit/server/patch/DiffOperationsImpl.java:372 | the build of the collected entries is the map the building rule gives |
| DiffOperations.GetModifiedFilesForKeys | java/com/google/gerrit/server/patch/DiffOperationsImpl.java:317-351 | the result is the path map of the results of one lookup whose negative results are retried once with their fallback keys |
| DiffOperations.GetModifiedFiles | java/com/google/gerrit/server/patch/DiffOperationsImpl.java:247-301 | the modified files are looked up under the key list of the diff parameters and mapped by path |
| DiffOperations.ListModifiedFilesAgainstParent | java/com/google/gerrit/server/patch/DiffOperationsImpl.java:117-135 | a base that cannot be chosen is refused; otherwise the files are listed against the chosen base |
| DiffOperations.ListModifiedFiles | java/com/google/gerrit/server/patch/DiffOperationsImpl.java:161-172 | the files between the two commits are listed as against another patch set |
| DiffOperations.GetModifiedFileForKey | java/com/google/gerrit/server/patch/DiffOperationsImpl.java:303-310 | the diff of the key's path when the lookup maps one, and else the empty diff of that path between the key's commits |
| DiffOperations.SingleFileLookup | java/com/google/gerrit/server/patch/DiffOperationsImpl.java:303-351 | a single-file lookup retries a negative result once, and maps the result under its path unless it is dropped |
| DiffOperations.GetModifiedFile | java/com/google/gerrit/server/patch/DiffOperationsImpl.java:228-245 | one file between the two commits, looked up with the default algorithm, the timeout and the caller's whitespace |
| DiffOperations.GetModifiedFileAgainstParent | java/com/google/gerrit/server/patch/DiffOperationsImpl.java:195-225 | a base that cannot be chosen is refused; otherwise one file between the chosen base and the new commit |
| DiffOperations.ComputeDiffParameters | java/com/google/gerrit/server/patch/DiffOperationsImpl.java:519-568 | `computeDiffParameters`: an explicit parent compares against that parent, or the root when its base is missing; a root commit against the root; one parent against it; a merge of more than two parents against its first parent with files skipped; two parents against the auto-merge; an unresolved base is `NO_BASE_COMMIT`; `DiffBaseSelection` states every case |
| DiffOperations.CreateFileDiffCacheKey | java/com/google/gerrit/server/patch/DiffOperationsImpl.java:396-415 | a key holding the given commits, path, algorithm and timeout, rename score 60, and whitespace ignoring none unless given; proved as `CacheKeyDefaults` |
| DiffOperations.KeysFor | java/com/google/gerrit/server/patch/DiffOperationsImpl.java:255-297 | the commit-message key, then the merge-list key for merges, then one key per modified file unless files are skipped; `KeysShape` and `GetModifiedFilesKeys` state the layout |
| DiffOperations.FallbackKey | java/com/google/gerrit/server/patch/DiffOperationsImpl.java:327-340 | the key retried after a negative result: the same key with the fallback algorithm and no timeout, as `FallbackKeyShape` proves; `FallbackOnce` proves each key yields one result |
| DiffOperations.AllDueToRebase | java/com/google/gerrit/server/patch/DiffOperationsImpl.java:375-379 | every edit is due to a rebase and the file is neither renamed nor copied |
| DiffOperations.IsMergeAgainstParent | java/com/google/gerrit/server/patch/DiffOperationsImpl.java:381-384 | a comparison against a parent of a commit with more than one parent |
| DiffOperations.MapByFilePath | java/com/google/gerrit/server/patch/DiffOperationsImpl.java:357-373 | the included outputs keyed by path: `No value present` when one lacks its path, a duplicate key refused; `MapByFilePathContents` and `MapByFilePathKeys` prove the contents |
| DiffOperations.WithFallback | java/com/google/gerrit/server/patch/DiffOperationsImpl.java:255-297 | the kept results, then those of the fallback lookup, which are not retried; DiffOperations.FallbackOnce proves one result per key, each the first result or its fallback, and that every non-negative first result is kept |
| ChangeIndexing.SliceCountIsCeiling | java/com/google/gerrit/server/index/change/AllChangesIndexer.java:451-454 | an empty project gets no slice, and otherwise the slice count is the change count divided by 1000, rounded up |
| ChangeIndexing.SlicesPartition | java/com/google/gerrit/server/index/change/AllChangesIndexer.java:324-328 | with Java's remainder, a non-negative change id is picked up by exactly one slice, its id modulo the slice count, and a negative id by no slice other than 0 |
| ChangeIndexing.SlicesOf | java/com/google/gerrit/server/index/change/AllChangesIndexer.java:465-473 | a project is split into as many slices as its slice count |
| ChangeIndexing.SubmitSlices | java/com/google/gerrit/server/index/change/AllChangesIndexer.java:465-474 | the loop submits slices 0 up to the slice count, each with the project's name, the count and its changes |
| ChangeIndexing.ScheduleAllFacts | java/com/google/gerrit/server/index/change/AllChangesIndexer.java:400-488 | every submitted slice belongs to a readable project that was scheduled, with the slice count of its size and a number below it; every slice of every readable project is submitted; no more projects fail than were scheduled |
| ChangeIndexing.ScheduleSlices | java/com/google/gerrit/server/index/change/AllChangesIndexer.java:400-437 | the projects outside the skip set are read in order, the slices of each readable one are submitted and its changes counted, the unreadable ones counted; scheduling is refused when more than half the projects failed |
| ChangeIndexing.SkippedNeverScheduled | java/com/google/gerrit/server/index/change/AllChangesIndexer.java:401-431 | no project in the skip set gets a slice, and scheduling is refused exactly when more than half of the remaining projects failed |
| ChangeIndexing.AbortThreshold | java/com/google/gerrit/server/index/change/AllChangesIndexer.java:428-431 | when every project can be read scheduling goes ahead, and when none of at least one can it is refused |
| ChangeIndexing.TooManyFailedIsPercentage | java/com/google/gerrit/server/index/change/AllChangesIndexer.java:251-255 | the integer test of ten failed changes in a hundred agrees with the percentage on reals when there are changes, and is false when there are none, as the comparison with NaN is |
| ChangeIndexing.IndexAllResult | java/com/google/gerrit/server/index/change/AllChangesIndexer.java:228-263 | a refused schedule gives a failed result with no counts; otherwise the counts, with success exactly when nothing failed while waiting and at most a tenth of the changes failed |
| ChangeIndexing.SliceCount | java/com/google/gerrit/server/index/change/AllChangesIndexer.java:451-454 | the number of slices of a project: none when empty, otherwise the change count divided by a thousand rounded up; ChangeIndexing.SliceCountIsCeiling proves the bounds |
| ChangeIndexing.InSlice | java/com/google/gerrit/server/index/change/AllChangesIndexer.java:327 | a change belongs to a slice when Java remainder of its id by the slice count is the slice number; ChangeIndexing.SlicesPartition proves every non-negative id falls into exactly one slice |
| ChangeIndexing.Scheduled | java/com/google/gerrit/server/index/change/AllChangesIndexer.java:400-437 | schedule: refused with the abort message when more than half of the projects failed to read, otherwise the slices of every read project; ChangeIndexing.AbortThreshold and ScheduleAllFacts prove both |
| ChangeIndexing.TooManyFailed | java/com/google/gerrit/server/index/change/AllChangesIndexer.java:251-255 | the index is not ready when more than ten percent of the changes failed; ChangeIndexing.TooManyFailedIsPercentage proves the integer rule equals the percentage rule |
| ChangeIndexing.ScheduleAll | java/com/google/gerrit/server/index/change/AllChangesIndexer.java:400-437 | the projects read in order: a failed read is counted, a read project adds its change count and all its slices; ChangeIndexing.ScheduleAllFacts proves every slice belongs to a read project and every read project has all its slices |
| PatchSetProtos.ToProto | java/com/google/gerrit/entities/converter/PatchSetProtoConverter.java:41-60 | id, commit, uploader, real uploader and creation time in milliseconds are always written; branch, push certificate, description and conflicts keep their presence; the groups are written exactly when there are some |
| PatchSetProtos.FromProto | java/com/google/gerrit/entities/converter/PatchSetProtoConverter.java:63-109 | a missing uploader reads as account 0, a missing real uploader as the uploader, a missing commit as the zero id, a missing creation time as the epoch; the groups are empty exactly when the proto has none; the optional fields keep their presence |
| PatchSetProtos.RoundTrip | java/com/google/gerrit/entities/converter/PatchSetProtoConverter.java:41-109 | a patch set whose creation time is a whole number of milliseconds and whose groups hold no comma reads back unchanged from its proto |
| PatchSetProtos.RoundTripLosses | java/com/google/gerrit/entities/converter/PatchSetProtoConverter.java:48-68 | a creation time finer than a millisecond is lost: one nanosecond after the epoch reads back as the epoch |
| PatchSetProtos.ProtoRoundTrip | java/com/google/gerrit/entities/converter/PatchSetProtoConverter.java:41-109 | a proto with every field a patch set always has is written back unchanged, its groups string included |
| PatchSetProtos.Sentinels | java/com/google/gerrit/entities/converter/PatchSetProtoConverter.java:91-106 | a proto holding only an id reads as the zero commit, account 0 for both uploaders, the epoch and no groups |
| PatchSetProtos.JoinGroups | java/com/google/gerrit/entities/converter/PatchSetProtoConverter.java:50-53 | the groups written as one comma-separated field, taken as the behaviour of a helper outside the converter; PatchSetProtos.RoundTrip proves splitting gives them back when no group holds a comma |
| PatchSetProtos.SplitGroups | java/com/google/gerrit/entities/converter/PatchSetProtoConverter.java:67-68 | the groups field split at every comma, taken as the behaviour of a helper outside the converter; PatchSetProtos.RoundTrip proves it inverts the join |
| ChangeFiles.Dispatch | java/com/google/gerrit/server/restapi/change/Files.java:150-196 | options that conflict are refused with the combine message, and a parent listing is only ever produced for a parent number between 1 and the revision's parent count |
| ChangeFiles.DispatchPrecedence | java/com/google/gerrit/server/restapi/change/Files.java:150-196 | without a conflict, the reviewed flag wins, then the query, then the base, then a non-zero parent (refused outside 1 to the parent count), and otherwise the files against the revision's own base |
| ChangeFiles.NegativeParent | java/com/google/gerrit/server/restapi/change/Files.java:198-215 | a negative parent number is not counted by the option check, so another option then wins, and alone it is refused as an invalid parent number |
| ChangeFiles.ListFiles.CheckOptions | java/com/google/gerrit/server/restapi/change/Files.java:198-215 | refuses with the combine message exactly when two or more of base, positive parent, reviewed and query are given |
| ChangeFiles.ListFiles.Apply | java/com/google/gerrit/server/restapi/change/Files.java:150-196 | the listing answered is the one the dispatch rule chooses for the view's options |
| ChangeFiles.ListFiles.constructor | java/com/google/gerrit/server/restapi/change/Files.java:103-113 | a new view has no base, parent 0, no reviewed flag and no query |
| ChangeFiles.ListFiles.SetReviewed | java/com/google/gerrit/server/restapi/change/Files.java:144-147 | sets only the reviewed flag |
| ChangeFiles.Matching | java/com/google/gerrit/server/restapi/change/Files.java:217-237 | the matches are walked paths that contain the query, and every walked path containing it is among them |
| ChangeFiles.QueryResult | java/com/google/gerrit/server/restapi/change/Files.java:217-237 | the first matches in walk order, each containing the query: all of them when there are no more than 20, otherwise exactly the first 20 |
| ChangeFiles.MatchingPrefix | java/com/google/gerrit/server/restapi/change/Files.java:229-234 | the matches of a prefix of the walk start the matches of the whole walk |
| ChangeFiles.Query | java/com/google/gerrit/server/restapi/change/Files.java:217-237 | the walk stopping at 20 paths returns the first twenty matches |
| ChangeFiles.CarriedOver | java/com/google/gerrit/server/restapi/change/Files.java:266-339 | a path is carried over exactly when some walked entry with that path was reviewed and is identical in both patch sets, or deleted from both while identical in their parents |
| ChangeFiles.Copy | java/com/google/gerrit/server/restapi/change/Files.java:311-333 | the walk collects exactly the carried-over paths, in walk order |
| ChangeFiles.CopyKeepsReviewedOnly | java/com/google/gerrit/server/restapi/change/Files.java:266-339 | only files marked reviewed before carry over |
| ChangeFiles.Reviewed | java/com/google/gerrit/server/restapi/change/Files.java:239-264 | refused with "Authentication required" exactly for a user that is not identified; nothing when no files were marked; the stored files when they were marked in this patch set; otherwise nothing without a diff, or exactly the marked files that carry over along the walk |
| ServerInfo.ToBoolean | java/com/google/gerrit/server/restapi/config/GetServerInfo.java:401-404 | true is kept and false becomes null, so no field ever holds false |
| ServerInfo.ToBooleanRoundTrip | java/com/google/gerrit/server/restapi/config/GetServerInfo.java:401-404 | a client reading a missing field as false gets the original value back |
| ServerInfo.TrimTrailingSlashes | java/com/google/gerrit/server/restapi/config/GetServerInfo.java:314 | the result is a prefix of the value that does not end in a slash, and only slashes were removed |
| ServerInfo.GetDocUrl | java/com/google/gerrit/server/restapi/config/GetServerInfo.java:308-315 | no URL exactly when the setting is missing or empty, and otherwise the value with its trailing slashes replaced by one |
| ServerInfo.DocUrlShape | java/com/google/gerrit/server/restapi/config/GetServerInfo.java:308-315 | a configured URL ends in exactly one slash, keeps the start of the value, and normalising it again changes nothing |
| ServerInfo.IsOffSpelling | java/com/google/gerrit/server/restapi/config/GetServerInfo.java:357-361 | a listen address is off exactly when its lower-case form is "off", "none" or "no" |
| ServerInfo.IsOffExamples | java/com/google/gerrit/server/restapi/config/GetServerInfo.java:357-361 | "OFF", "None" and "no" are off; "offline", "*:29418" and the empty string are not |
| ServerInfo.GetSshdInfo | java/com/google/gerrit/server/restapi/config/GetServerInfo.java:348-355 | the SSH daemon info is left out exactly when the only listen address is off |
| ServerInfo.SshdInfoKept | java/com/google/gerrit/server/restapi/config/GetServerInfo.java:348-355 | no address at all, or "off" among several addresses, keeps the SSH daemon info; a single "Off" drops it |
| ServerInfo.MetaLessAsymmetric | java/com/google/gerrit/server/restapi/config/GetServerInfo.java:393-397 | no two metadata entries each sort before the other |
| ServerInfo.MetaLessTransitive | java/com/google/gerrit/server/restapi/config/GetServerInfo.java:393-397 | the metadata order, by name and then by value with null as empty, is transitive |
| ServerInfo.NotMetaLessTransitive | java/com/google/gerrit/server/restapi/config/GetServerInfo.java:393-397 | not sorting before is transitive, so the order is a total preorder |
| ServerInfo.InsertMetadata | java/com/google/gerrit/server/restapi/config/GetServerInfo.java:393-398 | inserting an entry adds exactly that entry |
| ServerInfo.InsertMetadataSorted | java/com/google/gerrit/server/restapi/config/GetServerInfo.java:393-398 | inserting into a sorted list keeps it sorted |
| ServerInfo.SortMetadata | java/com/google/gerrit/server/restapi/config/GetServerInfo.java:393-398 | the sort is a permutation of its input |
| ServerInfo.SortMetadataSorted | java/com/google/gerrit/server/restapi/config/GetServerInfo.java:393-398 | the sort's result is ordered by name and then value |
| ServerInfo.GetMetadata | java/com/google/gerrit/server/restapi/config/GetServerInfo.java:389-399 | the entries of all providers, in provider order, sorted and with none lost or added |
| ServerInfo.GetAuthInfo | java/com/google/gerrit/server/restapi/config/GetServerInfo.java:179-220 | the type, editable fields, switch-account URL, Git basic-auth policy and token lifetime are copied; contributor agreements are listed exactly when they are used and there are some; register and full-name URLs only for LDAP and custom extensions, the HTTP password URL only for custom extensions, login URL and text only for HTTP |
| ServerInfo.OtherAuthTypesFillNothing | java/com/google/gerrit/server/restapi/config/GetServerInfo.java:217 | the remaining authentication types fill in none of the per-type URLs |
| ServerInfo.EqualsIgnoreCase | java/com/google/gerrit/server/restapi/config/GetServerInfo.java:357-361 | equality ignoring the case of ASCII letters, as the listen-address test uses it; ServerInfo.IsOffExamples shows accepted spellings |
| ServerInfo.IsOff | java/com/google/gerrit/server/restapi/config/GetServerInfo.java:357-361 | a listen address of off, none or no in any letter case turns the SSH daemon off; ServerInfo.IsOffSpelling and IsOffExamples prove which spellings count |
| ServerInfo.MetaLess | java/com/google/gerrit/server/restapi/config/GetServerInfo.java:393-397 | metadata sorts by name, then by value; ServerInfo.MetaLessAsymmetric and MetaLessTransitive prove it is a strict order |

## Left out

- Git and repository I/O, the JGit merge and diff calls, caches, Guice wiring, REST plumbing, logging and metrics. Their results are parameters of the operations that use them.
- Concurrency: the executors, futures, atomic counters and progress monitors of the indexer, and asynchronous saving in the UI. Each is sequential or a parameter.
- Floating point: the file list's size-bar layout and percentage formatting. The indexer's percentage is stated on integers; the lemma `ChangeIndexing.TooManyFailedIsPercentage` relates it to the real-valued ratio.
- Platform-dependent date code: `formatDate` (locale), `utcOffsetString`, `isWithinDay` and `wasYesterday` (host time zone).
- UI rendering, DOM events, cursors, diff loading and REST calls of the file list, the comment thread, the watched-projects editor and the change view.
- Change.java: the `Change` entity's other getters and setters are plain field access and are not modelled. `RefNames` constants and `PatchSet.Id.fromRef` are parameters.
- ChangeView.ChangeViewModel.ForceLoad: the `setTimeout`-based two-phase reload is modelled as an explicit queue of pending timers that `FireTimer` drains. Real time is not modelled.
- ChangeView: `getPatchRangeExpression`, `encodeURL` and `getBaseUrl` are parameters. base/model.ts is not part of this model, so `setState` is taken as a synchronous delivery of every state to subscribers. JavaScript reference equality of states is modelled as value equality.
- DateUtil.DurationYearMonths: for 720 to 749 days the text reads "1 year 12 m". This is the code as written, stated as a lemma.
- AuthTokens: the hashing of new tokens and the Git commit of `onSave` are left out. Instants are integers, and their formatting and parsing are parameters assumed to round-trip.
- WatchedProjects: JavaScript reference equality of entries is modelled as value equality. `loadData` and `save` are REST calls and are represented by the loaded lists.
- CodeReviewCommits: the JGit `RevCommit` part of the commit is not modelled.
- MergeUtil: the merge itself, `canMerge`, `canFastForward` and `findUnmergedChanges` are left out. `DirCache.nextEntry` is defined by its contract. With every name empty the label width is 0, `%-0s` is not a valid format, and `Labels` returns None.
- FileList: `isMagicPath` and `toggleSet` are parameters. The size-bar layout is floating point and is left out.
- CommentThread.GrCommentThread: the comment objects are values, so the by-reference sharing that `_handleCommentUpdate`'s explicit `updateThreadProperties` call guards against is not captured; the update is modelled as notifying the observers of `comments`. A throw (a comment outside the thread on discard, a TypeError on a reply with nothing to reply to or no message to quote) is an outcome under which nothing changes. Local-storage drafts, saving and the events fired are left out.
- ReviewInputs.ReviewInput.Valid: `workInProgress` and `ready` both set is excluded as an invariant kept by the model's setters; the field comments call both set an error, but the fields are public and nothing in `ReviewInput` itself rejects it, so an input built without the setters can break `Valid`.
- ProjectWatch: `filterMatch`, the query parsing and the group backend are parameters. NotifyConfig.java is not part of this model; its notify types take Gerrit's names. Logging of invalid filters is left out.
- NoteDbUpdates: ChainedReceiveCommands is not part of this model. The newest queued command for a ref decides its value, and a zero new id means absent. The executors, dry run, ref log, push certificate, metrics and attention-set updates of `execute` are left out. The open repositories' `addUpdates` is a parameter. Hash iteration order is an explicit enumeration.
- ChangeQuery: loads from notes, the diff and the repository are parameters. The notes themselves are a loaded flag: their first load drops the cached patch sets and current patch set, and under `INDEX_ONLY` it is the `StorageException`. `loadCommitData`'s other side effects and the other lazily loaded fields are not modelled.
- ChangeQuery.ChangeData.GetChangedLines: the diff summary is a parameter. The current-patch-set and notes loads that `computeChangedLines` triggers are not modelled, so this getter leaves the patch-set caches as they were.
- ChangeQuery.ChangeData.IsMerge: the commit's parent count is a parameter. The current-patch-set and notes loads that `loadCommitData` triggers are not modelled, so this getter leaves the patch-set caches as they were.
- ChangeQuery.ChangeData.GetCurrentPatchSet: the change is the `currentId` parameter. When `change()` loads the change itself it also loads the notes; that load is not modelled.
- ChangeQuery.ChangeData.GetReviewedBy: the messages are a parameter, taken as read through `notes()` on first use; a cached message list is not modelled.
- ChangeControls: PermissionRange.java is not part of this model; an empty range is taken as minimum and maximum both zero. `testCond`, `resourcePath` and the exceptions for unsupported permissions are left out. The exception text hooks are parameters of `Check`.
- ListProjects: the text and tree output, the index-query path (`applyAsQuery`, `printQueryResults`, `expressAsProjectsQuery`) and web links are left out. The permission check, URL encoding and the branch-ref lookups are parameters. Hidden parents' pseudonyms are stored as their numbers and rendered "?-" plus the number.
- ListProjects.ListPage: as in the source, a candidate that the repository checks later drop still uses up the limit. Its more-projects flag is then lost.
- DiffOperations: `loadModifiedFiles*IfNecessary`, `loadModifiedFilesWithoutCacheIfNecessary` and `toMap` are left out. ComparisonType, BaseCommitUtil, FileDiffOutput and DiffOptions are not part of this model and are reduced to the fields used. A missing base commit is the error `NO_BASE_COMMIT`. IOException and DiffNotAvailableException are not modelled, and the caches are parameters.
- ChangeIndexing: `reuseExistingDocuments`, the project-slice creator with cleanup and the error listeners are left out. Failures while waiting are folded into one `waitOk` flag. The abort message keeps its literal `%%`, as written.
- PatchSetProtos: PatchSet.java is not part of this model. `joinGroups` is taken to join with commas and `splitGroups` to split at every comma; this is an assumption, and `RoundTrip` requires groups without commas so it does not depend on what `joinGroups` does with them. An `Instant` is a count of nanoseconds, and `toEpochMilli` rounds down without the overflow check. The id, commit id and account sub-converters are taken as identity, and a missing id reads as the default instance.
- ChangeFiles: revision parsing, file info JSON, the caching header, the `markReviewed` write, `PathFilterGroup` and the tree walk itself are left out; the walk is a parameter. A patch set whose diff cannot be loaded is the absent walk.
- ChangeFiles.Reviewed: returns the carried-over files as a set, not in walk order.
- ServerInfo: the account, change, plugin, theme, suggest, user, receive and dashboard parts are left out. AuthType.java and MetadataInfo.java are not part of this model. `Duration.toMinutes` is a given number, and `agreementJson.format` is a parameter. `equalsIgnoreCase` is ASCII-only.
- ServerInfo.SortMetadata: proved to be a sorted permutation. It is not proved stable.
- Change.IsNumeric: accepts only '0' to '9'. Java's `Character.isDigit` also accepts the other Unicode decimal digits, such as Arabic-Indic ones, which the model rejects.
- Change.FromAllUsersRef: inherits the ASCII-only digit test of `IsNumeric`. A ref like `refs/starred-changes/45/12345/` followed by Arabic-Indic digits gives id 12345 in Java and None in the model.
- Change.AllUsersIdAfterShape: states its shape with ASCII digits only, for the same reason.
- Change.FromAllUsersRefShape: characterises the result under the same ASCII-only digit test.
- ListProjects.SubstringMatches: lower-cases ASCII letters only. `toLowerCase(Locale.US)` also lower-cases other letters, so Java keeps a project named "Ärger" for the substring "är" and the model drops it.
- Strings are sequences of Unicode scalar values and compare by code point. Java's `compareTo`, `length` and `substring` and JavaScript's `<`, `>` and `sort` work on UTF-16 code units. The two orders differ only between a character from U+E000 to U+FFFF and a character above U+FFFF. The members below inherit this.
- ChangeView.RunsText: sorts the run names by code point, where `sort()` compares UTF-16 code units.
- WatchedProjects.NewProjectIndex: finds the insertion point by code-point order, where `>` compares UTF-16 code units. `WatchedProjects.SortsAfter` is the same comparison.
- MergeUtil.Truncate: cuts at 60 characters, where `substring(0, 60)` cuts at 60 UTF-16 code units. The two differ when a character above U+FFFF comes early in the text, and Java can then split a surrogate pair.
- MergeUtil.SummarizeTopics: sorts topics by code point, where `ImmutableSortedSet` sorts by `compareTo`.
- ServerInfo.GetMetadata: sorts by code point, where the source sorts with `compareTo`. `ServerInfo.SortMetadata` and `ServerInfo.MetaLess` follow the same order.
- CommentThread.GrCommentThread.SetInitialExpandedState: the source sets `collapsed` on comment objects that the `comments` array also holds. The model treats comments as values, so that aliasing is not captured: `comments` is stated unchanged and the expanded state lives only in the ordered comments.
