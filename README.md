# Digital-signage player: scheduler and ad provider, modelled in Dafny

This project models the two parts of the signage player that make decisions.

The playback scheduler (`app/player.tsx`) decides which ad of each group
plays, which ads are passed over with a `skipped` log, when a group has
finished, and when the screen switches between the ad lists and the widget
rotation. Its admission rules are modelled too: the weekday table, the
overall campaign window, the daily hour:minute window that may wrap past
midnight, and `adNotActive`.

The ad provider (`context/AdContext.tsx`) covers:
- sorting the ads into play groups and widgets;
- the sequential cache loop that turns media URLs into local files;
- the pull of the campaign list with its fallback to the persisted
  snapshot and its 10-second retry;
- the push path that accepts campaigns from the socket.

Clock, weekday and fetch outcome are inputs. The file system is a value: a
set of existing paths, a log of downloads, and a finite script of download
outcomes.

Files and modules:

- `types.dfy` (`Types`): ads, their configuration, the clock (`Now`, `DateTime`), log events and the persisted snapshot.
- `schedule.dfy` (`Schedule`): `adCanPlayToday`, `adCanPlayNow` and `adNotActive`, with the lemmas that characterise them.
- `rotation.dfy` (`Rotation`): `usePlayingAds` for one group. The class `PlayerView` holds the group, the index, the log and the timer. The method `ScanForward` is moveToNextAd's `while` loop. The view's methods are each proved against the functions `FirstMarked` and `SkipLogs` for one step. The step methods `FireStep` and `EffectStep` also keep "log so far + rest of the pass = `PassTrace`". `PlayPass` mounts a view and drives it through a whole pass; its log is proved equal to `PassTrace`, the value-level trace whose shape `FullPassTrace` states. `SetSequence` replaces the group under a mounted view, since the views are keyed by their position in the list of groups.
- `screen.dfy` (`Screen`): `useAds`' `emptyContent`, and the `Widgets` interval tick with its closed form. The class `Display` combines PlayerList's counter, the widget index and the player/widget view. `Render` is what the player route draws.
- `classify.dfy` (`Classify`): `filteredAds`, proved equal to filters of the input and shown to partition the ads that have a view.
- `cache.dfy` (`Cache`):
  - the file name `split("/").pop()` and the local path;
  - `Pass`, the value-level definition of one cache loop;
  - `RetryUntilCached`, the retry of `cacheAds`;
  - the class `Device` (the file system and downloader);
  - `RunPass`, the `for` loop, proved equal to `Pass`.
- `provider.dfy` (`AdContext`): the class `AdProvider` with `setReceivedAds`, `cacheAdsInBackground`, `cacheAds`, `fetchAds`, the mount effect and the retry timer. The URL-rewriting functions and the substitution count have lemmas of their own.

Places where the code does something other than its names or comments suggest; the model follows the code:
- `adNotActive`, despite its name and its comment about the overall time window, is not an expiry test. It returns `false` outside that window and `undefined` inside it, so `!adNotActive(ad)` always holds and an expired ad is not passed over silently. The scan therefore logs `skipped` for every inadmissible ad, expired or not. The effect's `adNotActive` branch never runs.
- Widgets are chosen by `adId` alone: the ads whose `adId` is `"time"` or `"weather"`, whatever their `campaignView`. An ad can be both in a group and a widget (`Classify.WidgetAlsoInGroup`).
- The persisted snapshot is substituted at most once between two successful pulls, not once per session: a success clears `alreadyUsingLocal`. Substitution happens on any failed pull, not only the first.
- Once the counter of finished groups reaches the number of groups, the screen switches to the widget view. With zero or one widget, the rotation never reports completion, so the player view never comes back. In particular, with no widgets the groups do not restart.

## Model

| member | source | states |
|---|---|---|
| Types.LogFor | app/player.tsx:545-551 | the log event carries the ad's account, ad id, campaign, upload reference and the given message type |
| Schedule.CanPlayTodayIff | app/player.tsx:268-281 | adCanPlayToday holds iff the ad is present and the name of today, Sunday being weekday 0, is among its days |
| Schedule.CanPlayNowOutsideWindow | app/player.tsx:283-291 | adCanPlayNow is false for a missing ad and whenever now is before startTime or after endTime |
| Schedule.CanPlayNowInWindow | app/player.tsx:293-327 | inside the overall window, adCanPlayNow is the daily window on minutes of the day; when end is before start, at-or-after start OR at-or-before end; otherwise between, both ends inclusive |
| Schedule.CompareAsMinutes | app/player.tsx:309-324 | the field-by-field hour:minute comparisons agree with comparing minutes of the day |
| Schedule.EqualBoundsAdmitOneMinute | app/player.tsx:316-327 | equal daily start and end admit exactly that minute |
| Schedule.NotActive | app/player.tsx:330-339 | adNotActive is never truthy; it is undefined exactly for a present ad inside its overall window, false otherwise |
| Schedule.ExpiredNeverAdmissible | app/player.tsx:286-291 | an ad outside its overall window is never admissible, whatever its days and hours |
| Schedule.AdmissibleIff | app/player.tsx:278-328 | admissible iff the day is listed, the instant is in the overall window and the time of day is in the (possibly overnight) daily window |
| Schedule.OvernightScenario | app/player.tsx:305-315 | a 22:00–02:00 Monday ad is admissible Monday 23:30 and not Monday 10:00, though both are inside its overall window |
| Rotation.Marks | app/player.tsx:540 | one admissibility mark per ad of the group |
| Rotation.MarksMeaning | app/player.tsx:540 | mark j is set iff ad j is admissible |
| Rotation.MarkAt | app/player.tsx:540 | the same, at one position |
| Rotation.FirstMarked | app/player.tsx:536-555 | the least marked index at or after lo, else -1; nothing before it is marked; no wrap-around |
| Rotation.FindIsFirstMarked | app/player.tsx:530 | `findIndex` with the admissibility test is the first marked index |
| Rotation.InitialIndex | app/player.tsx:528-532 | the initial index is exactly the first admissible index, or -1 iff there is none; the fallback to 0 never changes it |
| Rotation.SkipLogs | app/player.tsx:544-553 | one `skipped` log per index from lo up to hi, in increasing order |
| Rotation.ScanForward | app/player.tsx:535-556 | the loop returns the least admissible index after prev, or -1, and exactly one `skipped` log per index strictly between prev and it (or the end), in order |
| Rotation.ScanForwardSpec | app/player.tsx:536-555 | the facts the loop keeps pin down the first marked index and the skip logs |
| Rotation.Tags | app/player.tsx:544-577 | one log per ad from lo to the end |
| Rotation.PassTraceTags | app/player.tsx:534-591 | from an index on screen, the rest of a pass logs every later ad exactly once, in order: `play` if admissible, `skipped` if not |
| Rotation.TagsPlayAt | app/player.tsx:570-577 | at a marked position the log starts with its play |
| Rotation.TagsSkipsTo | app/player.tsx:544-553 | over unmarked positions the log is their skips |
| Rotation.FullPassTrace | app/player.tsx:528-591 | a whole pass from mount logs nothing before the first admissible ad and every ad from it on once; with no admissible ad it logs nothing |
| Rotation.PlayerView.constructor | app/player.tsx:528-532 | the view mounts at the first admissible index, with no log and no timer |
| Rotation.PlayerView.MoveToNextAd | app/player.tsx:534-557 | the index becomes the next admissible one or -1, and the skips of the ads passed over are appended to the log |
| Rotation.PlayerView.Effect | app/player.tsx:559-591 | the previous timer is cleared; an admissible ad on screen gets exactly one `play` log and a `duration*1000` ms timer; an inadmissible one is moved past without a log of its own; it reports completion, with no log and the index kept, exactly when the index is -1 or past the end of the group |
| Rotation.PlayerView.TimerFires | app/player.tsx:580 | the timer's firing runs moveToNextAd |
| Rotation.PlayerView.FireStep | app/player.tsx:580 | the timer's firing keeps the log so far plus the rest of the pass equal to what it was, with fewer events left |
| Rotation.PlayerView.EffectStep | app/player.tsx:559-591 | a run of the effect keeps the log so far plus the rest of the pass unchanged; it completes only at -1, and otherwise fewer events are left |
| Rotation.PlayerView.SetSequence | app/player.tsx:142-149 | a new group under a view keyed by its position keeps the index; the effect then runs on the new group, completing when the index is -1 or past its end |
| Rotation.PlayPass | app/player.tsx:528-591 | mounting a view and running effect and timer until completion logs exactly the pass trace: nothing with no admissible ad, otherwise one log per ad from the first admissible one on, in order |
| Screen.SomeAdmissible | app/player.tsx:503 | `group.some(...)` holds iff some ad of the group is admissible |
| Screen.SomeGroupAdmissible | app/player.tsx:502-503 | `adGroups.some(...)` holds iff some group has an admissible ad |
| Screen.EmptyContent | app/player.tsx:500-506 | emptyContent holds iff no ad of any group is admissible and there is no widget |
| Screen.EmptyMeansEveryListStartsDone | app/player.tsx:500-506 | emptyContent holds iff there is no widget and every group's rotation starts at -1 |
| Screen.IndexAfterIs | app/player.tsx:164-178 | after k ticks the widget index is min(k, length-1), and 0 with fewer than two widgets; it never exceeds max(0, length-1) |
| Screen.WidgetCompletion | app/player.tsx:166-175 | tick k completes iff length > 1 and k ≥ length; with zero or one widget no tick completes |
| Screen.Display.constructor | app/player.tsx:129-138 | the player view mounts with a zero counter; with no group it switches to the widgets at once |
| Screen.Display.GroupCompleted | app/player.tsx:130-138 | each group completion raises the counter, and the view switches to widgets exactly when it equals the number of groups |
| Screen.Display.WidgetTick | app/player.tsx:166-175 | a tick advances the widget until the last; then, with more than one widget, the player view returns with fresh lists |
| Screen.Render | app/player.tsx:37-50 | the loaders follow the two loading flags; content only when safe to play; the empty screen iff emptyContent; otherwise the view in state |
| Classify.Filter | context/AdContext.tsx:238-240 | `filter` keeps only elements that pass, never more than the input |
| Classify.FilterCount | context/AdContext.tsx:238-244 | filtering keeps each passing element as often as it occurs and no other |
| Classify.FilterAppend | context/AdContext.tsx:238-244 | filtering respects concatenation, so relative order is kept |
| Classify.GroupedIsFilters | context/AdContext.tsx:246-256 | the reduce's two accumulators are the view-1 ads and the other ads, each in order |
| Classify.FilterFilter | context/AdContext.tsx:238-256 | filtering the viewed ads by view is filtering the input by both tests |
| Classify.DropEmptyOfPair | context/AdContext.tsx:258 | the empty accumulators are dropped, the others kept in order |
| Classify.FilteredAds | context/AdContext.tsx:237-264 | at most two groups, none empty; first the view-1 ads, then the ads with another truthy view, each in input order; the widgets are the "time"/"weather" ads in order |
| Classify.GroupsPartitionViewed | context/AdContext.tsx:238-258 | every ad with a truthy view appears in the groups as often as in the input; the others not at all |
| Classify.GroupsDisjoint | context/AdContext.tsx:246-258 | no ad is in both groups |
| Classify.FlattenOfDropped | context/AdContext.tsx:258 | dropping empty groups loses no ad |
| Classify.WidgetAlsoInGroup | context/AdContext.tsx:242-244 | a view-1 "time" ad is both in the first group and a widget |
| Cache.FileNameShape | context/AdContext.tsx:115-117 | the file name has no '/', is a suffix of the URL, and is the whole URL or preceded by '/' |
| Cache.FileNameOfLastSegment | context/AdContext.tsx:115-117 | the file name of `prefix/name` is `name` |
| Cache.LocalPaths | context/AdContext.tsx:115-117 | element i is the document directory followed by the file name of URL i |
| Cache.DownloadStep | context/AdContext.tsx:123-124 | a download either adds its file and logs itself, or fails leaving both unchanged; a failure uses one scripted outcome, a success at most one |
| Cache.PassSucceeds | context/AdContext.tsx:113-130 | a pass that gets through had every URL defined and returns, in input order, the local path of each, all of which exist |
| Cache.PassCovers | context/AdContext.tsx:113-126 | after a successful pass the local path of every URL exists |
| Cache.PassFilesGrow | context/AdContext.tsx:118-125 | a pass never removes a file |
| Cache.PassDownloadsOnlyMissing | context/AdContext.tsx:118-125 | the pass only appends downloads; each is of a path missing before the pass, and none is downloaded twice |
| Cache.SecondPassDownloadsNothing | context/AdContext.tsx:118-121 | after a successful pass, a second one downloads nothing and returns the same paths |
| Cache.AllPresentPass | context/AdContext.tsx:118-121 | a pass whose paths all exist touches nothing and returns them |
| Cache.FailureUsesAnOutcome | context/AdContext.tsx:160-167 | a pass over defined URLs fails only by spending a scripted download outcome |
| Cache.RetryUntilCached | context/AdContext.tsx:138-168 | cacheAds' retry ends with every local path, in order, all existing, and no file lost |
| Cache.OneCachedOneMissing | context/AdContext.tsx:113-126 | with one file cached and one missing, the pass downloads exactly the missing one and returns both paths |
| Cache.ExamplePaths | context/AdContext.tsx:115-117 | the example URLs' local paths |
| Cache.Device.GetInfo | context/AdContext.tsx:118 | `exists` holds iff the path is a file |
| Cache.Device.DownloadAsync | context/AdContext.tsx:123 | the device does one DownloadStep; on success the returned uri is the requested path |
| Cache.RunPass | context/AdContext.tsx:111-126 | the `for` loop does exactly what Pass specifies: the same outcome, paths and storage |
| AdContext.MediaUrls | context/AdContext.tsx:83 | the adUrl of every ad, in order |
| AdContext.PushRewrite | context/AdContext.tsx:83-88 | the push path changes only adUrl, so remoteUrl and every other field are kept; after a successful pass adUrl is the local file; after a failed one, `[]` makes every adUrl undefined |
| AdContext.PullRewrite | context/AdContext.tsx:187-197 | the pull path sets remoteUrl to the original adUrl and adUrl to its local file; every other field (ids, type, view, upload, configuration) is unchanged |
| AdContext.AtMostOneSubstitution | context/AdContext.tsx:204-216 | between two successes the persisted snapshot is substituted at most once, and never once it is in use |
| AdContext.FirstFailureSubstitutes | context/AdContext.tsx:205-213 | with storage loaded and an item present, the first failure does substitute |
| AdContext.AdProvider.constructor | context/AdContext.tsx:52-76 | initial state: no ads, empty configuration, all flags false, nothing loaded, no retry |
| AdContext.AdProvider.StorageLoaded | hooks/useAsyncStorage.ts:13-27 | the storage read sets the item (none when nothing is stored) and `loaded` |
| AdContext.AdProvider.CacheAdsInBackground | context/AdContext.tsx:106-136 | one pass; the local paths on success, `[]` on error; the background flag ends false |
| AdContext.AdProvider.CacheAds | context/AdContext.tsx:138-168 | passes until one succeeds; returns every local path in order, all existing; the loading flag ends false |
| AdContext.AdProvider.SetReceivedAds | context/AdContext.tsx:79-99 | without `data[0]` nothing changes; otherwise the rewritten ads and the pushed configuration are shown and persisted, and playback is safe |
| AdContext.AdProvider.FetchFailedBranch | context/AdContext.tsx:204-228 | substitutes iff storage is loaded, holds an item and no snapshot is in use, then sets the flag, `request` and `safeToPlay`; always schedules a 10000 ms retry |
| AdContext.AdProvider.AdoptPulled | context/AdContext.tsx:190-203 | the media are cached; each ad keeps its original URL as remoteUrl and points to its local file; ads and configuration shown and persisted; safe to play; flags cleared |
| AdContext.AdProvider.FetchAds | context/AdContext.tsx:170-229 | a call the captured flag guards changes nothing; success adopts the pulled ads, caches their media and clears `retry` (the closure's own, already fired, timer); failure, including a payload without `data[0]`, takes the fallback, keeps the loading flag, item and files, and schedules the retry; a payload with an ad without URL only sets `request` |
| AdContext.AdProvider.Start | context/AdContext.tsx:231-236 | without a device code nothing happens; with one the flag is set and the pull runs: a guarded pull changes nothing else, a success adopts and caches the pulled ads and clears the flag again, a failure takes the fallback and schedules the retry with the flag still set |
| AdContext.AdProvider.RetryFires | context/AdContext.tsx:225-227 | the retry runs fetchAds again, never guarded: another failure takes the fallback and reschedules, a success adopts and caches the pulled ads and cancels |

## Left out

- Rendering (`PlayItem`, `VideoWrapper` and its switch to `remoteUrl` on error, `EmptyScreen`, `Loader`, WebView URLs), layout styles and the screen-configuration table: drawing and styling, no scheduling logic. `Screen.Render` only records which part is drawn.
- The socket (`hooks/useSocket.ts`), `sendLog`'s transport and navigation (`router.replace` when `request` is set): the logs are an output sequence, and `request` is only a flag.
- Real clocks, time zones and `Date` parsing: the clock is an instant, a weekday and an hour:minute, and each ad's start and end carry their own hour and minute. Each predicate reads the clock once, as the same `now`.
- The HTTP `fetch` and JSON parsing: the outcome of a pull is an input, either a payload or a failure.
- Concurrency and React's render timing: each async function runs to completion as one method, and timers are explicit events. A PlayerView's timer is the delay it was armed with. The provider's retry delay is 10000 ms.
- The device code and the random nanoid behind it: the device code is a parameter of `Start`.
- `AdContext.AdProvider.StorageLoaded`: models only the successful read. A read that throws leaves `loaded` false for ever. Persistence writes (`setItem`) update the same `item` field; a write failure is not modelled.
- `AdContext.AdProvider.CacheAdsInBackground`: states only that `adsBackgroundLoading` ends false. That it is true while the pass runs is not observable in a model without interleaving. The same holds for `adsLoading` in `AdContext.AdProvider.CacheAds`.
- `AdContext.AdProvider.CacheAds`: requires every URL to be defined. With an undefined URL the model's `FetchAds` stops after setting `request`, with the loading flag and the files unchanged, and neither branch below is modelled. When an earlier URL is defined, each attempt first sets `adsLoading` and downloads the missing files before the undefined one, then the retry recurses after an `await` for ever. When the first URL is undefined, no `await` runs before the throw, so the retry recurses synchronously until the stack overflows; the rejection then reaches fetchAds' catch, which takes the fallback and schedules the 10-second retry. Termination otherwise rests on the finite script of download failures (`Cache.Disk.outcomes`): after it runs out, every download succeeds.
- `Cache.Device.DownloadAsync`: the uri a download returns is modelled as the requested path, so the cache loop's list is always the computed local paths.
- `setReceivedAds`' catch branch, which calls itself with a re-wrapped payload: nothing in its `try` block can raise, because the background cache catches its own errors. Without `data[0]` the function raises before its `try`, and the model changes nothing.
- `Rotation.PlayPass`: drives one view over a fixed group and one clock reading from mount to completion. A pass during which the clock moves on, or the group changes part-way, has no whole-pass trace in the model; `Rotation.PlayerView.SetSequence` states only the step that follows the change. The effect also re-runs when `sendLog` changes identity, which happens on every socket open or close; each such re-run logs the ad on screen as `play` again and restarts its timer, and is not modelled.
- `Types.Ad` and `Types.AdConfiguration`: `duration` and `campaignView` are integers. A fractional duration (2.5 s as a 2500 ms timer) is not modelled, nor is a fractional view such as 1.5 (which falls in the second group), nor `NaN` (which is falsy, so that ad is in no group).
- `Screen.Display`: models a player view whose groups each report completion once. A group that would report again because the effect re-runs with other dependencies is not modelled.
- `Screen.Display`: the number of groups and of widgets is fixed while the view is mounted. A sync that changes either one under a mounted PlayerList or Widgets is not modelled. PlayerList keeps its counter and re-checks it only when the counter changes, so such a change can leave the screen on the player for ever: for example, two groups with one finished, then a sync leaves one group, so the counter reaches 2 and never equals 1. Going from one group to none never switches either. Widgets likewise keeps its index when the number of widgets changes.
- Weekday lookup: a weekday outside 0..6 looks up `undefined`, which no list of names includes. The model returns false there.
