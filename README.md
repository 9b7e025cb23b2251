# Factory dashboard core, modelled in Dafny

This project models the behavioural core of a factory-floor dashboard web
application. The application has these parts:

- a mock-data layer that generates a fleet of 100 CNC machines, an 11-hour
  production series and an asset ledger;
- a live-fleet hook that perturbs the readings of running machines every two
  seconds and counts machines per status;
- the dashboard page, which has:
  - a status filter;
  - a 12-per-page grid with autoplay and prev/next buttons;
  - a heatmap grouped by workshop zone;
  - an alarm queue;
- an asset panel with a type filter and a text search;
- a notification ticker;
- an "AI copilot" chat box that answers by keyword;
- a camera tile with loading/error/retry state;
- the navigation sidebar (route highlighting, language and theme buttons);
- the persisted language store;
- the demo credentials sign-in with its token and session callbacks.

One Dafny module per source file:

| file | module | source |
|---|---|---|
| `types.dfy` | `Types` | `src/types/index.ts` |
| `strings.dfy` | `Strings` | helpers for decimal text, padding, `includes`, `toLowerCase`, `trim`, `join` |
| `data.dfy` | `MockData` | `src/lib/data.tsx` |
| `machine_data.dfy` | `MachineData` | `src/hooks/useMachineData.ts` |
| `dashboard.dfy` | `Dashboard` | `src/app/dashboard/page.tsx` |
| `assets_panel.dfy` | `Assets` | `src/components/dashboard/AssetsPanel.tsx` |
| `notification_ticker.dfy` | `Ticker` | `src/components/dashboard/NotificationTicker.tsx` |
| `ai_copilot.dfy` | `Copilot` | `src/components/dashboard/AICopilot.tsx` |
| `camera_player.dfy` | `Camera` | `src/components/dashboard/CameraPlayer.tsx` |
| `sidebar.dfy` | `Sidebar` | `src/components/layout/Sidebar.tsx` |
| `language_store.dfy` | `LanguageStore` | `src/store/useLanguageStore.ts` |
| `auth.dfy` | `Auth` | `src/lib/auth.ts` |

How the source is modelled:

- **Randomness.** Every `Math.random()` becomes an explicit draw record. Its `requires` is the range that the `Math.floor(Math.random() * k)` expression can produce.
- **Timers.** Every `setInterval`/`setTimeout` callback becomes a step method that the environment calls: `Tick`, `AutoPlayTick`, `IntervalTick`/`FadeComplete`, `Reply`.
- **Imperative code.** The generators are loops with invariants. Components whose state changes are classes whose methods state their whole new state.
- **Pure code.** Filters, slices, groupings and conditionals are functions, proved against lemmas.

Facts of the code that the model follows:

- The tick's load delta is `floor(r*10 - 5)`, which lies in [-5, 4]. The rpm delta lies in [-100, 99].
- The zone is decided by absolute machine index: A区 up to 30, B区 up to 60, C区 above. It is not a fraction of the fleet size.
- `totalPages` is `ceil(n / 12)` with no minimum of 1, so an empty filter gives 0 pages. On page 1 of 0 the "next" button is therefore enabled (`NextGuard`).
- The page-reset effect runs only when the filter or the view mode actually changes. Setting the same value again does not re-render, so the current page is kept.

## Model

| member | source | states |
|---|---|---|
| Types.ParseStatus | src/types/index.ts:4-9 | a parsed status is spelled exactly as the enumeration lists it |
| Types.StatusRoundTrip | src/types/index.ts:4-10 | each of RUNNING, IDLE, ALARM and OFFLINE parses back to its own status |
| Types.LevelRoundTrip | src/types/index.ts:73 | each alarm level CRITICAL, WARNING and INFO parses back to itself |
| Types.NotificationTypeRoundTrip | src/types/index.ts:78-83 | each notification type ALARM, INFO, SUCCESS and ERROR parses back to itself |
| Types.ParseNotificationType | src/types/index.ts:78-83 | a parsed notification type is spelled exactly as the enumeration lists it |
| Types.ParseLevel | src/types/index.ts:92 | a parsed optional level is one of the three spellings |
| MockData.RoundPercent | src/lib/data.tsx:37 | the efficiency is the integer nearest to actual/target·100 (ties up) |
| MockData.GenerateHourlyData | src/lib/data.tsx:16-41 | the loop with its two running sums builds exactly the series of points k = 0..10, each stated by prefix sums of the targets and outputs |
| MockData.HourlySeries | src/lib/data.tsx:16-41 | 11 points for hours 8..18 labelled "h:00"; each target in [800, 899]; each actual taken as given; running totals start at the first point, each adds that point's value, and the target total strictly increases |
| MockData.HourlyTotalsArePrefixSums | src/lib/data.tsx:18-19 | the running totals of point k equal the sums of targets and actuals over points 0..k |
| MockData.MachineAtFacts | src/lib/data.tsx:80-98 | machine i has id "M" plus digits reading back as i (exactly 4 characters below 1000), a type from the four makers, the status drawn from the bag, name "CNC-type-" plus the id's digits, the status field invariant and zone by absolute index |
| MockData.GenerateMachines | src/lib/data.tsx:66-101 | the loop builds exactly the fleet whose k-th machine is machine k+1 of draw k |
| MockData.GeneratedFleet | src/lib/data.tsx:66-101 | every machine of a generated fleet is well formed, lies in the zone of its 1-based index and has an id reading back as that index, 4 characters long below index 1000 |
| MockData.FleetIdsDistinct | src/lib/data.tsx:83 | generated machines have pairwise distinct ids |
| MockData.PrefixedNumber | src/lib/data.tsx:83 | a prefix followed by a zero-padded number reads back as that number |
| MockData.StatusWeights | src/lib/data.tsx:69-78 | the status bag holds RUNNING 4 times, IDLE twice, ALARM and OFFLINE once each |
| MockData.StatusConfigDistinct | src/lib/data.tsx:103-137 | different statuses have different labels and different colours |
| MockData.FourDigitPad | src/lib/data.tsx:252 | below 10000 an asset number pads to exactly 4 digits |
| MockData.AssetAtFacts | src/lib/data.tsx:240-270 | asset i has id "AST-" plus digits reading i (8 characters below 10000), name "CNC-type-" plus 3-digit pad, model from its type's list, serial starting with the type's first two letters, value in [500000, 1499999], ACTIVE exactly when the draw is above one tenth |
| MockData.GenerateAssetList | src/lib/data.tsx:229-273 | the loop builds exactly the list whose k-th asset is asset k+1 of draw k |
| MockData.GeneratedAssets | src/lib/data.tsx:229-273 | every asset of a generated list is well formed and has an id reading back as its 1-based index |
| MockData.SumStep | src/lib/data.tsx:28-29 | extending a prefix by one element adds that element to its sum |
| MockData.Targets | src/lib/data.tsx:22 | one hourly target per draw |
| MachineData.Clamp | src/hooks/useMachineData.ts:25-32 | the clamped value lies in [lo, hi], is x inside the range and the nearer bound outside it |
| MachineData.TickMachine | src/hooks/useMachineData.ts:18-35 | a tick changes nothing but load and rpm; a non-RUNNING machine or a "no change" draw returns the machine unchanged; otherwise load and rpm become clamped sums |
| MachineData.TickFleetFacts | src/hooks/useMachineData.ts:17-19 | the mapped fleet keeps length and order, changes only load and rpm of each machine, and leaves unchanged machines that are not RUNNING or whose draw says no |
| MachineData.GeneratedMachineIsLive | src/lib/data.tsx:90-96 | a generated machine satisfies the live bounds |
| MachineData.TickKeepsLive | src/hooks/useMachineData.ts:25-32 | a tick keeps load in [0, 100], rpm in [0, 20000] and idle fields cleared; load moves by −5..4 and rpm by −100..99 |
| MachineData.TickFleetKeepsLive | src/hooks/useMachineData.ts:17-37 | a whole-fleet tick preserves the live bounds of every machine |
| MachineData.CountStatus | src/hooks/useMachineData.ts:44-47 | a status count never exceeds the fleet size |
| MachineData.StatsTotal | src/hooks/useMachineData.ts:42-49 | running + idle + alarm + offline equals the fleet length |
| MachineData.CountSameStatuses | src/hooks/useMachineData.ts:42-49 | fleets with the same statuses position by position have the same counts |
| MachineData.TickKeepsStats | src/hooks/useMachineData.ts:17-49 | one tick leaves the statistics unchanged |
| MachineData.TickMany | src/hooks/useMachineData.ts:14-40 | any number of ticks keeps the fleet length |
| MachineData.TickManyFacts | src/hooks/useMachineData.ts:17-49 | after any number of ticks the statistics, every status and every non-RUNNING machine are unchanged, and the live bounds still hold |
| MachineData.MachineDataHook.constructor | src/hooks/useMachineData.ts:6-7 | both collections start empty |
| MachineData.MachineDataHook.Initialize | src/hooks/useMachineData.ts:9-12 | after mount the fleet is one 100-machine generation and the series one hourly generation |
| MachineData.MachineDataHook.Tick | src/hooks/useMachineData.ts:17-37 | the fleet is replaced by its tick, statistics unchanged, live bounds preserved |
| MachineData.MachineDataHook.Stats | src/hooks/useMachineData.ts:42-49 | the four counts add up to the fleet size |
| Dashboard.FilterMachines | src/app/dashboard/page.tsx:49-52 | the filtered list holds exactly the fleet's machines that pass the filter |
| Dashboard.FilterAllIsFleet | src/app/dashboard/page.tsx:50 | with "ALL" the filtered list is the fleet itself |
| Dashboard.FilterConcat | src/app/dashboard/page.tsx:51 | filtering distributes over concatenation, so fleet order is kept |
| Dashboard.FilterCountsStatus | src/app/dashboard/page.tsx:51 | filtering on a status yields as many machines as the status count |
| Dashboard.FilterLengthStable | src/app/dashboard/page.tsx:49-52 | fleets with the same statuses filter to lists of the same length |
| Dashboard.TotalPages | src/app/dashboard/page.tsx:47-54 | the page count is the least r with n ≤ 12r, and it is 0 exactly for an empty list |
| Dashboard.SliceIndex | src/app/dashboard/page.tsx:55-58 | a slice bound is normalised as JavaScript does: clipped to the length, negative bounds counted from the end |
| Dashboard.SliceIndexSpan | src/app/dashboard/page.tsx:55-58 | normalising two ordered bounds never widens the gap between them |
| Dashboard.JsSlice | src/app/dashboard/page.tsx:55-58 | an in-range slice is the subsequence; any slice is no longer than its bounds span |
| Dashboard.Paginate | src/app/dashboard/page.tsx:55-58 | a page holds at most 12 machines |
| Dashboard.PageContents | src/app/dashboard/page.tsx:54-58 | page p holds items (p−1)·12 up to p·12 of the list, and it is non-empty exactly when p ≤ totalPages |
| Dashboard.ConcatPagesSuffix | src/app/dashboard/page.tsx:54-58 | pages p..totalPages concatenated are the list from item (p−1)·12 on |
| Dashboard.PagesReconstruct | src/app/dashboard/page.tsx:54-58 | pages 1..totalPages concatenated are the filtered list |
| Dashboard.NextGuard | src/app/dashboard/page.tsx:366-367 | within the pages "next" is enabled exactly below the last page; with 0 pages it stays enabled from page 1 on |
| Dashboard.AutoPlayStep | src/app/dashboard/page.tsx:68-71 | at or past the last page autoplay goes to page 1, otherwise to the next page |
| Dashboard.AutoPlayInRange | src/app/dashboard/page.tsx:68-71 | from a page in 1..totalPages autoplay stays in 1..totalPages |
| Dashboard.AutoPlayAdvances | src/app/dashboard/page.tsx:68-71 | short of the last page k steps advance k pages |
| Dashboard.AutoPlayCycle | src/app/dashboard/page.tsx:64-75 | from page 1 autoplay visits every page in order and is back on page 1 after totalPages steps |
| Dashboard.AutoPlayRunSplit | src/app/dashboard/page.tsx:67-72 | k+1 steps are k steps followed by one more |
| Dashboard.InZone | src/app/dashboard/page.tsx:310-312 | a zone's list holds exactly the filtered machines of that zone |
| Dashboard.GroupsOverFacts | src/app/dashboard/page.tsx:309-313 | no more groups than zones; every group non-empty and exactly its zone's machines; a zone has a group iff it has a machine |
| Dashboard.HeatmapShape | src/app/dashboard/page.tsx:309-313 | the heatmap is the A区 section, then B区, then C区 |
| Dashboard.HeatmapOrder | src/app/dashboard/page.tsx:309 | groups appear in the fixed order A区, B区, C区 without repeats |
| Dashboard.GroupedCountConcat | src/app/dashboard/page.tsx:309-331 | the machine count of concatenated groups is the sum of their counts |
| Dashboard.SectionCount | src/app/dashboard/page.tsx:310-313 | a zone's section holds all of that zone's machines |
| Dashboard.ZoneCountsAddUp | src/lib/data.tsx:97 | when every zone is one of the three, the three zone lists together are the whole list |
| Dashboard.HeatmapCoversFleet | src/app/dashboard/page.tsx:309-331 | the heatmap shows every filtered machine exactly once |
| Dashboard.ZoneRuleIsTotal | src/lib/data.tsx:97 | the zone rule always yields one of the three zones |
| Dashboard.AlarmQueue | src/app/dashboard/page.tsx:262-263 | the queue holds exactly the fleet's ALARM machines, whatever the filter |
| Dashboard.AlarmQueueMatchesBadge | src/app/dashboard/page.tsx:258-285 | the queue's length is the badge's alarm count; the "no alarms" text shows exactly when the queue is empty |
| Dashboard.DashboardView.Shown | src/app/dashboard/page.tsx:336-338 | the grid shows at most 12 cards, all from the filtered fleet |
| Dashboard.DashboardView.constructor | src/app/dashboard/page.tsx:40-44 | heatmap view, filter "ALL", page 1, autoplay off, nothing selected |
| Dashboard.DashboardView.SetStatusFilter | src/app/dashboard/page.tsx:60-62 | the filter is set, and the page goes back to 1 when the filter changed |
| Dashboard.DashboardView.SetViewMode | src/app/dashboard/page.tsx:60-62 | the view is set, and the page goes back to 1 when the view changed |
| Dashboard.DashboardView.ToggleAutoPlay | src/app/dashboard/page.tsx:167-169 | in the grid view autoplay flips; elsewhere the button is absent |
| Dashboard.DashboardView.AutoPlayTick | src/app/dashboard/page.tsx:64-75 | only with autoplay on in the grid view the page takes an autoplay step; a page in range stays in range |
| Dashboard.DashboardView.PrevPage | src/app/dashboard/page.tsx:342-344 | the page drops by one, unclamped, unless the button is disabled on page 1 |
| Dashboard.DashboardView.NextPage | src/app/dashboard/page.tsx:365-367 | the page rises by one, unclamped, unless the button is disabled on the last page; a page in range stays in range |
| Dashboard.DashboardView.Select | src/app/dashboard/page.tsx:267 | the clicked machine becomes the selection |
| Dashboard.DashboardView.CloseDetail | src/app/dashboard/page.tsx:302-305 | closing the detail panel clears the selection |
| Assets.FilterAssets | src/components/dashboard/AssetsPanel.tsx:28-37 | the table holds exactly the assets passing the type and the search test |
| Assets.MatchesSearchIff | src/components/dashboard/AssetsPanel.tsx:31-34 | the search passes iff the lowered term occurs in the lowered name or model, or the term occurs in the serial |
| Assets.EmptyTermMatches | src/components/dashboard/AssetsPanel.tsx:31-34 | an empty search term passes every asset |
| Assets.NoFilterShowsAll | src/components/dashboard/AssetsPanel.tsx:21-22 | with "ALL" and an empty search box the table is the whole list |
| Assets.FilterAssetsConcat | src/components/dashboard/AssetsPanel.tsx:29 | filtering distributes over concatenation, so list order is kept |
| Assets.NameModelIgnoreCase | src/components/dashboard/AssetsPanel.tsx:32-33 | terms that lower-case alike match name and model alike |
| Assets.SerialIsCaseSensitive | src/components/dashboard/AssetsPanel.tsx:34 | serial "AB1" is found by "AB" and not by "ab" |
| Assets.TotalValueConcat | src/components/dashboard/AssetsPanel.tsx:39-41 | the total of a concatenation is the sum of the totals |
| Assets.TotalValueBounds | src/components/dashboard/AssetsPanel.tsx:39-41 | for generated assets the total lies in [500000·n, 1499999·n] |
| Assets.MaintenanceCount | src/components/dashboard/AssetsPanel.tsx:103 | the maintenance count never exceeds the list size |
| Assets.StatusCountsAddUp | src/components/dashboard/AssetsPanel.tsx:103 | maintenance and active counts add up to the list size |
| Assets.MaintenanceCountZero | src/components/dashboard/AssetsPanel.tsx:103 | the count is zero exactly when every asset is active |
| Ticker.NextIndex | src/components/dashboard/NotificationTicker.tsx:69 | the next index is in range: one more, or 0 after the last |
| Ticker.RotateCompose | src/components/dashboard/NotificationTicker.tsx:69 | a fades then b fades are a+b fades |
| Ticker.RotateClimbs | src/components/dashboard/NotificationTicker.tsx:69 | short of the end each fade moves one entry on |
| Ticker.RotateWraps | src/components/dashboard/NotificationTicker.tsx:69 | from entry i the ticker reaches entry 0 after len−i fades |
| Ticker.RotationReturns | src/components/dashboard/NotificationTicker.tsx:64-72 | after len fades the index is back at its start, and every entry is shown within fewer than len fades |
| Ticker.Label | src/components/dashboard/NotificationTicker.tsx:114-117 | an alarm shows its level or "ALARM" when it has none, anything else its type; "ALARM" only for a level-less alarm |
| Ticker.BadgeColours | src/components/dashboard/NotificationTicker.tsx:95-112 | red iff critical alarm or error; yellow iff warning alarm; emerald iff success; blue otherwise |
| Ticker.NotificationTicker.constructor | src/components/dashboard/NotificationTicker.tsx:54-59 | index 0, visible, not paused, no fade pending |
| Ticker.NotificationTicker.Current | src/components/dashboard/NotificationTicker.tsx:77-79 | nothing is rendered exactly for an empty list; otherwise an entry of the list |
| Ticker.NotificationTicker.IntervalTick | src/components/dashboard/NotificationTicker.tsx:61-67 | with two or more entries and not paused the entry fades out and one fade is scheduled; otherwise nothing changes |
| Ticker.NotificationTicker.FadeComplete | src/components/dashboard/NotificationTicker.tsx:68-71 | the index moves to the next entry modulo the length and the entry fades in |
| Ticker.NotificationTicker.MouseEnter | src/components/dashboard/NotificationTicker.tsx:122 | hovering pauses |
| Ticker.NotificationTicker.MouseLeave | src/components/dashboard/NotificationTicker.tsx:123 | leaving resumes |
| Copilot.RouterIsTable | src/components/dashboard/AICopilot.tsx:55-87 | the intent is the first row of the keyword table (alarm, running, total, OEE, output, greeting) whose keyword occurs in the lowered input, else unknown |
| Copilot.FirstMatchIsEarliest | src/components/dashboard/AICopilot.tsx:58-87 | the first matching row decides, whatever later rows match |
| Copilot.FirstMatchNone | src/components/dashboard/AICopilot.tsx:55 | with no keyword the intent is unknown |
| Copilot.AnyIncludedTwo | src/components/dashboard/AICopilot.tsx:74 | a two-keyword row matches iff either keyword occurs |
| Copilot.AnyIncludedThree | src/components/dashboard/AICopilot.tsx:58-62 | a three-keyword row matches iff one of its keywords occurs |
| Copilot.RouterIgnoresCase | src/components/dashboard/AICopilot.tsx:56 | lower-casing the input first does not change the intent |
| Copilot.MissingCharacter | src/components/dashboard/AICopilot.tsx:56-87 | a keyword with a character absent from the input does not occur in it |
| Copilot.ToLowerKeepsPlain | src/components/dashboard/AICopilot.tsx:56 | text without capitals is its own lower case |
| Copilot.GreetingWhen | src/components/dashboard/AICopilot.tsx:85-86 | with no earlier keyword and "hi" present the intent is a greeting |
| Copilot.AsciiLacksChinese | src/components/dashboard/AICopilot.tsx:58-85 | an ASCII input contains no Chinese keyword |
| Copilot.MachineIsAGreeting | src/components/dashboard/AICopilot.tsx:85 | "machine" is answered with the greeting, because it contains "hi" |
| Copilot.AlarmWinsOverRunning | src/components/dashboard/AICopilot.tsx:58-74 | "运行报警" is routed to the alarm reply, not the running reply |
| Copilot.Names | src/components/dashboard/AICopilot.tsx:66 | the names list is the machines' names in order |
| Copilot.AlarmNames | src/components/dashboard/AICopilot.tsx:64-67 | one name per machine in the alarm queue |
| Copilot.NumberAfterLead | src/components/dashboard/AICopilot.tsx:69 | a count written after a fixed lead reads back from where the lead ends |
| Copilot.JoinContains | src/components/dashboard/AICopilot.tsx:67 | each joined name occurs in the ", "-joined text |
| Copilot.IncludesInfix | src/components/dashboard/AICopilot.tsx:69-73 | the middle of a concatenation occurs in it |
| Copilot.IncludesGrow | src/components/dashboard/AICopilot.tsx:69-73 | text around a match keeps the match |
| Copilot.AlarmReplyStatesCount | src/components/dashboard/AICopilot.tsx:63-73 | the alarm reply's number reads back as the number of ALARM machines |
| Copilot.AlarmReplyNamesAll | src/components/dashboard/AICopilot.tsx:64-71 | with alarms the reply names every ALARM machine |
| Copilot.AlarmReplyCalm | src/components/dashboard/AICopilot.tsx:70-72 | without alarms the reply says all runs smoothly |
| Copilot.TotalReplyStatesCount | src/components/dashboard/AICopilot.tsx:79-80 | the size reply's number reads back as the fleet's length |
| Copilot.AiCopilot.constructor | src/components/dashboard/AICopilot.tsx:24-34 | one AI welcome message with id 1, empty input, not typing, closed |
| Copilot.AiCopilot.ToggleOpen | src/components/dashboard/AICopilot.tsx:24 | the launcher opens and closes the chat |
| Copilot.AiCopilot.SetInput | src/components/dashboard/AICopilot.tsx:33 | typing, possible only while the chat is open, sets the input |
| Copilot.AiCopilot.Send | src/components/dashboard/AICopilot.tsx:42-54 | only while the chat is open: blank input changes nothing; other input appends one user message with the raw text, clears the input, sets typing, and queues the reply routed from that text |
| Copilot.AiCopilot.Reply | src/components/dashboard/AICopilot.tsx:89-93 | the oldest queued reply is appended as one AI message and typing stops; each accepted send grows the log by two |
| Camera.IsMjpegIff | src/components/dashboard/CameraPlayer.tsx:24-28 | an address is MJPEG iff one of ".mjpg", ".cgi", "nphMotionJpeg", "/api/camera/proxy" occurs in it; no address is not MJPEG |
| Camera.ProxyIsMjpeg | src/components/dashboard/CameraPlayer.tsx:28 | any stream-proxy address is MJPEG |
| Camera.ScreenFor | src/components/dashboard/CameraPlayer.tsx:62 | the placeholder shows iff the address is missing or empty or the status is "idle" or "error"; otherwise the image element iff MJPEG |
| Camera.MjpegReachesImage | src/components/dashboard/CameraPlayer.tsx:62-109 | an MJPEG address with a live status always reaches the image element |
| Camera.CameraPlayer.constructor | src/components/dashboard/CameraPlayer.tsx:17-19 | loading, no error, retry count 0 |
| Camera.CameraPlayer.ShowSpinner | src/components/dashboard/CameraPlayer.tsx:79 | the spinner shows exactly while a player is loading, never with the error overlay |
| Camera.CameraPlayer.Retry | src/components/dashboard/CameraPlayer.tsx:30-34 | error cleared, loading again, retry count one higher (so it never decreases) |
| Camera.CameraPlayer.OnLoad | src/components/dashboard/CameraPlayer.tsx:114 | loading cleared, error unchanged |
| Camera.CameraPlayer.OnError | src/components/dashboard/CameraPlayer.tsx:115 | loading cleared and error set, so the error overlay replaces the spinner |
| Sidebar.MenuPathsDistinct | src/components/layout/Sidebar.tsx:46-89 | the seven menu paths are pairwise distinct |
| Sidebar.AtMostOneActive | src/components/layout/Sidebar.tsx:172-174 | at most one menu entry is highlighted for any route |
| Sidebar.RootHighlightsDashboard | src/components/layout/Sidebar.tsx:172-174 | on "/" exactly the dashboard entry is highlighted |
| Sidebar.NextLocale | src/components/layout/Sidebar.tsx:222-226 | the language button maps zh to en, en to ms and ms to zh, so it always changes the locale |
| Sidebar.LocaleCycle | src/components/layout/Sidebar.tsx:222-226 | zh → en → ms → zh: three presses return and two do not, passing all three locales |
| Sidebar.LocaleLabel | src/components/layout/Sidebar.tsx:234-238 | 中文 for zh, English for en, Bahasa Melayu for ms |
| Sidebar.LocaleLabelsDistinct | src/components/layout/Sidebar.tsx:234-238 | different locales get different captions |
| Sidebar.NextTheme | src/components/layout/Sidebar.tsx:244 | dark turns light and anything else dark |
| Sidebar.ThemeAlternates | src/components/layout/Sidebar.tsx:244 | after the first press the theme alternates between dark and light |
| Sidebar.ThemeLabel | src/components/layout/Sidebar.tsx:255 | the caption says "Light Mode" exactly when the press turns the theme light |
| LanguageStore.LocaleCode | src/store/useLanguageStore.ts:4 | each locale is spelled with two letters |
| LanguageStore.LanguageStore.constructor | src/store/useLanguageStore.ts:16-18 | locale zh, not hydrated |
| LanguageStore.LanguageStore.SetLocale | src/store/useLanguageStore.ts:17 | only the locale changes, to the given one |
| LanguageStore.LanguageStore.SetHasHydrated | src/store/useLanguageStore.ts:19 | only the hydration flag changes, to the given value |
| LanguageStore.LanguageStore.Rehydrate | src/store/useLanguageStore.ts:23-25 | a successful rehydration restores a saved locale and sets the flag; a failed one changes nothing; a set flag stays set |
| Auth.Authorize | src/lib/auth.ts:12-40 | admin/admin yields the admin user, user/user the operator, anything else (missing credentials included) null |
| Auth.AuthorizedRole | src/lib/auth.ts:15-37 | a signed-in user's role is the username it signed in with, "admin" or "user" |
| Auth.Jwt | src/lib/auth.ts:47-52 | with a user the token takes the user's role; without one the token is returned unchanged |
| Auth.SessionCallback | src/lib/auth.ts:53-58 | a session with a user gets the token's role; the session is returned |
| Auth.SignIn | src/lib/auth.ts:12-58 | accepted credentials put the account's role into the session; refused ones change neither token nor session |
| Strings.NatToStringRoundTrip | src/lib/data.tsx:83 | decimal text reads back as its number |
| Strings.ZeroPadRoundTrip | src/lib/data.tsx:83 | zero-padded text reads back as its number |
| Strings.ZeroPadInjective | src/lib/data.tsx:83 | different numbers pad to different texts |
| Strings.IncludesIff | src/components/dashboard/AssetsPanel.tsx:32-34 | `includes` holds iff the term occurs at some position |
| Strings.ToLower | src/components/dashboard/AssetsPanel.tsx:32 | lower-casing keeps the length and maps each character |
| Strings.ToLowerIdempotent | src/components/dashboard/AssetsPanel.tsx:32 | lower-casing twice is lower-casing once |
| Strings.PadStart | src/lib/data.tsx:83 | padding reaches the width, ends with the text and fills with the pad character |

## Left out

- Randomness is not modelled. Each `Math.random()` is an input draw whose range is a precondition.
- Timers (`setInterval`, `setTimeout`, effect clean-up) are not modelled. Their callbacks are step methods the caller invokes, in any interleaving the preconditions allow.
- The hook's and the layouts' clocks (`currentTime`, `Date.now()`) are not modelled. A message id is the `now` parameter, and an id collision between two messages sent in the same millisecond is not examined.
- Floating point is left out:
  - the 0.98/0.9 efficiency factors and the noise of the hourly actuals are left out: each actual is an input;
  - the percentage rounding is modelled on exact rationals, with ties rounded up;
  - the copilot's running rate is the `toFixed(1)` text, passed in as `rate`.
- Dates (asset purchase and warranty dates) and `Intl.NumberFormat` currency formatting are left out. The two date strings of an asset are part of its draw, so the date arithmetic is not modelled.
- Rendering, icons, the chart library, class strings other than the ticker badge colours and scrolling measurement are left out, and so is DOM fullscreen on the camera tile.
- `Strings.ToLower`: lower-cases ASCII A–Z only. JavaScript's `toLowerCase` also folds other Unicode capitals, so search and routing are modelled for inputs whose only capitals are ASCII.
- Translations (`t.copilot.welcome`, `greeting`, `unknown`, labels) are not modelled. They are a `CopilotTexts` parameter.
- The ticker imports a `generateNotifications` generator that the data module does not define, so the notification list is an input of the ticker.
- The ticker's fade timeout is not cancelled by pausing, and the model keeps it as a pending count.
- Whether a clean-up that re-creates the interval resets its four-second phase is not modelled.
- The asset panel's selector and search text are parameters of the filter, not fields with setters. The list is set once from the generator.
- The camera proxy relay, next-auth's provider plumbing, `signIn`/`signOut` and the route middleware are not part of this model. `Auth.SignIn` states only the order in which next-auth calls the two callbacks.
- zustand's `persist` storage is not modelled. A rehydration is an explicit event carrying the saved locale, or the failure case.
- The dashboard's configuration modal (`isConfigOpen`) and the analysis, gateway, alarm, settings and monitor pages are left out. They hold static tables with no behaviour to state.
- The fields that `MachineCard` reads (`productionCount`, `availability`) do not exist on `Machine` and are not modelled.
- `Dashboard.DashboardView.SetStatusFilter`: accepts any status, although the page offers buttons for ALL, RUNNING, IDLE and ALARM only.
- `Camera.CameraPlayer.Retry`: requires the error overlay to be shown, because the button exists only then.
- `Camera.CameraPlayer.OnLoad` and `Camera.CameraPlayer.OnError`: require the image element, because only it has these handlers. A video stream has no handler, so its spinner never clears; the model keeps that behaviour.
- `Copilot.RunningReply`: the rate text is an input, so nothing is proved about the percentage it shows.
