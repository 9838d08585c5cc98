# trade-insight-hub client core, modelled in Dafny

This project models the client-side logic of the trade-insight-hub React
application. The client takes a ticker or a CSV file of price data, posts it
to an analysis backend, and shows the detected price gaps,
support/resistance levels and supply/demand zones. It keeps a history of
past analyses in browser storage and lets the user pick accessibility
preferences.

Each core source file has one Dafny module:

- **Browser storage.** Storage is modelled as explicit slots:
  - `AnalysisHistory.HistoryStorage` holds the `analysis_history` list.
  - `UserSettings.SettingsStorage` holds `user_settings`.
  - The provider's `store` map holds the five `a11y-*` keys.
- **Shared module state.** The module-level cache of the tier catalogue is the class `TierConfig.TierCache`.
- **Components and pages whose handlers update state** are classes. Their handlers are methods with `modifies` clauses:
  - the upload page and the single-page flow;
  - the analysis submission flow;
  - the drag-and-drop widgets;
  - the accessibility provider.
- **Asynchronous handlers** are split into two methods:
  - a synchronous start (`BeginSubmit`, `BeginAnalyze`);
  - a `Resolve` method that receives the outcome of the request as a value (`UiEffects.Response`: an ok body, a non-ok status, or a thrown error).
- **Pure rendering decisions are functions**, each over the data it renders:
  - which view shows, which row a record becomes;
  - badge counts, colours, labels;
  - the stage list and progress values.
- **Side effects are recorded**, not performed: navigations and toasts are appended to sequences on the class that issues them.

Money, progress and prices are exact reals. Strings are `seq<char>`.

Shared helper modules:

- `Wrappers` (Option, Result)
- `Text` (ASCII `toUpperCase`, `trim`, `endsWith`, string order)
- `Seqs` (`find`, `slice`, `filter(...).length`)
- `Display` (tones, badge variants, marks)
- `UiEffects` (toasts, responses)
- `FileDrop` (the drop/browse file selection shared by three upload widgets)

## Model

| member | source | states |
|---|---|---|
| AnalysisTypes.MockCounts | src/types/analysis.ts:36-60 | The demo result has five gaps, five levels and three zones. |
| AnalysisTypes.MockZonesWellFormed | src/types/analysis.ts:55-59 | Every demo zone has rangeLow < rangeHigh. |
| AnalysisTypes.MockLevelsOnTheirSide | src/types/analysis.ts:48-54 | Demo supports lie below the current price with a negative distance; resistances lie above it with a positive one. |
| AnalysisTypes.MockStrengthsInRange | src/types/analysis.ts:48-54 | Demo level strengths are between 0 and 100. |
| AnalysisTypes.MockGapsNewestFirst | src/types/analysis.ts:41-47 | Demo gaps are listed in strictly decreasing date order. |
| AnalysisHistory.ReadHistory | src/lib/analysisHistory.ts:15-22 | A missing key or text that does not parse reads as the empty history. |
| AnalysisHistory.NewRecord | src/lib/analysisHistory.ts:26-30 | The new record carries the supplied id and timestamp. |
| AnalysisHistory.NewRecordKeepsInput | src/lib/analysisHistory.ts:26-30 | Every caller-supplied field survives into the stored record. |
| AnalysisHistory.Prepended | src/lib/analysisHistory.ts:31 | The new record comes first, followed by the previous list in order, cut to min(n+1, 10) entries. |
| AnalysisHistory.PrependedEvictsOldest | src/lib/analysisHistory.ts:13-31 | The list never exceeds ten records. Below ten nothing is dropped; at ten exactly the oldest is evicted. |
| AnalysisHistory.Trimmed | src/lib/analysisHistory.ts:34-37 | The degraded retry keeps the length of the list. |
| AnalysisHistory.TrimmedDropsOnlyOldPayloads | src/lib/analysisHistory.ts:34-37 | Entries 0-4 are unchanged. Later entries lose only `fullResults`, keeping id, symbol, date, tier, cost, status and verdict. |
| AnalysisHistory.TrimmedIdempotent | src/lib/analysisHistory.ts:34-37 | Trimming twice equals trimming once. |
| AnalysisHistory.SavedListShape | src/lib/analysisHistory.ts:24-39 | Whichever write succeeds, the stored list is the new record, complete, followed by the newest earlier records in order. Only their payloads may be cleared, and only past index 4 after a failed first write. |
| AnalysisHistory.GetAnalysisById | src/lib/analysisHistory.ts:41-43 | The result is None iff no record has the id. Otherwise it is the first record with that id. |
| AnalysisHistory.SavedRecordFoundById | src/lib/analysisHistory.ts:24-43 | Right after a save, looking up its fresh id returns the new record. |
| AnalysisHistory.HistoryStorage.SaveAnalysis | src/lib/analysisHistory.ts:24-39 | Writes the prepended list, or the trimmed one when the first write fails. If the retry fails too the slot is unchanged and the failure is reported. |
| UserSettings.Overlay | src/lib/userSettings.ts:16 | Object spread: a field present in the stored object wins, an absent one keeps the base value. |
| UserSettings.GetSettings | src/lib/userSettings.ts:13-19 | A missing or unparseable slot gives the defaults; a parsed object is overlaid on the defaults. |
| UserSettings.SaveThenGet | src/lib/userSettings.ts:21-24 | After saving a partial, reading gives the previous settings with exactly that partial applied. |
| UserSettings.OverlayIdempotent | src/lib/userSettings.ts:16 | Overlaying the same partial twice equals once. |
| UserSettings.SaveIdempotent | src/lib/userSettings.ts:21-24 | Saving the same partial twice stores what saving it once stores. |
| UserSettings.SettingsStorage.SaveSettings | src/lib/userSettings.ts:21-24 | The slot afterwards reads as the old settings overlaid with the partial. |
| TierConfig.FallbackOrder | src/lib/tierConfig.ts:17-21 | The fallback catalogue is lite, standard, premium, in that order, with their icons. |
| TierConfig.SettledTiers | src/lib/tierConfig.ts:27-39 | An ok response with a parsed body yields the body verbatim; a non-ok status, unparsable body or network error yields the fallback. |
| TierConfig.TierCache.FetchTiers | src/lib/tierConfig.ts:23-45 | A cached list is returned at once; a call during an in-flight request joins it; otherwise exactly one request starts. |
| TierConfig.TierCache.Settle | src/lib/tierConfig.ts:32-42 | Settling caches the settled list and clears the in-flight promise; it never rejects. |
| TierConfig.ConcurrentCallers | src/lib/tierConfig.ts:23-45 | Two calls before settling and one after issue exactly one request. The later call sees the cached list. |
| TierConfig.UseTiersInitial | src/lib/tierConfig.ts:47-49 | The hook starts from the cache if set (not loading), else from the fallback (loading). |
| TierConfig.GetTierById | src/lib/tierConfig.ts:66-68 | The result is None iff no tier has the id. Otherwise it is the first tier with that id. |
| TierConfig.FallbackLookups | src/lib/tierConfig.ts:17-21 | Each fallback id resolves to its own entry. |
| QuickAnalysisForm.Kept | src/components/QuickAnalysisForm.tsx:58 | The regex replacement keeps only A-Z, a-z, 0-9 and '.'. |
| QuickAnalysisForm.KeptAppend | src/components/QuickAnalysisForm.tsx:58 | The filter distributes over concatenation, so kept characters stay in order. |
| QuickAnalysisForm.KeptAllKept | src/components/QuickAnalysisForm.tsx:58 | A string of allowed characters passes the filter unchanged. |
| QuickAnalysisForm.Sanitize | src/components/QuickAnalysisForm.tsx:57-60 | The ticker has at most 6 characters, each in A-Z, 0-9 or '.', and equals the upper-cased kept characters of the input. |
| QuickAnalysisForm.SanitizeClean | src/components/QuickAnalysisForm.tsx:57-60 | An already clean ticker passes through unchanged. |
| QuickAnalysisForm.SanitizeIdempotent | src/components/QuickAnalysisForm.tsx:57-60 | Sanitising twice equals sanitising once. |
| QuickAnalysisForm.SanitizeIgnoresTail | src/components/QuickAnalysisForm.tsx:57-60 | Once six characters are kept, typing more changes nothing. |
| QuickAnalysisForm.TierItemIcon | src/components/QuickAnalysisForm.tsx:6-10 | Exactly lite, standard and premium have an icon. |
| QuickAnalysisForm.TierBorderColor | src/components/QuickAnalysisForm.tsx:12-16 | Exactly lite, standard and premium have a border colour. |
| QuickAnalysisForm.TierItem | src/components/QuickAnalysisForm.tsx:139-157 | An item is selected iff its id is the current tier. The selected item gets its tier colour (or none for an unknown id); the others get a transparent border. The icon is absent exactly for unknown ids. |
| QuickAnalysisForm.TierItems | src/components/QuickAnalysisForm.tsx:139-157 | There is one item per tier, in catalogue order. |
| QuickAnalysisForm.OneSelectedItem | src/components/QuickAnalysisForm.tsx:139-157 | With distinct ids at most one item is selected, and one is selected iff the current id is listed. |
| QuickAnalysisForm.SelectInterval | src/components/QuickAnalysisForm.tsx:36-46 | A choice in the interval select reaches a parent state iff `onIntervalChange` is supplied. |
| QuickAnalysisForm.SelectPeriod | src/components/QuickAnalysisForm.tsx:36-46 | A choice in the period select reaches a parent state iff `onPeriodChange` is supplied. |
| FileDrop.DropSelection | src/components/FileDropzone.tsx:31-42 | A drop selects the first file iff there is one and its name ends in ".csv". |
| FileDrop.InputSelection | src/components/FileDropzone.tsx:44-48 | The browse input selects the first file iff there is one. |
| FileDrop.DropIgnoresLaterFiles | src/components/FileDropzone.tsx:36-39 | Files after the first never affect a drop. |
| FileDrop.DropStricterThanInput | src/components/FileDropzone.tsx:31-48 | Whatever a drop accepts the input accepts too. A .txt file is accepted by the input but not by a drop. |
| FileDrop.CallsFor | src/components/FileDropzone.tsx:36-47 | A selection makes exactly one parent callback, and no selection none. |
| FileDrop.DropArea.DragIn | src/components/FileDropzone.tsx:19-23 | Sets the dragging flag; calls no callback. |
| FileDrop.DropArea.DragOut | src/components/FileDropzone.tsx:25-29 | Clears the dragging flag; calls no callback. |
| FileDrop.DropArea.Drop | src/components/FileDropzone.tsx:31-42 | Clears the flag and calls back only for an accepted csv. |
| FileDrop.DropArea.InputChange | src/components/FileDropzone.tsx:44-48 | Calls back with the first chosen file, if any; the flag is untouched. |
| FileDrop.DropArea.Remove | src/components/FileDropzone.tsx:66 | Calls back with null. |
| FileDrop.RejectedDrop | src/components/FileDropzone.tsx:36-39 | Dropping a non-csv file never reaches the parent and leaves the flag clear. |
| FileDropzone.View | src/components/FileDropzone.tsx:50-101 | The file card shows iff a file is chosen. The empty dropzone is highlighted iff a drag is over it. |
| AdvancedDataForm.FirstOf | src/components/AdvancedDataForm.tsx:36 | `files?.[0]` is present iff the list exists and is non-empty, and is then its first entry. |
| AdvancedDataForm.DropAccepts | src/components/AdvancedDataForm.tsx:31-39 | An accepted drop has a first file. |
| AdvancedDataForm.DropAgreesWithDropzone | src/components/AdvancedDataForm.tsx:31-39 | The optional-chained test accepts exactly the drops the dropzone accepts and selects the same file. An absent file list is never accepted. |
| AdvancedDataForm.InputAgreesWithDropzone | src/components/AdvancedDataForm.tsx:77 | The form's input handler selects what the dropzone's does. |
| UploadZone.CurrentStep | src/components/UploadZone.tsx:58-61 | The step is at most 3 and never above progress/25. |
| UploadZone.CurrentStepQuarters | src/components/UploadZone.tsx:58-61 | The step is 0, 1, 2, 3 on [0,25), [25,50), [50,75), [75,∞). |
| UploadZone.CurrentStepMonotone | src/components/UploadZone.tsx:58-61 | More progress never moves the step back. |
| UploadZone.Highlights | src/components/UploadZone.tsx:80 | Label i is lit iff i ≤ the current step. |
| UploadZone.HighlightsArePrefix | src/components/UploadZone.tsx:80 | The lit labels form a prefix, and the first is always lit. |
| UploadZone.View | src/components/UploadZone.tsx:64-135 | Loading wins over a chosen file, which wins over the empty label. Each view carries the data it shows. |
| UploadPage.Tick | src/pages/Upload.tsx:39 | As written, a tick never exceeds 95, never lowers progress at or below 95, and adds less than 12. |
| UploadPage.TickUndoesCompletion | src/pages/Upload.tsx:36-42 | As written, a tick after success turns 100 back into 95. |
| UploadPage.SettledTick | src/pages/Upload.tsx:39 | Corrected: a complete bar stays complete, and otherwise it behaves as written; progress never decreases. |
| UploadPage.UploadPage.DragIn | src/pages/Upload.tsx:49-53 | Sets only the dragging flag. |
| UploadPage.UploadPage.DragOut | src/pages/Upload.tsx:55-59 | Clears only the dragging flag. |
| UploadPage.UploadPage.Drop | src/pages/Upload.tsx:61-69 | Clears the flag. The file is replaced only by a first file named *.csv. |
| UploadPage.UploadPage.InputChange | src/pages/Upload.tsx:71-75 | Any first chosen file replaces the file; an empty list keeps it. |
| UploadPage.UploadPage.Remove | src/pages/Upload.tsx:168 | Clears the file only. |
| UploadPage.UploadPage.BeginAnalyze | src/pages/Upload.tsx:77-80 | Starts loading from 0 iff a file is chosen, after which the button is disabled. |
| UploadPage.UploadPage.TickProgress | src/pages/Upload.tsx:36-42 | One tick of the corrected interval keeps the progress invariant and never lowers progress. |
| UploadPage.UploadPage.Resolve | src/pages/Upload.tsx:86-105 | Success sets 100 and records the navigation to /results with the data. Failure records the toast and returns to idle at 0. |
| UploadPage.UploadPage.TickProgressAsWritten | src/pages/Upload.tsx:36-42 | As written, one tick keeps the progress invariant but clamps a completed bar back to 95. |
| UploadPage.SuccessfulRunAsWritten | src/pages/Upload.tsx:36-105 | As written, a tick after the success leaves the bar at 95 while loading, with one navigation and no toast. |
| UploadPage.SuccessfulRun | src/pages/Upload.tsx:36-105 | Corrected: with the corrected tick, later ticks leave the bar at 100, with one navigation and no toast. |
| IndexPage.IndexPage.SelectFile | src/pages/Index.tsx:94 | Sets the file only. |
| IndexPage.IndexPage.View | src/pages/Index.tsx:54-98 | The results view shows iff a result is held; otherwise the upload view shows the file and the busy flag. |
| IndexPage.IndexPage.BeginAnalyze | src/pages/Index.tsx:19-21 | Starts loading iff a file is chosen, after which the button is disabled. |
| IndexPage.IndexPage.Resolve | src/pages/Index.tsx:22-45 | Always ends idle on the results view. Success shows the response; any failure shows the demo result and adds the demo toast. |
| IndexPage.IndexPage.HandleReset | src/pages/Index.tsx:48-51 | Clears file and result, back to an empty upload view. |
| Dashboard.TotalSpentPrepend | src/pages/Dashboard.tsx:12 | Prepending a record adds its cost to the left-folded total. |
| Dashboard.TotalSpentBounds | src/pages/Dashboard.tsx:12 | With all costs in [lo, hi] the total lies in [n·lo, n·hi]. |
| Dashboard.AvgCostBounds | src/pages/Dashboard.tsx:13 | The average is 0 for an empty history, else between the cheapest and the dearest cost. |
| Dashboard.StatsOf | src/pages/Dashboard.tsx:11-30 | The count is the history length, and average × count equals the total. An empty history gives zeros. |
| Dashboard.VerdictCell | src/pages/Dashboard.tsx:94 | An absent or empty verdict shows the dash placeholder; otherwise the verdict. |
| Dashboard.StatusVariant | src/pages/Dashboard.tsx:97 | The badge is "default" iff the status is "complete". |
| Dashboard.StatusCell | src/pages/Dashboard.tsx:100 | Upper-casing succeeds iff the record has a status. |
| Dashboard.Rows | src/pages/Dashboard.tsx:84-104 | The table renders iff every record has a status. It then has one row per record, in stored order. |
| Dashboard.Render | src/pages/Dashboard.tsx:11-104 | The page renders iff every record has a status. The stats are those of the stored history; the empty state shows iff it is empty. |
| Display.SignPrefix | src/components/LevelsCard.tsx:64 | "+" iff the distance is positive, else "". |
| GapsCard.GapRowOf | src/components/GapsCard.tsx:41-60 | The up arrow and success tone show iff the direction is "up". The Filled/Open mark follows `filled`. Date, size and type are copied. |
| GapsCard.GapRows | src/components/GapsCard.tsx:34 | The rows are the first min(n,5) gaps, in order. |
| GapsCard.CountBadge | src/components/GapsCard.tsx:19 | The badge counts all gaps. |
| GapsCard.BadgeCountsHiddenGaps | src/components/GapsCard.tsx:19-34 | The badge exceeds the shown rows by exactly the hidden gaps. |
| GapsCard.MockGapTable | src/components/GapsCard.tsx:34-60 | The demo result gives five rows and a badge of 5, with the first row as listed. |
| LevelsCard.DistanceTone | src/components/LevelsCard.tsx:57-62 | The success colour shows iff the sign prefix is "+". |
| LevelsCard.LevelRowOf | src/components/LevelsCard.tsx:36-64 | The support label and tone show iff the type is "support". "+" and green show iff the distance is positive. Price, strength and distance are copied. |
| LevelsCard.LevelRows | src/components/LevelsCard.tsx:30 | The rows are the first min(n,5) levels, in order. |
| LevelsCard.MockLevelSigns | src/components/LevelsCard.tsx:30-64 | On the demo result a row shows "+" iff it is a resistance. |
| ZonesCard.FreshCount | src/components/ZonesCard.tsx:6 | The count is at most the zone count, and 0 iff no zone is fresh. |
| ZonesCard.FreshCountIncludesHidden | src/components/ZonesCard.tsx:6-18 | The badge counts fresh zones beyond the three shown, and is never less than the shown fresh count. |
| ZonesCard.ZoneCardOf | src/components/ZonesCard.tsx:21-38 | The highlighted border and star show iff the zone is fresh. The demand label and tone show iff the type is "demand". |
| ZonesCard.ZoneCards | src/components/ZonesCard.tsx:18 | The cards are the first min(n,3) zones, in order. |
| ZonesCard.MockZoneCards | src/components/ZonesCard.tsx:6-38 | The demo result gives three cards and a badge of 2 fresh. |
| StatusIndicator.MarkLabel | src/components/StatusIndicator.tsx:9-30 | Each mark's label is one of Fresh, Tested, Filled, Open. |
| StatusIndicator.MarkLabelsDistinct | src/components/StatusIndicator.tsx:9-30 | Two marks share a label iff they are the same mark. |
| StatusIndicator.DirectionBadge | src/components/StatusIndicator.tsx:34-47 | The bull colour and "Up" show iff the direction is "up"; otherwise the bear colour and "Down". |
| StatusIndicator.TierBadge | src/components/StatusIndicator.tsx:49-61 | A known tier gets its configuration; any other falls back to standard's. |
| StatusIndicator.TierBadgeLabels | src/components/StatusIndicator.tsx:49-61 | The tiers read FREE, STD and PRO; an unknown tier reads as standard. |
| ResultsPage.StateField | src/pages/ResultsPage.tsx:15-16 | An absent or empty field falls back. |
| ResultsPage.HeaderSymbol | src/pages/ResultsPage.tsx:15 | Without navigation state the symbol is DEMO; otherwise the state's symbol, defaulting to DEMO. |
| ResultsPage.HeaderTier | src/pages/ResultsPage.tsx:16 | Without navigation state the tier is standard; otherwise the state's tier, defaulting to standard. |
| ResultsPage.DistanceToneAsWritten | src/pages/ResultsPage.tsx:138 | As written, the distance is destructive iff it is negative. |
| ResultsPage.ZeroDistanceDisagrees | src/pages/ResultsPage.tsx:138-139 | At distance 0 this page shows green while the card grid shows red, and neither shows "+". |
| ResultsPage.DistanceTone | src/pages/ResultsPage.tsx:138 | Corrected: green iff the sign is "+", equal to the card grid's rule, and equal to the as-written rule off zero. |
| ResultsPage.LevelRowOf | src/pages/ResultsPage.tsx:124-139 | The "default" variant and support label show iff the type is "support". "+" shows iff the distance is positive. The tone follows the corrected rule. |
| ResultsPage.ZoneRowOf | src/pages/ResultsPage.tsx:159-164 | The star shows iff the zone is fresh. The "default" variant shows iff the type is demand. The type text is upper-cased; the range, pattern and strength are copied. |
| ResultsPage.Page | src/pages/ResultsPage.tsx:13-164 | The page always shows the demo result, with every gap, level and zone as a row. The gap badge counts all gaps and the fresh badge counts fresh zones. The header comes from the navigation state. |
| ResultsPage.PageIgnoresId | src/pages/ResultsPage.tsx:13-17 | The `:id` parameter never changes the page. |
| ResultsPage.PageWithoutState | src/pages/ResultsPage.tsx:15-17 | Without state the header is DEMO / standard, and the fresh badge reads 2. |
| AnalysisModePicker.Other | src/components/AnalysisModePicker.tsx:11-16 | The arrow target is always the other mode. |
| AnalysisModePicker.OtherInvolution | src/components/AnalysisModePicker.tsx:11-16 | Switching twice returns to the start. |
| AnalysisModePicker.KeyDown | src/components/AnalysisModePicker.tsx:11-16 | A change happens iff the key is an arrow key, and it leaves the target tab's mode. |
| AnalysisModePicker.ArrowTwiceReturns | src/components/AnalysisModePicker.tsx:11-16 | Two arrow presses return to the starting mode. |
| AnalysisModePicker.Click | src/components/AnalysisModePicker.tsx:30-46 | A click selects the clicked tab's own mode. |
| AnalysisModePicker.Tabs | src/components/AnalysisModePicker.tsx:28-45 | Quick comes first. A tab is aria-selected iff it is the current mode, with tabIndex 0 iff selected, else -1. |
| AnalysisModePicker.ExactlyOneSelectedTab | src/components/AnalysisModePicker.tsx:28-45 | Exactly one tab, the current mode's, is selected and reachable by Tab. |
| ProtectedRoute.Decide | src/components/ProtectedRoute.tsx:20-32 | Spinner iff loading; redirect to /auth (replace) iff loaded without a user; children iff loaded with one. |
| ProtectedRoute.ToastExactlyWhenRedirected | src/components/ProtectedRoute.tsx:11-30 | The sign-in toast fires exactly on the renders that redirect. |
| Accessibility.ThemeClass | src/contexts/AccessibilityContext.tsx:36-42 | A known theme maps into the theme family; an unknown one yields "undefined". |
| Accessibility.TextSizeClass | src/contexts/AccessibilityContext.tsx:22-27 | A known size maps into the size family; an unknown one yields "undefined". |
| Accessibility.CvClass | src/contexts/AccessibilityContext.tsx:51-56 | A known colour-vision mode maps into the cv family. |
| Accessibility.ClassesNameTheirValue | src/contexts/AccessibilityContext.tsx:22-56 | Distinct values get distinct classes. |
| Accessibility.Replace | src/contexts/AccessibilityContext.tsx:36-56 | After removing a family and adding one of its classes, exactly that class of the family remains. All other classes are kept. |
| Accessibility.Toggle | src/contexts/AccessibilityContext.tsx:58-66 | The class is present iff on; all others are kept. |
| Accessibility.StoredOr | src/contexts/AccessibilityContext.tsx:30-34 | A missing or empty stored string falls back. |
| Accessibility.InitialPrefsAsWritten | src/contexts/AccessibilityContext.tsx:30-34 | As written: empty storage gives dark/normal/standard with focus on. Reduce-motion is on iff stored "true"; enhanced-focus is off iff stored "false". |
| Accessibility.Known | src/contexts/AccessibilityContext.tsx:30-34 | A value is kept if allowed, else replaced by the fallback. |
| Accessibility.InitialPrefs | src/contexts/AccessibilityContext.tsx:30-34 | Corrected: always valid, equal to the as-written state on every well-formed store, with the same flags. |
| Accessibility.Persisted | src/contexts/AccessibilityContext.tsx:36-66 | The effects write all five keys and keep the others. |
| Accessibility.PersistRoundTrip | src/contexts/AccessibilityContext.tsx:30-66 | Persisting a valid state and reloading gives the same state. |
| Accessibility.FamiliesDisjoint | src/contexts/AccessibilityContext.tsx:22-66 | The class families and flag classes are pairwise disjoint. |
| Accessibility.EffectsShow | src/contexts/AccessibilityContext.tsx:36-66 | After the effects the root has exactly one class per family, naming the current value, and each flag class iff its flag is set. Unrelated classes are kept. |
| Accessibility.UnknownStoredThemeShowsNoTheme | src/contexts/AccessibilityContext.tsx:30-42 | As written, a stored unknown theme leaves no theme class and adds "undefined". |
| Accessibility.UnknownStoredThemeFallsBack | src/contexts/AccessibilityContext.tsx:30-34 | Corrected: the same store loads the dark theme. |
| Accessibility.ReloadAfterWrite | src/contexts/AccessibilityContext.tsx:30-66 | Writing one key changes only the field stored under it on reload. |
| Accessibility.ThemeStep | src/contexts/AccessibilityContext.tsx:36-42 | From a shown, stored, valid state, choosing a known theme leaves the root showing the new state and storage reloading it. |
| Accessibility.TextSizeStep | src/contexts/AccessibilityContext.tsx:44-49 | The same for a known text size. |
| Accessibility.ColorVisionStep | src/contexts/AccessibilityContext.tsx:51-56 | The same for a known colour-vision mode. |
| Accessibility.ReduceMotionStep | src/contexts/AccessibilityContext.tsx:58-61 | The same for the reduce-motion flag. |
| Accessibility.EnhancedFocusStep | src/contexts/AccessibilityContext.tsx:63-66 | The same for the enhanced-focus flag. |
| Accessibility.AccessibilityProvider.constructor | src/contexts/AccessibilityContext.tsx:30-66 | Mount loads the corrected initial state, runs all five effects and persists it, establishing the invariant. |
| Accessibility.AccessibilityProvider.SetTheme | src/contexts/AccessibilityContext.tsx:36-42 | Changes only the theme. Replaces the theme class and writes the theme key. Keeps the invariant. |
| Accessibility.AccessibilityProvider.SetTextSize | src/contexts/AccessibilityContext.tsx:44-49 | Changes only the text size. Replaces the size class and writes its key. Keeps the invariant. |
| Accessibility.AccessibilityProvider.SetColorVision | src/contexts/AccessibilityContext.tsx:51-56 | Changes only the colour-vision mode. Replaces the cv class and writes its key. Keeps the invariant. |
| Accessibility.AccessibilityProvider.SetReduceMotion | src/contexts/AccessibilityContext.tsx:58-61 | Changes only the flag. Toggles its class and writes "true"/"false". Keeps the invariant. |
| Accessibility.AccessibilityProvider.SetEnhancedFocus | src/contexts/AccessibilityContext.tsx:63-66 | Changes only the flag. Toggles its class and writes "true"/"false". Keeps the invariant. |
| Accessibility.UseAccessibility | src/contexts/AccessibilityContext.tsx:75-79 | Fails with the provider message iff there is no provider, else returns the context. |
| AnalysisContainer.NextStage | src/components/AnalysisContainer.tsx:34-40 | The stage timer advances one stage and never passes the last. |
| AnalysisContainer.Round | src/components/AnalysisContainer.tsx:43 | The result is the nearest integer, halves rounding up. |
| AnalysisContainer.ProgressPercent | src/components/AnalysisContainer.tsx:42-44 | The result is 0 when idle, else (step+1)·20, between 20 and 100. |
| AnalysisContainer.StageMarks | src/components/AnalysisContainer.tsx:121-136 | Earlier stages are done, the current one is active, later ones are pending. |
| AnalysisContainer.OneActiveStage | src/components/AnalysisContainer.tsx:121-136 | Exactly the current stage is active. |
| AnalysisContainer.CanSubmitIff | src/components/AnalysisContainer.tsx:46-47 | Quick mode needs a non-blank character in the ticker, advanced mode a file. A sanitised ticker needs only to be non-empty. |
| AnalysisContainer.BuildRequest | src/components/AnalysisContainer.tsx:57-66 | Quick mode builds a ticker request with ticker, timeframe and tier; advanced mode a csv request with the file and tier. |
| AnalysisContainer.FormFields | src/components/AnalysisContainer.tsx:55-66 | The field names are appended in the source order. |
| AnalysisContainer.ParseFields | src/components/AnalysisContainer.tsx:55-66 | A field list that parses is the encoding of the parsed request. |
| AnalysisContainer.FormFieldsRoundTrip | src/components/AnalysisContainer.tsx:55-66 | Every request decodes back from its form fields. |
| AnalysisContainer.StatusMessage | src/components/AnalysisContainer.tsx:73-77 | 400 and 422 have their own messages; every other status gets the generic one. |
| AnalysisContainer.ErrorDescription | src/components/AnalysisContainer.tsx:90 | An empty error message falls back to "Could not reach the backend.". |
| AnalysisContainer.FailureDescription | src/components/AnalysisContainer.tsx:73-91 | A status failure describes the status; a thrown error describes its message. |
| AnalysisContainer.StatusFailuresAreSpecific | src/components/AnalysisContainer.tsx:73-91 | A status failure never reads as unreachable backend, and the three status messages are distinct. |
| AnalysisContainer.SavedSymbol | src/components/AnalysisContainer.tsx:80 | Quick mode saves the ticker. Advanced mode saves the response's symbol, or UNKNOWN when it is absent or empty. |
| AnalysisContainer.SavedCost | src/components/AnalysisContainer.tsx:84 | The response's total cost, or 0 when absent. |
| AnalysisContainer.RecordInputAsWritten | src/components/AnalysisContainer.tsx:81-87 | As written, the saved record has symbol, tier, cost, verdict and payload but no status. |
| AnalysisContainer.AsWrittenRecordBreaksDashboard | src/components/AnalysisContainer.tsx:81-87 | As written, after any such save the dashboard render fails. |
| AnalysisContainer.RecordInputFor | src/components/AnalysisContainer.tsx:81-87 | Corrected: the same record with status "complete". |
| AnalysisContainer.SavedRecordsRenderOnDashboard | src/components/AnalysisContainer.tsx:81-88 | Corrected: a dashboard that rendered before the save renders after it, and the new row has a "default" COMPLETE badge. |
| AnalysisContainer.LiveResultsHeader | src/components/AnalysisContainer.tsx:88 | The live results route receives no symbol or tier, so its header reads DEMO / standard. |
| AnalysisContainer.QuickPropsAsWritten | src/components/AnalysisContainer.tsx:146-153 | As written, the quick form receives ticker, timeframe and tier props with their setters. |
| AnalysisContainer.AsWrittenPropsLoseInterval | src/components/AnalysisContainer.tsx:146-153 | As written, the interval and period props are missing and both selects update nothing. The initial "1m" is not an interval option. |
| AnalysisContainer.QuickProps | src/components/AnalysisContainer.tsx:146-153 | Corrected: every declared prop is supplied. The interval select drives the request's timeframe and the period select a period state. |
| AnalysisContainer.AnalysisContainer.constructor | src/components/AnalysisContainer.tsx:24-30 | The container starts in quick mode with an empty ticker, "1m", standard and no file, idle at stage 0. |
| AnalysisContainer.AnalysisContainer.SetMode | src/components/AnalysisContainer.tsx:24 | Changes only the mode. |
| AnalysisContainer.AnalysisContainer.TypeTicker | src/components/QuickAnalysisForm.tsx:57-60 | Stores the sanitised ticker, at most six characters; nothing else changes. |
| AnalysisContainer.AnalysisContainer.ChooseInterval | src/components/QuickAnalysisForm.tsx:36-46 | Corrected wiring: the chosen interval becomes the request's timeframe. |
| AnalysisContainer.AnalysisContainer.SetTier | src/components/AnalysisContainer.tsx:27 | Changes only the tier. |
| AnalysisContainer.AnalysisContainer.SetFile | src/components/AnalysisContainer.tsx:28 | Changes only the file. |
| AnalysisContainer.AnalysisContainer.BeginSubmit | src/components/AnalysisContainer.tsx:49-71 | Sends a request iff the form can be submitted, and then exactly the built request. It starts loading at stage 0. |
| AnalysisContainer.AnalysisContainer.AdvanceStage | src/components/AnalysisContainer.tsx:34-44 | Advances one stage, raising progress by 20. |
| AnalysisContainer.AnalysisContainer.Resolve | src/components/AnalysisContainer.tsx:68-95 | Corrected: the saved record carries status "complete" (`RecordInputFor`). Exactly one navigation or toast, ending idle at stage 0. On success the record is saved and the page navigates to /results/live; status or network failures toast the mapped message; a failed save toasts its error. |

## Left out

- HTTP requests are not modelled. `fetch`, the API URLs and the JSON bodies become `UiEffects.Response` values handed to the `Resolve` methods.
- The tier catalogue request is modelled only by `TierConfig.CatalogResponse`.
- Timers and randomness become explicit steps:
  - `setTimeout`, `setInterval` and their durations become explicit `AdvanceStage` / `TickProgress` calls.
  - The 300 ms navigation delay of the upload page is not modelled.
  - `Math.random()` is the parameter `r` of the upload tick.
- `crypto.randomUUID()` and `new Date().toISOString()` are parameters of `saveAnalysis`.
- Storage is modelled by slot contents, not by encoding:
  - JSON encoding and decoding are not modelled; a slot holds parsed records or unparsable text.
  - Stored JSON of the wrong shape, such as a non-array history or a `null` tier body, is not modelled.
- Storage quota errors are boolean parameters of the write. The error text a failed retry throws is a parameter.
- `getStorageSizeMB` is not modelled: it measures UTF-16 byte length of serialised storage, which depends on JSON encoding.
- `toFixed`, currency and date formatting in the views are left out. The model keeps the numbers.
- `toUpperCase` and `trim` are modelled on ASCII letters and ASCII white space only.
- React scheduling is abstracted away:
  - Effect dependency arrays are not modelled. Each effect runs exactly when its state changes, and cleanup of cancelled timers is implicit.
  - The `useTiers` effect after mount is not modelled; only its initial state (`TierConfig.UseTiersInitial`) and the shared cache are.
- Sign-in comes from the `useAuth` hook, which is not part of this model; `ProtectedRoute.Decide` takes its `loading` and `user` as inputs.
- The colours of the `useBullBearColors` hook are a constant table. They appear as the two values of `StatusIndicator.BullBear`.
- Static pages are not modelled:
  - Landing, TickerBanner, Navbar, Analyze, Settings (its save only toasts), Results (a single fallback), App and its routes.
- The AdvancedDataForm tier select is the same mapping as `QuickAnalysisForm.TierItems` and is not modelled twice. The ResultsPage gap rows reuse `GapsCard.GapRowOf`, although the page colours only the size, not the arrow.
- AnalysisContainer.AnalysisContainer.constructor: the initial look-back period is a parameter, because the quick form's period select has no fixed default of its own.
- AnalysisContainer.AnalysisContainer.Resolve: saves the corrected record (`RecordInputFor`, status "complete") rather than the status-less record of src/components/AnalysisContainer.tsx:81-87. The as-written record is `RecordInputAsWritten`; `AsWrittenRecordBreaksDashboard` shows its effect.
- UploadPage.SuccessfulRun: uses the corrected tick, so the bar stays at 100. As written, the next tick brings it back to 95 (src/pages/Upload.tsx:36-42); `UploadPage.SuccessfulRunAsWritten` models that run.
- UploadPage.UploadPage.TickProgress: is the corrected tick; the tick as written is `TickProgressAsWritten`.
- Lookups in JavaScript object literals treat a key that names an inherited `Object.prototype` member ("constructor", "toString") as present. The model treats such keys as unknown ids. A class token containing white space makes `classList.add` throw, which is not modelled either. The members below are affected; their "any other id" results hold only for ids that are not such keys.
- StatusIndicator.TierBadge: a tier id such as "constructor" is treated as unknown.
- StatusIndicator.TierBadgeLabels: a tier id such as "constructor" is treated as unknown.
- QuickAnalysisForm.TierItemIcon: a tier id such as "toString" is treated as unknown.
- QuickAnalysisForm.TierBorderColor: a tier id such as "toString" is treated as unknown.
- QuickAnalysisForm.TierItem: a tier id such as "toString" is treated as unknown.
- Accessibility.ThemeClass: a stored theme such as "constructor" yields "undefined" here; in the browser it yields a function, whose text has spaces, so `classList.add` throws.
- Accessibility.TextSizeClass: the same for stored text sizes.
- Accessibility.CvClass: the same for colour-vision modes.
- The upload page's `setProgress(100)` and navigation are modelled together in `UploadPage.UploadPage.Resolve`, with the navigation recorded at once.

## Findings

| source | as written | input that shows it | evidently intended | confidence | as-written member | corrected member |
|---|---|---|---|---|---|---|
| src/components/AnalysisContainer.tsx:81-87 | the saved history record has no `status`, but the dashboard calls `h.status.toUpperCase()` | any successful analysis, then opening the dashboard | save `status: "complete"`, the value the record type requires (src/lib/analysisHistory.ts:7) | high, not executed | AnalysisContainer.AsWrittenRecordBreaksDashboard | AnalysisContainer.SavedRecordsRenderOnDashboard |
| src/components/AnalysisContainer.tsx:146-153 | the quick form receives `timeframe`/`onTimeframeChange`, but it declares `interval`/`onIntervalChange` and `period`/`onPeriodChange` | choosing "1d" in the interval select; the request still sends "1m" | the interval select drives the `timeframe` sent, and the period has its own state | high, not executed | AnalysisContainer.AsWrittenPropsLoseInterval | AnalysisContainer.QuickProps |
| src/pages/ResultsPage.tsx:138 | a level at distance 0 is coloured green here, but red in the card grid (src/components/LevelsCard.tsx:57-62), and neither shows "+" | a level with `distance_percent` 0 | one colour rule, green exactly when "+" is shown | medium, not executed | ResultsPage.ZeroDistanceDisagrees | ResultsPage.DistanceTone |
| src/pages/Upload.tsx:36-42, 94 | after `setProgress(100)` the interval keeps running because `loading` stays true, and the next tick clamps progress back to 95 | any successful analysis, during the 300 ms before navigation | a complete bar stays at 100 | high, not executed | UploadPage.TickUndoesCompletion | UploadPage.SettledTick |
| src/contexts/AccessibilityContext.tsx:30-34 | stored strings are taken unchecked, so an unknown theme or text size adds the class "undefined" and removes the real one | storage `a11y-theme` = "solarized" | an unknown stored value falls back to the default | medium, not executed | Accessibility.UnknownStoredThemeShowsNoTheme | Accessibility.InitialPrefs |
