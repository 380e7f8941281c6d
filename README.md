# SkinCheck front end: a Dafny model of its client-side logic

This project models the logic of the SkinCheck mobile front end that works
without a screen:

- the three client-side stores:
  - the authentication session (`token`, `user`, and the two storage keys
    `"accessToken"` and `"user"`);
  - the home dashboard (`data`, `loading`, and `load()` with its
    `try`/`finally`);
  - the analysis store (`result`, the one-shot `analysisUpdated` flag, and
    `latestSummary`);
- the small classification and lookup functions the views use:
  - the condition bar's score thresholds and its `"<value>% · <status>"` label;
  - the level-to-colour switch and the face-coordinate table;
  - the radar chart's value lookup, rounded average, fixed tables and
    `selected` cell;
  - the face overlay's region map (the last entry wins) and its fixed render
    order.

Layout, one module per source file:

| file | module | models |
|---|---|---|
| `wrappers.dfy` | `Wrappers` | `Option`, `Outcome` (how a promise settles), `Result` |
| `types.dfy` | `SkinTypes` | the records of `src/types/analysis.ts` and `src/types/home.ts` |
| `auth_store.dfy` | `Auth` | `src/store/authStore.ts` |
| `home_store.dfy` | `Home` | `src/store/homeStore.ts` |
| `analysis_store.dfy` | `Analysis` | `src/store/analysisStore.ts` |
| `condition_bar.dfy` | `ConditionBar` | `src/components/common/ConditionBar.tsx` |
| `face_map.dfy` | `FaceMap` | `src/utils/faceMap.ts` |
| `water_spread_chart.dfy` | `WaterSpreadChart` | `src/components/WaterSpreadChart.tsx` |
| `face_region_overlay.dfy` | `FaceRegionOverlay` | `src/components/FaceRegionOverlay/FaceRegionOverlay.tsx` |

Each store is a class whose fields are the store's fields. Each store
operation is a method that updates those fields. Each method's contract ties
the new state to a pure transition function of the old state, and the
properties are proved about those functions. Every `await` on device storage
or on the network is one sequential step. How each step settles is a
parameter of the operation: an `Outcome` for a storage write, a `Result` for
the dashboard fetch. A rejection ends the operation at that step and becomes
the operation's own result, because the source has no `catch`.

The user record is persisted as `JSON.stringify(user)`. The model writes out
that serialisation for the one-field `User` record, including the JSON
escapes, together with a decoder. It proves that the decoder reads back the
user, so the `"user"` entry identifies the user who logged in. The
decoder `Deserialize` corresponds to no call in the source, which never reads
the `"user"` entry back. It is there only to prove that `Serialize` loses
nothing, that is, that it is injective.

## Model

| member | source | states |
|---|---|---|
| Auth.AuthStore.constructor | src/store/authStore.ts:15-17 | A fresh store holds no token and no user, whatever device storage holds. |
| Auth.AuthStore.Login | src/store/authStore.ts:19-24 | The new state and the returned settlement are those of `LoginStep` on the old state. The token/user pairing is kept. |
| Auth.AuthStore.Logout | src/store/authStore.ts:26-31 | The new state and the returned settlement are those of `LogoutStep` on the old state. The token/user pairing is kept. |
| Auth.LoginStep | src/store/authStore.ts:19-24 | The promise fulfils exactly when both writes do; otherwise it carries the first rejection. On success, memory holds the token and user, `"accessToken"` holds the token, and `"user"` holds a serialisation that decodes back to the user. On any rejection memory is unchanged. A rejected first write leaves storage untouched. A rejected second write leaves the new token in storage. No other key changes. |
| Auth.LogoutStep | src/store/authStore.ts:26-31 | On success both fields are null and both keys are absent. On any rejection memory is unchanged. Storage changes only by the removals that succeeded, and no other key changes. |
| Auth.LogoutIdempotent | src/store/authStore.ts:26-31 | A second completed logout leaves the state of the first. |
| Auth.StepsKeepPaired | src/store/authStore.ts:19-31 | Every settlement of login and logout keeps `token` null exactly when `user` is null. |
| Auth.PartialLoginDesynchronises | src/store/authStore.ts:20-23 | When the `"user"` write fails after the `"accessToken"` write, storage holds a token that memory does not. |
| Auth.SerializeRoundTrip | src/store/authStore.ts:21 | Decoding `JSON.stringify(user)` gives back the user. |
| Auth.UnescapeEscape | src/store/authStore.ts:21 | Decoding the body of a JSON string literal undoes the escaping of any string. |
| Auth.DecodeEscapeChar | src/store/authStore.ts:21 | The decoder reads back each escaped character and consumes exactly its escape sequence. |
| Home.HomeStore.constructor | src/store/homeStore.ts:11-13 | A fresh store has no data and `loading` false, and has published nothing. |
| Home.HomeStore.Load | src/store/homeStore.ts:15-23 | The published states are those of `LoadTrace`. `loading` is false afterwards. `data` is the fetched value on success and unchanged on failure. The result is the settlement of `LoadOutcome`. Only `data` and `loading` change. |
| Home.LoadTrace | src/store/homeStore.ts:15-23 | The first publication raises `loading` before the fetch is awaited. Every publication but the last has `loading` raised. The last has it lowered, on success and on failure. Success ends with the fetched data. Failure never publishes other data. |
| Home.LoadOutcome | src/store/homeStore.ts:17-22 | `load()` fulfils exactly when the fetch does. A fetch rejection is passed on with its reason. |
| Home.LoadIdempotentOnSameData | src/store/homeStore.ts:15-23 | Loading the same successful payload twice ends in the state one load ends in. |
| Analysis.AnalysisStore.constructor | src/store/analysisStore.ts:24-37 | A fresh store has no result, the flag down, and no latest summary. |
| Analysis.AnalysisStore.SetResult | src/store/analysisStore.ts:27 | `result` becomes the given result. The flag and the summary are unchanged. |
| Analysis.AnalysisStore.MarkUpdated | src/store/analysisStore.ts:31 | The flag is raised from any state, and nothing else changes. |
| Analysis.AnalysisStore.ClearUpdated | src/store/analysisStore.ts:32 | The flag is lowered from any state, and nothing else changes. |
| Analysis.AnalysisStore.SetLatestSummary | src/store/analysisStore.ts:21-36 | `latestSummary` becomes the given summary or null, and nothing else changes. |
| Analysis.FlagSettersIdempotent | src/store/analysisStore.ts:31-32 | Raising the flag twice is raising it once, and the same holds for clearing it. |
| Analysis.MarkThenClear | src/store/analysisStore.ts:31-32 | A raise then a clear leaves the flag down and the other fields as they were. From a state with the flag down, it changes nothing. |
| Analysis.SettersCommute | src/store/analysisStore.ts:27-36 | The setters write disjoint fields, so any two of them commute. |
| ConditionBar.StatusIntervals | src/components/common/ConditionBar.tsx:16-17 | "관리 필요" exactly below 40, "보통" exactly from 40 up to but not including 70, "양호" exactly from 70 up. |
| ConditionBar.StatusMonotone | src/components/common/ConditionBar.tsx:16-17 | A larger score never gets a worse status. |
| ConditionBar.DecimalDigits | src/components/common/ConditionBar.tsx:33 | The rendered digits of a number are a non-empty string of decimal digits. |
| ConditionBar.DigitsRoundTrip | src/components/common/ConditionBar.tsx:33 | The digit string of a natural number reads back as that number. |
| ConditionBar.ParseDecimalDigits | src/components/common/ConditionBar.tsx:33 | A digit string reads back as its number, with or without a leading minus. |
| ConditionBar.NumberRoundTrip | src/components/common/ConditionBar.tsx:33 | The text of any integer reads back as that integer. |
| ConditionBar.LabelRoundTrip | src/components/common/ConditionBar.tsx:16-33 | The label is the number, then "% · ", then the status. It reads back as exactly that number and the status that number gets. |
| FaceMap.FacePositionsMirrored | src/utils/faceMap.ts:3-13 | A zone and its mirror share `top` and lie the same distance either side of `left = 90`. Exactly the forehead and the lip sit on that line. |
| FaceMap.LevelColor | src/utils/faceMap.ts:19-31 | The fallback colour is returned exactly for strings other than the four level names. |
| FaceMap.LevelColorsDistinct | src/utils/faceMap.ts:19-31 | The four levels get four distinct colours, none of them the fallback. |
| WaterSpreadChart.RegionOrderCoversEachOnce | src/components/WaterSpreadChart.tsx:47-54 | The bar order lists six zones and each zone exactly once. |
| WaterSpreadChart.RegionLabelsDistinct | src/components/WaterSpreadChart.tsx:38-45 | Every zone has a non-empty label, and different zones have different labels. |
| WaterSpreadChart.ColorTablesTotal | src/components/WaterSpreadChart.tsx:56-68 | Every condition has a main and a light colour that differ, and no two conditions share a main colour. |
| WaterSpreadChart.GetValue | src/components/WaterSpreadChart.tsx:96-97 | The value of the first item for the zone, or 0 when no item is for the zone. |
| WaterSpreadChart.AvgValue | src/components/WaterSpreadChart.tsx:99-101 | Nothing exactly when the data is empty. Otherwise an integer within half a point of the mean, half-way cases rounded up. |
| WaterSpreadChart.AvgValueUnique | src/components/WaterSpreadChart.tsx:99-101 | No other integer meets those bounds, so the average is the mean rounded half up. |
| WaterSpreadChart.Caption | src/components/WaterSpreadChart.tsx:263-277 | A caption is shown exactly while a zone is selected, and it starts with that zone's label. |
| WaterSpreadChart.IndexOf | src/components/WaterSpreadChart.tsx:274 | The position returned holds the first occurrence of the character, and no earlier position holds it. |
| WaterSpreadChart.RegionNamedLabel | src/components/WaterSpreadChart.tsx:38-45 | Every label names its own zone and no other. |
| WaterSpreadChart.CaptionRoundTrip | src/components/WaterSpreadChart.tsx:263-277 | The caption of a selected zone reads back as exactly that zone and the value `getValue` gives for it, followed by "점". |
| WaterSpreadChart.Selection.constructor | src/components/WaterSpreadChart.tsx:84 | Nothing is selected at first. |
| WaterSpreadChart.Selection.Tap | src/components/WaterSpreadChart.tsx:160-217 | Tapping a zone's bar, end dot, value or label selects that zone. |
| WaterSpreadChart.Selection.Clear | src/components/WaterSpreadChart.tsx:279-281 | The clear button deselects. |
| FaceRegionOverlay.RegionColorsBySide | src/components/FaceRegionOverlay/FaceRegionOverlay.tsx:11-18 | Two zones share a colour exactly when they are the same zone or mirror images. So the eyes share one, the cheeks share one, and forehead and lip each have their own. |
| FaceRegionOverlay.KeepsLastEntriesExtend | src/components/FaceRegionOverlay/FaceRegionOverlay.tsx:21 | Appending an entry to the list and writing it into the map keeps map and list in step. |
| FaceRegionOverlay.RegionMap | src/components/FaceRegionOverlay/FaceRegionOverlay.tsx:21 | The map's keys are exactly the zones the list mentions. Each key holds the last entry for that zone. |
| FaceRegionOverlay.LastEntryWins | src/components/FaceRegionOverlay/FaceRegionOverlay.tsx:21 | In any list, the last entry for a zone is the one the map holds for it, whatever entries for that zone came earlier. |
| FaceRegionOverlay.Render | src/components/FaceRegionOverlay/FaceRegionOverlay.tsx:23-43 | A zone missing from the map renders nothing. A present zone renders a target that carries its entry for `onSelect`, its zone colour as border, and that colour with "33" appended as background. |
| FaceRegionOverlay.RankOfZoneAt | src/components/FaceRegionOverlay/FaceRegionOverlay.tsx:47-52 | The zone rendered at each step has that step as its rank. |
| FaceRegionOverlay.ZoneAtRank | src/components/FaceRegionOverlay/FaceRegionOverlay.tsx:47-52 | Every zone is rendered at exactly one of the six steps. |
| FaceRegionOverlay.RenderFrom | src/components/FaceRegionOverlay/FaceRegionOverlay.tsx:45-53 | Every target rendered from a step on is for a zone of that step or later, and is exactly that zone's `render` result. |
| FaceRegionOverlay.RenderFromComplete | src/components/FaceRegionOverlay/FaceRegionOverlay.tsx:45-53 | Every zone present in the map whose step is not yet passed gets rendered. |
| FaceRegionOverlay.RenderFromOrdered | src/components/FaceRegionOverlay/FaceRegionOverlay.tsx:45-53 | Targets come out in strictly increasing render step. |
| FaceRegionOverlay.Overlay | src/components/FaceRegionOverlay/FaceRegionOverlay.tsx:20-55 | A zone is drawn exactly when the input mentions it. Each target carries the zone's last entry, the zone's colour as border, and that colour with "33" appended as background. Targets come in the fixed order forehead, left eye, right eye, left cheek, right cheek, lip. |
| FaceRegionOverlay.RegionMapIncluded | src/components/FaceRegionOverlay/FaceRegionOverlay.tsx:21 | When one list is a rearrangement of another without repeated zones, the first list's map agrees with the second's. |
| FaceRegionOverlay.OverlayOrderIndependent | src/components/FaceRegionOverlay/FaceRegionOverlay.tsx:20-55 | With one entry per zone, the overlay does not depend on the input order. |

## Left out

- The HTTP client, its interceptor and the API calls (`src/api/client.ts`, `src/api/auth.ts`, `src/api/analysis.ts`, `src/api/home.ts`) are not part of this model. The dashboard fetch and the storage calls are parameters of the store operations.
- `app/intro.tsx` is not part of this model. Its two start-up effects race each other, and scheduling is not modelled.
- `src/components/VerifyEmailModal.tsx` and the purely presentational components and styles are not part of this model.
- Asynchrony: each `await` is one sequential step. Interleavings of concurrent operations are not modelled, for example an older `load()` finishing after a newer one. Neither is the moment at which zustand notifies subscribers.
- The radar chart's trigonometric coordinates, its bar lengths and its spring animation are floating-point rendering and are not modelled. Neither are the condition bar's width style and the overlay's zone styles.
- Scores and ids are modelled as integers. Fractional scores, `NaN` and `Infinity` are not modelled. This covers the thresholds, the label text and the average.
- ConditionBar.NumberRoundTrip: the decimal text is proved for every mathematical integer. JavaScript writes integral numbers of magnitude 1e21 or more in exponent form (`"1e+21"`), so for those the model's text is not the source's.
- WaterSpreadChart.AvgValue: the sum is exact. In JavaScript a sum beyond 2^53 is a rounded double, so for such scores the average can differ from the model's.
- WaterSpreadChart.AvgValue: on empty data the source divides by zero and shows `NaN`. The model returns no value there instead of requiring non-empty data.
- Auth.SerializeRoundTrip: the escaping covers every character JSON.stringify can meet in a well-formed string. Lone UTF-16 surrogates, which JSON.stringify writes as `\u` escapes, are not modelled, because Dafny's `char` holds Unicode scalar values.
- The source never restores a session into the auth store. `app/intro.tsx` removes both keys at start-up and only reads `"accessToken"` to decide where to navigate. Nothing reads `"user"` back or sets the store's `token` and `user`. So the store starts signed out after every launch, even when the intro screen sends the user on to the home screen. The model's constructor does the same.
- Form validation, the calendar grouping of history and the concern-label table are not in the modelled files and are not modelled.
