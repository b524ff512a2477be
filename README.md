# Collective psychology metrics, modelled in Dafny

The project models the metrics pipeline of "The Stoa of Shared Skin". This pipeline reads agents and their projects and
derives three indicators: a *temperature* (emotional tone), a *pulse* (activity level) and a *mood* label.
The repository computes these indicators in three separate places. metrics.js lowers the temperature for positive sentiment; index.js and backend/analytics.js raise it. index.js caps the pulse at 50; the other two use 0–100. All three put the temperature on [0, 100], and their three mood rule sets all differ.
The dashboard then classifies them again for display and keeps a ten-reading pulse history.
Every piece is modelled as written, with its own constants; nothing is unified.

| Dafny module | source | what it is |
|---|---|---|
| `CoreMetrics` | core/analytics/metrics.js | lexicon sentiment in [-1, 1]; temperature = clamp(50 − 30·mean), so positive sentiment cools; pulse 0–100; five-label mood; snapshot assembler |
| `CoreIndex` | core/analytics/index.js | temperature = clamp(50 + 10·mean analyzer score), so positive sentiment warms; pulse = min(50, ⌊active/total·100⌋); four-label mood chain; collective insights |
| `BackendAnalytics` | backend/analytics.js | keyword score clamp((s+5)·20); temperature = rounded mean; pulse = rounded share of agents flagged active; mood banded on temperature alone |
| `PulseHistory` | frontend/src/App.tsx | the `setPulseHistory` updater as a class `History` with a `Push` method |
| `MoodPanel` | frontend/src/components/Mood.tsx | the if/else chain choosing the mood text and colour |
| `TemperaturePanel` | frontend/src/components/Temperature.tsx | `getColor`, the description and the rounded value shown |
| `PulsePanel` | frontend/src/components/Pulse.tsx | `getColor` and the description |

Shared helpers:
- `JsMath` models `Math.floor`, `Math.round`, `Math.min` and `Math.max` on reals.
- `JsArray` models `filter(..).length` as `Count` and `reduce(+)` as `Sum`, both folded from the left like the source's loops.
- `Lexicon` counts the tokens a keyword list contains.
- `Palette` holds the hex colours.
- `Wrappers` holds `Option` and `Result`.

Inputs that replace foreign calls and I/O:
- **Tokenizer.** `natural`'s word tokenizer is replaced by its output. In `CoreMetrics`, a text is `Str(text, tokens)`, where `tokens` is what the tokenizer yields for the lower-cased text. In `BackendAnalytics`, a project carries its description's tokens.
- **Sentiment analyzer.** `natural`'s `SentimentAnalyzer` is replaced by its output: in `CoreIndex` each project carries the analyzer's `score`.
- **Clock.** `Date.now()` / `new Date()` become a parameter `now`, in milliseconds. Timestamps are integers.
- **Numbers.** JavaScript numbers are mathematical reals. Where JavaScript gives `NaN` or `Infinity` (dividing by an empty list), the model gives `None`.

Modelling choices:
- `calculateSentiment` rejects `undefined`/`null`, non-strings and the empty string. These are `Missing`, `NonString` and `Str("", _)`.
- The no-agent default of `calculateCollectiveMetrics` has no `lastUpdated` field. That is why `Snapshot.lastUpdated` is an `Option`.
- `calculateMetrics` accepts a missing `projects` list. `calculateCollectivePsychology` then throws when it reads `rawData.projects.length`, which the model returns as `Failure(ProjectsMissing)`.
- When there are no agents, `curiosityLevel` divides by zero and is not a finite number. The model gives `None`.
- `calculateMood` in backend/analytics.js receives a `NaN` temperature when there are no projects. Every comparison with `NaN` fails, so the mood is `contemplative`. `MoodFor(None)` is that case.

Behaviour of the code worth knowing, each proved as stated:
- In metrics.js, when every timestamp is 24 hours old or more, the pulse is 0 (`PulseNoneRecent`).
- For the text "This project explores joy and curiosity", only `joy` is a keyword. The metrics.js list has `curious` but not `curiosity`, and there is no stemming. The score is 1/6, and a lone project with that text gets temperature 45 (`JoyAndCuriosityHits`, `JoyAndCuriosityExample`).
- In metrics.js, the no-agent default says `calm`. Classifying its own temperature 50 and pulse 20 would give `neutral` (`DefaultMoodIsNotClassified`).
- metrics.js lowers the temperature for positive sentiment (50 − 30·mean, `TemperatureAntitone`); index.js (50 + 10·mean, `CoreIndex.TemperatureMonotone`) and backend/analytics.js (the rounded mean keyword score, `BackendAnalytics.TemperatureMonotone`) raise it. index.js caps the pulse at 50; metrics.js and backend/analytics.js use 0–100. The three mood rule sets all differ. Each module keeps its own.

Specification functions without a row of their own (their contracts, where they have one, only unfold the definition); the rows below state their properties through the members that use them:
- `PulseHistory.Updated` is the App.tsx updater (frontend/src/App.tsx:34-40). `UpdatedEndsWithReading`, `UpdatedBelowCapacity`, `UpdatedAtCapacity`, `ReplayIsWindow` and `History.Push` are about it.
- `CoreMetrics.Sentiments` is the flat-mapped sentiment list (core/analytics/metrics.js:129-131). `SentimentsPerProject` and `SentimentsWithinUnit` are about it.
- `CoreMetrics.TotalProjects` is the project-count reduce (core/analytics/metrics.js:150). `SentimentsPerProject` and `SnapshotTemperature` are about it.
- `BackendAnalytics.NetScore` is the keyword loop's net score (backend/analytics.js:32-36). `NetScoreAppend`, `SentimentScore` and `AnalyzeSentiment` are about it.
- `CoreMetrics.ProjectSentiments` is `agent.projects.map(project => calculateSentiment(project.description))` (core/analytics/metrics.js:129-131). `SentimentsWithinUnit` is about it.
- `CoreMetrics.Activities` is the flat-mapped `lastActive` list (core/analytics/metrics.js:137). `RecentActivitiesAreActiveAgents` is about it.
- `BackendAnalytics.Scores` is the per-project `analyzeSentiment` map (backend/analytics.js:44). `CalculateTemperature` is about it.
- `CoreIndex.TotalSentiment` is the accumulated analyzer score (core/analytics/index.js:28-34). `CalculateMetrics` is proved against it.
- `CoreIndex.Donations` is the donation reduce (core/analytics/index.js:149). `CollectivePsychology` bounds `economicActivity` by it.

## Model

| member | source | states |
|---|---|---|
| `Lexicon.HitsDisjoint` | core/analytics/metrics.js:19-28 | with disjoint keyword lists no token is counted twice: positive hits + negative hits ≤ token count |
| `Lexicon.HitsPermutation` | core/analytics/metrics.js:25-28 | a keyword count depends only on the multiset of tokens, not their order |
| `CoreMetrics.WordListsDisjoint` | core/analytics/metrics.js:19-20 | no word is in both the positive and the negative list |
| `CoreMetrics.TokenScore` | core/analytics/metrics.js:19-30 | (positive − negative hits) / max(token count, 1) lies in [-1, 1] |
| `CoreMetrics.Sentiment` | core/analytics/metrics.js:12-31 | missing, non-string or empty text scores 0 (never fails); other text scores its tokens; the result lies in [-1, 1] |
| `CoreMetrics.CalculateSentiment` | core/analytics/metrics.js:12-31 | the counting loop returns exactly the lexicon score `Sentiment`, within [-1, 1] |
| `CoreMetrics.SentimentPermutation` | core/analytics/metrics.js:25-30 | permuting the tokens leaves the score unchanged |
| `CoreMetrics.JoyAndCuriosityHits` | core/analytics/metrics.js:19-28 | of the tokens "this project explores joy and curiosity" exactly one is a positive keyword and none is negative |
| `CoreMetrics.JoyAndCuriosityExample` | core/analytics/metrics.js:19-44 | that text scores 1/6 and one such project gives temperature 45 |
| `CoreMetrics.Temperature` | core/analytics/metrics.js:38-45 | 50 for no sentiments; otherwise in [0, 100]; a mean ≤ 0 gives ≥ 50 and a mean ≥ 0 gives ≤ 50 |
| `CoreMetrics.TemperatureAntitone` | core/analytics/metrics.js:41-44 | a higher mean sentiment never gives a higher temperature |
| `CoreMetrics.TemperatureOfScores` | core/analytics/metrics.js:41-44 | for sentiments in [-1, 1] the clamp never engages: temperature = 50 − 30·mean, within [20, 80] |
| `CoreMetrics.WindowTestsAgree` | core/analytics/metrics.js:60-61 | the pulse's `hoursAgo < 24` test agrees with the active-agent test `now − lastActive < 24h` (line 146) |
| `CoreMetrics.Pulse` | core/analytics/metrics.js:52-66 | 20 for no timestamps; otherwise in [0, 100] |
| `CoreMetrics.CalculatePulse` | core/analytics/metrics.js:52-66 | the counting loop returns exactly `Pulse`: 20 when empty, else min(100, recent/total·100) |
| `CoreMetrics.PulseAllRecent` | core/analytics/metrics.js:59-65 | every timestamp under 24 hours old gives pulse 100 |
| `CoreMetrics.PulseNoneRecent` | core/analytics/metrics.js:59-65 | no timestamp under 24 hours old gives pulse 0 |
| `CoreMetrics.MoodOf` | core/analytics/metrics.js:74-80 | first match with strict thresholds; the label regions are calm t<30∧p<40, anxious t>70∧p>60, excited p>80∧t≤70, serene t<20∧40≤p≤80, neutral the rest |
| `CoreMetrics.LabelsDistinct` | core/analytics/metrics.js:75-79 | the five mood strings are distinct, so the label set is closed |
| `CoreMetrics.CollectiveMetrics` | core/analytics/metrics.js:117-160 | no agents (or null) gives the default {50, 20, calm, 0, 0} without `lastUpdated`; otherwise `lastUpdated` = now, activeAgents ≤ agent count, mood classifies the record's own temperature and pulse, both within [0, 100] |
| `CoreMetrics.SentimentsPerProject` | core/analytics/metrics.js:129-150 | the flat-mapped sentiment list has one entry per project, so its length equals totalProjects (the `undefined` filter drops nothing) |
| `CoreMetrics.SentimentsWithinUnit` | core/analytics/metrics.js:129-131 | every sentiment fed to the temperature lies in [-1, 1] |
| `CoreMetrics.RecentActivitiesAreActiveAgents` | core/analytics/metrics.js:137-147 | with one shared `now` the pulse's recent timestamps are exactly the active agents |
| `CoreMetrics.SnapshotPulse` | core/analytics/metrics.js:137-147 | with one shared `now`, pulse = activeAgents·100 / agent count |
| `CoreMetrics.SnapshotTemperature` | core/analytics/metrics.js:129-150 | totalProjects = number of sentiments; the snapshot temperature is 50 − 30·mean and lies in [20, 80] |
| `CoreMetrics.DefaultMoodIsNotClassified` | core/analytics/metrics.js:118-126 | the default record's mood `calm` differs from `calculateMood(50, 20)`, which is `neutral` |
| `CoreIndex.ActiveAgents` | core/analytics/index.js:14-15 | counts agents active strictly after now − 24h; never more than the agent total |
| `CoreIndex.Analyzed` | core/analytics/index.js:28-34 | only projects with a present, non-empty description are scored; at most all projects |
| `CoreIndex.TemperatureOf` | core/analytics/index.js:37-42 | 50 when nothing was scored; otherwise clamp(50 + 10·mean), within [0, 100] |
| `CoreIndex.TemperatureMonotone` | core/analytics/index.js:39-42 | a higher mean score never gives a lower temperature |
| `CoreIndex.PulseOf` | core/analytics/index.js:44-49 | 20 with no agents; otherwise a whole number in [0, 50] |
| `CoreIndex.PulseSaturates` | core/analytics/index.js:45-49 | once at least half of the agents are active the pulse is capped at 50 |
| `CoreIndex.PulseIsPercentage` | core/analytics/index.js:45-49 | below half activity the pulse is ⌊active·100/total⌋ |
| `CoreIndex.MoodOf` | core/analytics/index.js:51-59 | excited exactly when t>70∧p>30, calm exactly when t<30∧p<20, anxious exactly when t>70∧p<20, otherwise neutral; the guards are disjoint, so the total chain's order is immaterial |
| `CoreIndex.MetricsOf` | core/analytics/index.js:12-69 | activeAgents ≤ totalAgents = agent count; temperature in [0, 100], 50 when nothing was scored; pulse in [0, 50], 20 with no agents |
| `CoreIndex.CalculateMetrics` | core/analytics/index.js:12-69 | the accumulating loop and branch-wise assignments return exactly `MetricsOf` |
| `CoreIndex.CollectivePsychology` | core/analytics/index.js:140-152 | fails only when projects are missing; otherwise keeps the metrics unchanged, resilienceScore = min(100, t + p) lies in [t, 100], curiosityLevel exists exactly when there are agents, economicActivity = ⌊Σ donations / 100⌋ |
| `CoreIndex.CuriosityMonotone` | core/analytics/index.js:148 | with the same agents, more projects never lowers curiosityLevel |
| `BackendAnalytics.NetScoreAppend` | backend/analytics.js:32-36 | one more token changes the net score by exactly that token's contribution |
| `BackendAnalytics.ContributionIsUnit` | backend/analytics.js:29-36 | a token adds +1 if positive, −1 if negative, 0 otherwise (the lists are disjoint) |
| `BackendAnalytics.SentimentScore` | backend/analytics.js:32-39 | clamp((s+5)·20, 0, 100): in [0, 100], a multiple of 20, 100 when s ≥ 0, 0 when s ≤ −5 |
| `BackendAnalytics.AnalyzeSentiment` | backend/analytics.js:24-40 | the `score += 1` / `score -= 1` loop returns exactly `SentimentScore` |
| `BackendAnalytics.CalculateTemperature` | backend/analytics.js:43-49 | NaN exactly when there are no projects; otherwise the rounded mean score, within half a unit of the mean and in [0, 100] |
| `BackendAnalytics.TemperatureMonotone` | backend/analytics.js:32-48 | when every project's net keyword score is at least that of the project in the same place of another list, its temperature is at least as high: positive sentiment warms |
| `BackendAnalytics.CalculatePulse` | backend/analytics.js:52-58 | NaN exactly when there are no agents; otherwise round(flagged-active/total·100), in [0, 100] |
| `BackendAnalytics.MoodFor` | backend/analytics.js:61-69 | excited > 75, curious (60, 75], calm (40, 60], reflective (25, 40], contemplative ≤ 25 or NaN |
| `BackendAnalytics.MoodMonotone` | backend/analytics.js:64-68 | a higher temperature never gives a cooler mood band |
| `BackendAnalytics.CalculateMood` | backend/analytics.js:61-69 | with no projects (NaN temperature) the mood is contemplative |
| `BackendAnalytics.NonNegativeProjectsAreExcited` | backend/analytics.js:38-68 | projects whose descriptions have no more negative than positive keywords give temperature 100 and mood excited |
| `BackendAnalytics.CalculateActiveAgents` | backend/analytics.js:72-80 | the count of agents flagged active with lastActive ≥ now − 24h is ≤ the flagged-active count ≤ the agent total |
| `BackendAnalytics.ActiveAgentsAllRecent` | backend/analytics.js:76-79 | agents all flagged active and within the window, its first instant included, are all counted |
| `BackendAnalytics.GetCollectivePsychology` | backend/analytics.js:83-92 | totalAgents = agent count, projectCount = project count, activeAgents ≤ totalAgents, mood is the band of the record's temperature, temperature and pulse within [0, 100] |
| `BackendAnalytics.PulseCoversActiveAgents` | backend/analytics.js:53-79 | the pulse (flag only) is never below the rounded percentage of agents counted by activeAgents (flag and window) |
| `PulseHistory.UpdatedEndsWithReading` | frontend/src/App.tsx:35 | after an update the new reading is the last element |
| `PulseHistory.UpdatedBelowCapacity` | frontend/src/App.tsx:35-36 | below ten readings nothing is evicted: the result is prev + [p] |
| `PulseHistory.UpdatedAtCapacity` | frontend/src/App.tsx:36-38 | at ten readings exactly the oldest is dropped, the rest keep their order, the length stays ten |
| `PulseHistory.ReplayIsWindow` | frontend/src/App.tsx:34-40 | from an empty history the history is always the last min(n, 10) readings pushed, oldest first |
| `PulseHistory.EleventhPushEvictsFirst` | frontend/src/App.tsx:34-40 | after eleven pushes from empty the history is the last ten: the first reading is gone |
| `PulseHistory.History.constructor` | frontend/src/App.tsx:14 | the history starts empty |
| `PulseHistory.History.Push` | frontend/src/App.tsx:34-40 | the new state is the updater's result; a history within ten stays within ten |
| `MoodPanel.MoodOf` | frontend/src/components/Mood.tsx:13-25 | serene exactly when t<30∧p<20; balanced when t<50∧p<30 but not serene; vibrant when t>70∨p>50 and not balanced or serene; curious otherwise |
| `MoodPanel.MoodAlwaysChosen` | frontend/src/components/Mood.tsx:10-25 | the chain is total: the initial empty text and grey colour are always replaced |
| `MoodPanel.SereneBeforeBalanced` | frontend/src/components/Mood.tsx:13-18 | where both the serene and the balanced tests hold, serene is shown |
| `MoodPanel.TextDeterminesColor` | frontend/src/components/Mood.tsx:13-25 | two readings share a text exactly when they share a colour |
| `TemperaturePanel.GetColor` | frontend/src/components/Temperature.tsx:9-13 | blue below 30, yellow in [30, 70), red from 70 |
| `TemperaturePanel.Description` | frontend/src/components/Temperature.tsx:34 | one of the three descriptions |
| `TemperaturePanel.GetColorMonotone` | frontend/src/components/Temperature.tsx:9-13 | a higher temperature never gives a colder colour |
| `TemperaturePanel.DescriptionMatchesColor` | frontend/src/components/Temperature.tsx:9-34 | blue pairs with "Calm and reflective", yellow with "Balanced energy", red with "Highly active" |
| `TemperaturePanel.Displayed` | frontend/src/components/Temperature.tsx:30 | the shown value is `Math.round(temperature)`, within half a degree |
| `TemperaturePanel.DisplayedBelowThresholdIsBlue` | frontend/src/components/Temperature.tsx:9-30 | a shown value below 30 always comes with the blue colour |
| `PulsePanel.GetColor` | frontend/src/components/Pulse.tsx:9-13 | blue below 20, yellow in [20, 50), red from 50 |
| `PulsePanel.Description` | frontend/src/components/Pulse.tsx:34 | one of the three descriptions |
| `PulsePanel.DescriptionsDistinct` | frontend/src/components/Pulse.tsx:34 | the three descriptions are distinct, so exactly one is chosen |
| `PulsePanel.GetColorMonotone` | frontend/src/components/Pulse.tsx:9-13 | a higher pulse never gives a colder colour |
| `PulsePanel.DescriptionMatchesColor` | frontend/src/components/Pulse.tsx:9-34 | the description follows the colour band, at the 20 and 50 boundaries too |

## Left out

- The `natural` library (`WordTokenizer`, `SentimentAnalyzer`, `PorterStemmer`) is a foreign call. Its output is taken as input: tokens, or an analyzer score per project.
- `Date.now()`, `new Date(...)` parsing of ISO strings, and `toISOString()` for `lastUpdated` are clock and formatting I/O. `now` is a parameter and timestamps are integers.
- `CoreMetrics.CollectiveMetrics`: metrics.js reads the clock three times: `Date.now()` in `calculatePulse` (line 56), `Date.now()` for `activeAgents` (line 144) and `new Date()` for `lastUpdated` (line 158). The model uses one `now` for all three, so it does not capture any drift between the readings.
- `CoreIndex.MetricsOf` and `CoreIndex.CalculateMetrics`: index.js reads the clock twice, for `activeAgents` (line 14) and for `lastUpdated` (line 67). The model uses one `now` for both, so it does not capture drift between them.
- IEEE floating point is not modelled: all arithmetic is exact. In particular, `hoursAgo < 24` is treated as the exact millisecond comparison.
- The mock data generators are random and are left out: `generateMockAgentData`, `generateMockData`, `getRandomProjectDescription`, `simulateUpdate`. So is the `setTimeout` stub `fetchMoltbookData`. The backend's module-level mock lists become parameters.
- backend/server.js is left out. It is socket.io wiring, per-connection timers emitting random data, signal handlers and log streams.
- core/visualization/index.js is left out. It builds SVG strings with d3 scales and trigonometry.
- The rendering components (CollectiveDashboard.tsx, PulseChart.tsx, Heatmap.tsx) are left out. So are App.tsx's socket subscription and random chart jitter (lines 17-30, 60-63). They are React/d3 rendering and I/O.
- `PulseHistory.History.Push` models the updater only. React runs it when the pulse value changes (the effect's dependency list) and once on mount. That triggering is not modelled.
- `CoreMetrics.Sentiment`: the `typeof` test is modelled by a `NonString` constructor. Falsy non-strings such as `0` or `NaN` fold into `Missing`/`NonString`, and both give 0.
