# Jailbreak firewall verdict engine, in Dafny

A model of the decision core of the jailbreak firewall's Python engine
(`SecurityEngine` in `jailbreak-firewall/python_engine/model_loader.py`).
Each prompt is compared to two labelled reference corpora: jailbreak-attempt
patterns and restricted topics. The engine takes the best match in each and
turns the two scores into a verdict (SAFE, FLAGGED or BLOCKED), a
recommendation, and the categories it is willing to show.

Modules:

- `Corpus` (`corpus.dfy`): the loader `_load_dataset`. It validates the
  corpus all or nothing: the result is `Available(entries)` with one
  embedding per row in row order, or `Unavailable`.
- `Matching` (`matching.dfy`): `get_best_match`. It returns the sentinel
  `(0.0, "Unknown")` when there is no corpus. Otherwise it takes the maximum
  score and the category at an arg-maximum. These two are computed separately;
  the model proves they agree for any maximal index, with no tie-break assumed.
- `Verdict` (`verdict.dfy`): the first-match-wins rule in `analyze`, the
  recommendation texts, and the display rule for categories.
- `Engine` (`engine.dfy`): the `SecurityEngine` class. Its constructor fixes
  the encoder, the two 0.70 thresholds and the two corpora. Nothing changes
  them afterwards, so they are `const` fields. `Analyze` composes the parts.

The sentence encoder is a function parameter of type `string -> Option<Vector>`,
where `None` means the encoder raised. The similarity measure is a function
parameter of type `(Vector, Vector) -> real`; cosine arithmetic is not
modelled. Reading the CSV file is replaced by its outcome: `ReadFailed`, or a
`Table` with its column names and rows. All scores are exact `real`s.

The code guards the lookup with `if not db_data`, which catches only the
loader's `None`; a corpus loaded from a file without data rows gets past it
(see Findings).

## Model

| member | source | states |
|---|---|---|
| Corpus.EncodeAll | jailbreak-firewall/python_engine/model_loader.py:37 | encoding the text list succeeds iff every text encodes; then exactly one vector per text, in order |
| Corpus.LoadDataset | jailbreak-firewall/python_engine/model_loader.py:26-41 | available iff the read succeeded, both `text` and `category` columns exist and no encoding raised; then one entry per row, in row order, with that row's text, category and embedding |
| Corpus.HeaderOnlyTableLoadsEmpty | jailbreak-firewall/python_engine/model_loader.py:29-38 | a table with the required header and no rows loads as an available, empty corpus |
| Corpus.LoadIgnoresOtherColumns | jailbreak-firewall/python_engine/model_loader.py:31 | once both required columns are present, column order and extra columns do not change the corpus |
| Matching.MaxScore | jailbreak-firewall/python_engine/model_loader.py:53-54 | the maximum is at least every score and is attained by some entry |
| Matching.ArgMax | jailbreak-firewall/python_engine/model_loader.py:57 | returns some position whose score is at least every score (no tie-break promised) |
| Matching.AnyMaxIndexHoldsMaxScore | jailbreak-firewall/python_engine/model_loader.py:53-57 | for any maximal position, its score equals the separately computed maximum |
| Matching.Scan | jailbreak-firewall/python_engine/model_loader.py:50-60 | on a non-empty corpus, the result is the score and category of one maximal entry |
| Matching.BestMatchAsWritten | jailbreak-firewall/python_engine/model_loader.py:43-60 | unavailable corpus gives exactly `(0.0, "Unknown")` and never raises; raises iff the corpus is available but empty; otherwise score and category of a maximal entry |
| Matching.BestMatch | jailbreak-firewall/python_engine/model_loader.py:43-60 | unavailable or empty corpus gives the sentinel; otherwise score and category of one maximal entry |
| Matching.BestMatchBoundsEveryEntry | jailbreak-firewall/python_engine/model_loader.py:50-60 | every entry's score is at most the returned score |
| Matching.BestMatchAgreesWhenNotEmpty | jailbreak-firewall/python_engine/model_loader.py:45-60 | the corrected lookup equals the written one on every corpus except the empty available one |
| Matching.HeaderOnlyCorpusRaises | jailbreak-firewall/python_engine/model_loader.py:45-57 | a header-only CSV loads, and the lookup as written then raises |
| Matching.HeaderOnlyCorpusGivesSentinel | jailbreak-firewall/python_engine/model_loader.py:45-46 | the same corpus, looked up as intended, gives the sentinel |
| Verdict.Decide | jailbreak-firewall/python_engine/model_loader.py:75-88 | the chain's verdict equals the rule over the scores alone; a SAFE verdict carries the default recommendation and a FLAGGED one the review text |
| Verdict.Trichotomy | jailbreak-firewall/python_engine/model_loader.py:75-88 | BLOCKED iff a score is over its threshold; FLAGGED iff neither is but one is over 0.5; SAFE otherwise |
| Verdict.HarmTakesPrecedence | jailbreak-firewall/python_engine/model_loader.py:79-81 | harm over its threshold gives BLOCKED with the harm-category recommendation, whatever the jailbreak score |
| Verdict.JailbreakBlocksOtherwise | jailbreak-firewall/python_engine/model_loader.py:82-84 | without harm over its threshold, jailbreak over its threshold gives BLOCKED with the jailbreak-category recommendation |
| Verdict.HarmThresholdIsStrict | jailbreak-firewall/python_engine/model_loader.py:79-88 | a harm score equal to its threshold skips the harm branch and is decided by the later branches |
| Verdict.JailbreakThresholdIsStrict | jailbreak-firewall/python_engine/model_loader.py:82 | a jailbreak score equal to its threshold does not block |
| Verdict.SuspicionFloorIsStrict | jailbreak-firewall/python_engine/model_loader.py:85 | both scores exactly 0.5, below the thresholds, give SAFE |
| Verdict.VerdictIgnoresCategories | jailbreak-firewall/python_engine/model_loader.py:75-88 | changing either category never changes the verdict |
| Verdict.Report | jailbreak-firewall/python_engine/model_loader.py:90-97 | unrounded scores; each category shown iff its own score is over 0.3, else "None"; the verdict string ("SAFE", "FLAGGED", "BLOCKED") is that of the score rule, untouched by the display rule |
| Verdict.ExampleScenarios | jailbreak-firewall/python_engine/model_loader.py:75-97 | harm 0.82/jb 0.1 is BLOCKED with jb category hidden; 0.55/0.2 FLAGGED; 0.1/0.05 SAFE with both hidden; harm exactly 0.70 is not blocked |
| Engine.SecurityEngine.constructor | jailbreak-firewall/python_engine/model_loader.py:11-22 | both thresholds 0.70; each corpus is the loader's result for its file with the engine's encoder |
| Engine.SecurityEngine.Analyze | jailbreak-firewall/python_engine/model_loader.py:62-97 | with the corrected lookup: no report iff the prompt encoding raises; otherwise the report for the two best matches and the engine's thresholds |
| Engine.SecurityEngine.AnalyzeAsWritten | jailbreak-firewall/python_engine/model_loader.py:62-97 | as written: no report iff the prompt encoding raises or either corpus is available but empty; whenever it answers, the answer is Analyze's report |
| Engine.UnavailableCorporaAreSafe | jailbreak-firewall/python_engine/model_loader.py:45-97 | with both corpora unavailable the result is SAFE, zero scores and both categories "None" |
| Engine.UnreadableCorporaGiveSafe | jailbreak-firewall/python_engine/model_loader.py:21-46 | an engine built from two unreadable files answers every encodable prompt SAFE instead of failing |
| Engine.HeaderOnlyJailbreakFile | jailbreak-firewall/python_engine/model_loader.py:21-72 | with a header-only jailbreak file, analyze as written gives no report for an encodable prompt, the corrected one does |

## Findings

| source | as written | input that shows it | evidently intended | confidence | as-written member | corrected member |
|---|---|---|---|---|---|---|
| jailbreak-firewall/python_engine/model_loader.py:45-57 | `if not db_data` catches only the loader's `None`. A corpus with zero rows is a non-empty record, so the similarity and maximum run on no scores and raise. | a CSV file holding only the header line `text,category` | the guard at lines 45-46 exists so that a corpus with nothing to match gives `(0.0, "Unknown")` instead of failing, and the docstring at line 44 promises a most similar pattern, which an empty corpus does not have | low, not executed: it assumes the encoder turns an empty batch into an empty result rather than raising (some encoder versions raise, and the loader then returns `None`), and that the similarity and maximum raise on zero scores | Matching.HeaderOnlyCorpusRaises | Matching.HeaderOnlyCorpusGivesSentinel |

`Matching.BestMatchAsWritten` models the code as written and
`Engine.SecurityEngine.AnalyzeAsWritten` builds on it. `Matching.BestMatch`
is the corrected lookup, and `Engine.SecurityEngine.Analyze` uses it.

## Left out

- The sentence-transformer encoder and cosine similarity: they are foreign
  numeric libraries. They appear as function parameters.
- `round(score, 4)` on the reported scores: it is float display rounding.
  The verdict uses the unrounded scores, and so does the model.
- CSV parsing and all logging. A read is modelled by its outcome only.
- Float semantics: NaN scores, vectors of different lengths, and missing
  (NaN) or non-string `text` and `category` cells are not modelled. Pandas
  reads such cells as floats; `Record` holds strings only, so a corpus that
  the encoder would reject for such a cell cannot be written down.
- Corpus.EncodeAll: it assumes an empty batch encodes to no vectors, and a
  failure of the batch call is modelled as some single text failing to
  encode. Whether the real batch call raises on an empty list depends on the
  encoder library's version.
- Engine.SecurityEngine.Analyze: it uses the corrected lookup, so it answers
  where the source raises (a corpus loaded from a file without data rows).
  `Engine.SecurityEngine.AnalyzeAsWritten` gives no report in that case.
- The ERROR verdict, request validation, timing, the health endpoint and the
  engine-offline fallback all live in `app.py`. That file is HTTP plumbing
  and is not part of this model. `Analyze` and `AnalyzeAsWritten` return
  `None` where the prompt encoding raises, and `AnalyzeAsWritten` also where
  a lookup raises; the HTTP layer turns a raise into ERROR.
- The Java service, controllers, entity and repository are REST and
  persistence glue; they are not part of this model.
- Concurrency: the engine is only read after construction, which `const`
  fields capture. The threaded server is not modelled.
