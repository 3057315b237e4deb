# AiCOCO image inference template, in Dafny

This project models the image bookkeeping of `BaseAiCOCOImageInferenceModel`
in the `flavor` serving library, and the input data model in front of it. A
concrete inference model supplies the stages: a data reader, optional
preprocess, inference and postprocess steps, and an output formatter. The
template runs these stages in a fixed order. Around them it keeps the list of
`AiImage` records that the output formatter receives.

- **Input validation** (`InputModel`). `check_images_files` accepts request
  data only when `images` or `files` is present and non-empty. Its check is
  an `assert`, so this holds only when the interpreter keeps asserts.
- **Reconciliation** (`Reconcile`). `_set_images` is a case split on the
  shapes of `files` and `images`:
  - Equal counts: each file is matched with the first record whose
    `file_name`, with `/` replaced by `_`, occurs in the file name.
  - One file and many records: the records pass through.
  - Files only: one record is synthesised per file.
  - Records only: the records pass through.
  - Neither: the list is empty and a warning is issued.
  - Any other pair of counts: `ValueError`.
- **Reordering** (`Reorder`). `_update_images` gathers the records by the
  position of each name the data reader reports in `files`.
- **The template** (`Pipeline`, `StageMachine`). `__call__` runs nine stages in
  a fixed order. `Call` is a direct definition of it. `StageMachine` is a
  second definition that runs one stage per step and has a `Failed` state. The
  two are proved to agree.

Stages, the `AiImage` schema check and the id generator are parameters.
`InferenceModel<T>` holds the stages as functions, and `T` stands for the
untyped values passed between them. `Env` holds `validImage`, which stands for
`AiImage.model_validate`, and `freshId`, where `freshId(k)` is the id
`generate()` returns on its k-th call. A Python exception is an `Err` carrying
an `Error`. `ClassOf` gives the Python exception class of each error.

How the code behaves, where a reader might expect something else:

- Matching takes the first record that fits. It does not check that the match
  is unique, so one record can be used for two files and another record
  dropped. `Scenarios.FirstMatchNotUnique` shows this.
- Records synthesised for bare files all have index 0, not their position
  (`Scenarios.SynthesisedIndicesAreZero`).
- In the equal-count case the result follows the order of `files`. With
  files `b.png, a.png` and records `a, b`, the result is `b, a`
  (`Scenarios.MatchedInFilesOrder`).
- An unmatched file raises a bare `Exception`. A count pair that is not
  supported raises `ValueError`.
- The second length check in `_update_images` (lines 186-189) can never fire.
  `Reorder.UpdateImages` states this.
- The `/` replacement is applied only to the record's name, not to the file.
  A record whose `file_name` is a path with a directory part therefore does
  not match that same path (`Scenarios.PathRecordNotMatched`). The records
  that `flavor/serve/apps.py` builds at lines 83-95 use the file path as
  `file_name`, so for such paths that caller fails with "not matched".
- The gather `self.images[i]` would raise `IndexError` if there were more
  files than records. `Reorder.InRangeWhenFilesFit` and
  `Pipeline.CallNeverIndexesPastImages` show that this cannot happen after
  reconciliation succeeds.

## Model

| member | source | states |
|---|---|---|
| `InputModel.CheckImagesFiles` | flavor/serve/inference/base_aicoco_inference_model.py:44-50 | Data is accepted exactly when `images` or `files` is present and non-empty. Accepted data passes through unchanged. Otherwise the assertion fails. |
| `InputModel.Present` | flavor/serve/inference/base_aicoco_inference_model.py:41-42 | The model passes an absent `images` or `files` to the call as the empty sequence. This is a modelling choice: `_set_images` and `_update_images` only test truthiness, and for that `None` and `[]` agree. The result is non-empty exactly when the field is present and non-empty. |
| `Text.ReplaceSlash` | flavor/serve/inference/base_aicoco_inference_model.py:121 | `replace("/", "_")` keeps the length. Every `/` becomes `_` and every other character stays. |
| `Text.ReplaceSlashFixesSlashFree` | flavor/serve/inference/base_aicoco_inference_model.py:121 | A name without `/` is unchanged by normalisation. |
| `Text.ContainsIsSubstring` | flavor/serve/inference/base_aicoco_inference_model.py:121 | The scan used for Python's `name in file` succeeds exactly when the name occurs as a contiguous run of the file name. This includes the empty name. |
| `Text.Contains` | flavor/serve/inference/base_aicoco_inference_model.py:121 | Python's `name in file`. The empty name is found in every file, and a name longer than the file is never found. `Text.ContainsIsSubstring` states that the scan finds exactly the contiguous occurrences. |
| `Seqs.FirstWhere` | flavor/serve/inference/base_aicoco_inference_model.py:117-123 | The search behind `next(...)` and `list.index` returns the first position whose element satisfies the condition. No earlier element satisfies it. It finds nothing exactly when no element does. |
| `Reconcile.FirstMatch` | flavor/serve/inference/base_aicoco_inference_model.py:117-125 | `next(...)` yields the first record whose normalised name occurs in the file. All earlier records fail to match. It finds nothing exactly when no record matches. |
| `Reconcile.Matches` | flavor/serve/inference/base_aicoco_inference_model.py:121 | A record matches a file exactly when its name, with every `/` made `_`, occurs as a contiguous run of the file name. `Text.ContainsIsSubstring` proves this. |
| `Reconcile.MatchAll` | flavor/serve/inference/base_aicoco_inference_model.py:115-125 | The matching loop yields one record per file. Otherwise it fails with "not matched" on the first file, in `files` order, that no record matches. Every file before that one has a match. |
| `Reconcile.MatchAllFindsFirstMatches` | flavor/serve/inference/base_aicoco_inference_model.py:115-125 | The loop succeeds exactly when every file has a match. Entry k is then the first record matching file k. A failure names the first file, in `files` order, that no record matches. |
| `Reconcile.SynthesiseAll` | flavor/serve/inference/base_aicoco_inference_model.py:132-143 | The files-only loop produces exactly one record per file. |
| `Images.Synthesised` | flavor/serve/inference/base_aicoco_inference_model.py:136-142 | The record built for a bare file has a fresh id, the file as its name, index 0 and no category or regression links. Its contents are stated through `Reconcile.FilesOnlySynthesised`. |
| `Reconcile.SetImages` | flavor/serve/inference/base_aicoco_inference_model.py:99-147 | The only errors are the bare "not matched" `Exception` and the count `ValueError`. |
| `Reconcile.EqualCountsMatchInFilesOrder` | flavor/serve/inference/base_aicoco_inference_model.py:112-125 | With equal non-zero counts, reconciliation succeeds exactly when every file has a match. Entry k is then the first record matching file k, so the result follows `files`. A failure names the first file, in `files` order, that nothing matches. No warning is issued. |
| `Reconcile.OneFileManyRecordsPassThrough` | flavor/serve/inference/base_aicoco_inference_model.py:126-127 | One file and several records give the records unchanged. |
| `Reconcile.OtherCountsRefused` | flavor/serve/inference/base_aicoco_inference_model.py:128-131 | Any other pair of non-empty sequences of different lengths fails with a `ValueError` that carries both counts. |
| `Reconcile.FilesOnlySynthesised` | flavor/serve/inference/base_aicoco_inference_model.py:132-143 | Files alone give one record per file, in file order. Each record has a fresh id, the file as its name, index 0 and no links. |
| `Reconcile.ImagesOnlyPassThrough` | flavor/serve/inference/base_aicoco_inference_model.py:144-145 | Records alone pass through unchanged. |
| `Reconcile.NeitherWarns` | flavor/serve/inference/base_aicoco_inference_model.py:146-147 | With neither files nor records the result is an empty list and a warning, not an error. |
| `Reconcile.ReconciledCoversFiles` | flavor/serve/inference/base_aicoco_inference_model.py:112-145 | After a successful reconciliation there are at least as many records as files. |
| `Reconcile.ReconciledFromGiven` | flavor/serve/inference/base_aicoco_inference_model.py:112-127 | When records were given, every resulting record is one of them. |
| `Reconcile.ReconciledMatchesFiles` | flavor/serve/inference/base_aicoco_inference_model.py:113-123 | With equal counts, the record at each position matches the file at the same position. |
| `Reconcile.WarnsOnlyWithoutInput` | flavor/serve/inference/base_aicoco_inference_model.py:111-147 | The warning is issued, and the list is empty, exactly when neither files nor records are given. |
| `Reorder.IndexOf` | flavor/serve/inference/base_aicoco_inference_model.py:185 | `files.index(name)` is the first position holding the name. It finds nothing exactly when the name is not among the files. |
| `Reorder.Indices` | flavor/serve/inference/base_aicoco_inference_model.py:183-185 | Building `updated_indices` succeeds exactly when every reported name is a file. Entry k is the index of name k. A failure names the first reported name that is not a file. |
| `Reorder.Gather` | flavor/serve/inference/base_aicoco_inference_model.py:190 | The comprehension succeeds exactly when every index is in range. Entry k is the record at index k. Otherwise it fails with `IndexError` on an index past the end. |
| `Reorder.UpdateImages` | flavor/serve/inference/base_aicoco_inference_model.py:168-190 | The only errors are the count mismatch, the failed lookup and the out-of-range gather. The second count check (lines 186-189) never fires. |
| `Reorder.NoReportKeepsOrder` | flavor/serve/inference/base_aicoco_inference_model.py:178 | With no reported order, or no files, the records stay as they are. |
| `Reorder.CountMismatchRefused` | flavor/serve/inference/base_aicoco_inference_model.py:179-182 | A report whose length differs from the number of records fails before any lookup. |
| `Reorder.UnknownNameRefused` | flavor/serve/inference/base_aicoco_inference_model.py:183-185 | With matching counts, a reported name that is not a file fails the lookup. The error names the first reported name that is missing from the files. |
| `Reorder.ReorderGathers` | flavor/serve/inference/base_aicoco_inference_model.py:178-190 | A report succeeds exactly when the counts agree and every name is a file at a position that has a record. Entry k is then the record at the position of name k in `files`. |
| `Reorder.ReorderFollowsFiles` | flavor/serve/inference/base_aicoco_inference_model.py:183-190 | Take distinct files and a report naming only files, with as many records, files and reported names. Then reordering succeeds. Each record moves to where its file moved. |
| `Reorder.ReorderRoundTrip` | flavor/serve/inference/base_aicoco_inference_model.py:168-190 | Take distinct files, a permutation of them, and as many records as files. Reordering by the permutation and then back, with the two lists swapped, restores the original records. |
| `Reorder.InRangeWhenFilesFit` | flavor/serve/inference/base_aicoco_inference_model.py:183-190 | When there are no more files than records, reordering never raises `IndexError`. |
| `Pipeline.FirstInvalid` | flavor/serve/inference/base_aicoco_inference_model.py:269-275 | The schema check finds the first record that `AiImage` rejects. It finds nothing exactly when every record is valid. |
| `Pipeline.CheckedNames` | flavor/serve/inference/base_aicoco_inference_model.py:279-282 | The check fails with `TypeError` exactly when `modified_filenames` is present but not a sequence. `None` and sequences pass through. |
| `Pipeline.Call` | flavor/serve/inference/base_aicoco_inference_model.py:261-294 | The stages entered are always an initial run of the fixed order. A call succeeds exactly when it runs every stage. A failure comes from the last stage entered. |
| `Pipeline.ReaderRunsAfterValidation` | flavor/serve/inference/base_aicoco_inference_model.py:265-279 | The data reader runs only after reconciliation succeeded and every record passed the schema. |
| `Pipeline.FormatterGetsReorderedImages` | flavor/serve/inference/base_aicoco_inference_model.py:279-292 | The formatter receives the records as reordered after the data reader, the output of preprocess, inference and postprocess applied in that order, and the fixed categories and regressions. |
| `Pipeline.AcceptedInputHasImages` | flavor/serve/inference/base_aicoco_inference_model.py:44-50 | Data the validator accepts never triggers the "not specified" warning. A successful call on it formats a non-empty image list. |
| `Pipeline.ImagesLengthStable` | flavor/serve/inference/base_aicoco_inference_model.py:284-292 | The formatter receives exactly as many records as reconciliation produced. |
| `Pipeline.CallNeverIndexesPastImages` | flavor/serve/inference/base_aicoco_inference_model.py:265-290 | No call fails with `IndexError` in the reordering gather. |
| `Pipeline.DefaultStagesPassDataThrough` | flavor/serve/inference/base_aicoco_inference_model.py:192-235 | With the default `preprocess`, `inference` and `postprocess`, the formatter receives the network applied to exactly what the data reader read. |
| `Pipeline.WithDefaults` | flavor/serve/inference/base_aicoco_inference_model.py:192-235 | The default `preprocess` and `postprocess` return their input, and the default `inference` applies the network. `Pipeline.DefaultStagesPassDataThrough` states the effect on a call. |
| `StageMachine.StepIsLinear` | flavor/serve/inference/base_aicoco_inference_model.py:261-294 | Each step either fails in the pending stage, finishes after formatting, or moves to the next stage in the fixed order. A finished or failed call stays where it is. |
| `StageMachine.MachineAgreesWithCall` | flavor/serve/inference/base_aicoco_inference_model.py:261-294 | Nine steps from idle run the same stages as `Call`. They end in `Done` with its response, or in `Failed` at its last stage with its error. |
| `Scenarios.SingleFileSynthesised` | flavor/serve/inference/base_aicoco_inference_model.py:132-143 | A single bare file gives one record with a fresh id, index 0 and no links. |
| `Scenarios.SynthesisedIndicesAreZero` | flavor/serve/inference/base_aicoco_inference_model.py:138 | The second synthesised record also has index 0. |
| `Scenarios.MatchedInFilesOrder` | flavor/serve/inference/base_aicoco_inference_model.py:115-123 | Files `b.png, a.png` with records `a, b` give records `b, a`. |
| `Scenarios.SlashMatchesUnderscore` | flavor/serve/inference/base_aicoco_inference_model.py:121 | A record named `a/b` matches the file `a_b.png`. |
| `Scenarios.FirstMatchNotUnique` | flavor/serve/inference/base_aicoco_inference_model.py:117-123 | Records `a, b` with files `a.png, ab.png` give `a, a`. |
| `Scenarios.UnmatchedFileFails` | flavor/serve/inference/base_aicoco_inference_model.py:124-125 | A file that no record matches fails with "not matched". |
| `Scenarios.FirstUnmatchedFileReported` | flavor/serve/inference/base_aicoco_inference_model.py:115-125 | With two unmatched files, the error names the first of them. |
| `Scenarios.PathRecordNotMatched` | flavor/serve/inference/base_aicoco_inference_model.py:119-123 | Only the record's name has `/` replaced. So a record named `d/x` does not match the file `d/x`, and the call fails with "not matched". |
| `Scenarios.OneFileManyRecords` | flavor/serve/inference/base_aicoco_inference_model.py:126-127 | One file and three records give the three records unchanged. |
| `Scenarios.TwoFilesOneRecord` | flavor/serve/inference/base_aicoco_inference_model.py:128-131 | Two files and one record fail with a `ValueError`. |
| `Scenarios.SwapReversesTwo` | flavor/serve/inference/base_aicoco_inference_model.py:183-190 | Files `x, y` reported as `y, x` swap the two records. |
| `Scenarios.UnknownNameFails` | flavor/serve/inference/base_aicoco_inference_model.py:185 | A reported name that is not a file fails the lookup. |
| `Scenarios.OneFileReorderRepeatsFirst` | flavor/serve/inference/base_aicoco_inference_model.py:183-190 | With one file and two records, a report naming the file twice gathers the first record twice. |

## Left out

- File reading, the network, and the concrete formatters are opaque function parameters. Exceptions raised inside a model's own stages are not modelled, so the stages are total.
- The `self.images is None` check and the `isinstance(self.images, Sequence)` check (lines 266-277) are not modelled. The model's image list is always a sequence, so neither can fire.
- `AiImage.model_validate` is the parameter `validImage`. The `AiImage`, `AiCOCOFormat`, `InferCategory` and `InferRegression` schemas are defined in `flavor/serve/models`, which is not part of this model. Category and regression links are opaque strings, and categories and regressions carry only a name.
- Id generation (`nanoid.generate`) is the parameter `freshId`. Whether the ids are distinct is not modelled.
- `logging.error` is omitted. `warnings.warn` becomes the `warned` flag.
- Extra keyword arguments forwarded to `data_reader` are not modelled. The data reader is any function of the files and records.
- `Pipeline.Call`: assumes the stages do not mutate the `files` and `images` objects they are given. In the source, `data_reader` (line 279) and `_update_images` (line 284) both unpack `**net_input`, so they receive the same `files` list. In the pass-through branches (lines 127 and 145), `self.images` is the very `images` list the reader receives. A reader that sorts `files` in place makes `files.index` at line 185 search the altered list. The records then stay put while the data is reordered. A reader that edits `images` in place changes records after the schema check at lines 271-272. So `Reorder.ReorderFollowsFiles` (each record moves to where its file moved) holds for the template only under this assumption.
- A Python `str` passed as `modified_filenames` passes the `Sequence` check and is read one character at a time. The model's report is either absent, a list of names, or not a sequence.
- `InputModel.CheckImagesFiles`: reports the failed assertion as `AssertionError`. The surrounding validation framework re-raises it as a validation error, and that wrapping is not modelled. The model follows an interpreter with asserts enabled. Under `python -O` or `PYTHONOPTIMIZE`, the `assert` at line 49 is removed and data with neither field is accepted. Such a call then reaches the "not specified" warning at line 147, so `Pipeline.AcceptedInputHasImages` does not hold in that mode.
- The reference integrity of the formatter's output is not modelled, because no code in the template checks it.
- Categories, regressions and the network are fixed at construction in `BaseInferenceModel`. That class is not part of this model, so they are fields of `InferenceModel`.
- `Reconcile.SetImages`: assumes every record is an `AiImage`-shaped mapping with a string `file_name`. Line 121 reads `format_image["file_name"]` before the schema check at lines 271-272. A malformed record therefore raises `KeyError`, `TypeError` or `AttributeError` there, and the model cannot represent that record. The statement that the only errors are "not matched" and the count `ValueError` holds under this assumption.
- `self.images` is instance state that `_set_images` and `_update_images` update in place (lines 111-147 and 190). The model treats the image list as a value local to one call. So it does not model three things: the partial list left on the instance when a match fails at line 125, the list outliving the call, or two concurrent calls on one instance sharing it.
- The data reader is given the empty sequence for an absent `files` or `images` field. In the source it receives whatever was passed at line 279, and so it can tell `None` from `[]`.
- `Pipeline.NetInputOf`: assumes the request layer turns each uploaded file (`UploadFile`, lines 25 and 42) into its file name and each validated `AiImage` (line 41) into a mapping with a `file_name` key, one for one and in order. `_set_images` and `data_reader` take file names (lines 99-107, 151-161), and line 121 indexes each record as a mapping. The code that does this conversion is not part of this model. `Pipeline.AcceptedInputHasImages` relies on this assumption.
- The HTTP application (`flavor/serve/apps.py`), the example classification model, and the federated-averaging example are transport, UI or foreign-library code.
