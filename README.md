# ocr-consensus, modelled in Dafny

The system reads text off a batch of images with three OCR engines (EasyOCR,
PyTesseract, TrOCR), then reconciles the three readings into one consensus
text per image. This project models its two working parts and proves what
they promise.

- **Extraction** (`OCRPipeline`). The pipeline lists the input directory and
  keeps the entries whose lower-cased name ends in `.jpg`, in listing order.
  It calls the engine once per kept entry, on the directory joined with the
  name, and records `{image_name, text}`. It then saves the records as
  `<class name lower-cased>_results.json` in the output directory.
- **Consensus** (`ConsensusPipeline`). The pipeline reads the three result
  files in the order easyocr, pytesseract, trocr. It checks that the lists
  have equal length and share the image name at every position. For each
  position it scores every candidate pair `i < j` with a string similarity.
  Each candidate gets the sum of its pair scores over `N - 1`. The first
  candidate with the largest average wins. The records are written to
  `ocr_results.json`.

Modules:

- `Common` (common.dfy): the record shape, the errors, an in-memory file
  store standing in for the output directory, and `str.lower`,
  `str.endswith` and `os.path.join`.
- `Selection` (selection.dfy): what `determine_most_accurate` computes, as
  functions, with the lemmas about the choice.
- `Consensus` (consensus.dfy): the class `ConsensusPipeline`. Its loops are
  proved against `Selection` and against the function `Reconciled`.
- `Extraction` (extraction.dfy): the engine object (a class with a ghost log
  of the paths it was asked to read), the class `OCRPipeline` and the `.jpg`
  filter.
- `EndToEnd` (end_to_end.dfy): the three extraction runs followed by the
  consensus run, on one listing.

The similarity (`Levenshtein.ratio`) is a parameter of type
`(string, string) -> real`. Only the lemmas that need them assume its
properties: values in [0, 1], symmetry, and `sim(x, x) == 1`. All arithmetic
is on exact reals.

Behaviour of the code that the model keeps as it is:

- `determine_most_accurate` needs at least two candidates. With one it
  divides by `len(texts) - 1 == 0`; with none it calls `max([])`.
  `DetermineMostAccurate` requires `2 <= |texts|`, and `run` always passes
  three candidates.
- The result lists are matched by position, and a mismatch fails a plain
  assertion. They are not joined by image name.
- An engine failure is not caught anywhere in the pipeline. The engine is
  modelled as a total function of the path.
- The reader spells its path as `f"{output_dir}/{name}_results.json"`. The
  writer uses `os.path.join`. The two spellings are the same string only when
  the output directory is non-empty and does not end with `/`
  (`JoinAgreesWithFormat`, `WrittenFilesAreRead`). With a trailing `/` they
  differ as strings but name the same file, which the model's store does not
  capture (see "## Left out"). With an empty directory they are different
  strings as well (`EmptyDirSpellingsDiffer`): the writer's path is relative
  to the working directory, the reader's starts at the root. The command line always passes `"data"`.

Definitions without a contract of their own, and the rows that state their
properties:

- `Common.Lower` (`str.lower`, src/ocr_extraction/ocr_pipeline.py:23, 35),
  `Common.EndsWith` (`str.endswith`, line 23) and `Extraction.IsJpg`,
  `Extraction.ImageNames` (lines 22-23): `Extraction.JpgPositions`,
  `Extraction.ImageNamesMembership`, `Extraction.JpgFilterExamples`,
  `Extraction.ClassNamesLowered`.
- `Common.JoinPath` (`os.path.join`, lines 24, 34-35):
  `Common.JoinAgreesWithFormat`, `Common.EmptyDirSpellingsDiffer`.
- `Extraction.ImagePaths`, `Extraction.ExtractedRecords` (lines 24-27):
  `Extraction.OCRPipeline.ProcessImages`, `Extraction.OCRPipeline.Run`.
- `Extraction.ResultsFileName`, `Extraction.OCRPipeline.OutputPath`
  (lines 33-35): `Extraction.OCRPipeline.SaveResults`,
  `EndToEnd.WrittenFilesAreRead`.
- `Selection.PairScore`, `Selection.Total`, `Selection.Average`,
  `Selection.Averages` (src/ocr_extraction/consensus_pipeline.py:20-28):
  `Selection.MostAccurateIndex`, `Selection.TotalIsSimilarityToOthers`,
  `Selection.OutlierTotals`, `Consensus.ConsensusPipeline.DetermineMostAccurate`.
- `Consensus.Candidates`, `Consensus.SameImages`, `Consensus.Reconciled`
  (consensus_pipeline.py:39-49): `Consensus.ConsensusPipeline.Reconcile`,
  `Consensus.ReconciledRecords`.
- `Consensus.ConsensusPipeline.ResultsPath`, `OutputPath` and `RunOutcome`
  (consensus_pipeline.py:14, 35-37, 52): `Consensus.ConsensusPipeline.ReadResults`,
  `Consensus.ConsensusPipeline.Run`, `EndToEnd.RunIsRepeatable`,
  `EndToEnd.WrittenFilesAreRead`.

## Model

| member | source | states |
|---|---|---|
| `Selection.FirstMaxIndex` | src/ocr_extraction/consensus_pipeline.py:29 | `avg_scores.index(max(avg_scores))`: the index is in range and holds a value no element exceeds. Every earlier element is strictly smaller, so it is the first maximum. |
| `Selection.FirstMaxIndexUnique` | src/ocr_extraction/consensus_pipeline.py:29 | Any position that holds a maximum and has only smaller values before it is the one `FirstMaxIndex` returns. |
| `Selection.MostAccurateIndex` | src/ocr_extraction/consensus_pipeline.py:20-29 | The selected index is a valid candidate index. No candidate's average pair score is larger than its own. Every earlier candidate's average is strictly smaller (the tie-break). |
| `Selection.MostAccurate` | src/ocr_extraction/consensus_pipeline.py:29-30 | The returned text is always one of the input candidates. |
| `Selection.TotalIsSimilarityToOthers` | src/ocr_extraction/consensus_pipeline.py:21-28 | A total is built from the `i < j` scores looked up as `(min, max)`, with the absent self pair counting 0. For a symmetric similarity in [0, 1] it equals the sum of the candidate's similarity to every other candidate, and lies between 0 and the number of others. |
| `Selection.AverageInUnitInterval` | src/ocr_extraction/consensus_pipeline.py:28 | For a similarity with values in [0, 1] that is symmetric, every average score lies in [0, 1]. |
| `Selection.TwoCandidatesPickFirst` | src/ocr_extraction/consensus_pipeline.py:28-29 | With two candidates both averages equal the single pair score, so index 0 is chosen for any similarity. For example, `["same", "same"]` yields the first `"same"`. |
| `Selection.OutlierTotals` | src/ocr_extraction/consensus_pipeline.py:21-28 | Suppose every candidate except the one at `k` is the same text `v`, `sim(v, v) == 1`, and the similarity is symmetric on the pair of `v` and the outsider. Then the outsider's total is (others) × `sim(v, outsider)`. Every other candidate's total is (others − 1) + `sim(v, outsider)`. |
| `Selection.OutlierLoses` | src/ocr_extraction/consensus_pipeline.py:28-30 | Take at least three candidates where all but one are the same text `v`, and suppose `sim(v, v) == 1`, the similarity is symmetric on the pair of `v` and the outsider, and that pair scores below 1. Then the outsider is never chosen and `v` is returned: two engines outvote the third. |
| `Selection.TypoIsOutvoted` | src/ocr_extraction/consensus_pipeline.py:47-48 | `["Hello Wrold", "Hello World", "Hello World"]` yields `"Hello World"`. This holds for any similarity that scores `"Hello World"` against itself 1 and scores the two spellings below 1, the same in both orders. |
| `Consensus.MaxOf` | src/ocr_extraction/consensus_pipeline.py:29 | Python's `max` on a non-empty list returns an element of the list that no element exceeds. |
| `Consensus.IndexOf` | src/ocr_extraction/consensus_pipeline.py:29 | `list.index(v)` for a `v` in the list returns the first position holding `v`. |
| `Consensus.ConsensusPipeline.constructor` | src/ocr_extraction/consensus_pipeline.py:7-10 | Stores the input and output directories. |
| `Consensus.ConsensusPipeline.ReadResults` | src/ocr_extraction/consensus_pipeline.py:12-16 | Reads `{output_dir}/{name}_results.json`. If the file is present it returns its records unchanged; if missing it fails with that path. |
| `Consensus.ConsensusPipeline.DetermineMostAccurate` | src/ocr_extraction/consensus_pipeline.py:18-30 | The nested loops fill the score table with exactly the pairs `i < j`. The averaging loops compute each candidate's average. `max` and `index` then pick `texts[MostAccurateIndex]`: the first candidate with the largest average. |
| `Consensus.ReconciledRecords` | src/ocr_extraction/consensus_pipeline.py:42-49 | After a successful reconciliation the lists correspond. The output has one record per position. Each record carries the name shared by all three lists and one of the three candidates (easyocr, pytesseract, trocr). No candidate at that position has a larger average. |
| `Consensus.ConsensusPipeline.Reconcile` | src/ocr_extraction/consensus_pipeline.py:39-49 | It fails with the length error exactly when the three lengths differ. It succeeds exactly when the lengths agree and the names agree at every position; otherwise it fails with the name error. On success it returns one record per position, in order, holding the shared name and the text chosen by `MostAccurate`. |
| `Consensus.ConsensusPipeline.Run` | src/ocr_extraction/consensus_pipeline.py:32-53 | It fails on the first missing result file in reading order, then as `Reconcile`. It writes `ocr_results.json` with the returned records only on success, and leaves every other file as it was. |
| `Extraction.Extractor.Extract` | src/ocr_extraction/ocr_pipeline.py:26 | The engine returns its reading of the path, and the call is appended to the engine's log of invocations. |
| `Extraction.JpgPositions` | src/ocr_extraction/ocr_pipeline.py:22-27 | The kept names correspond one for one to a strictly increasing sequence of listing positions. A position is among them exactly when its entry's lower-cased name ends with `.jpg`. So the records are exactly the `.jpg` entries, in listing order, and there are as many records as `.jpg` entries. |
| `Extraction.ImageNamesMembership` | src/ocr_extraction/ocr_pipeline.py:22-23 | A name is kept if and only if it is listed and its lower-cased form ends with `.jpg`. |
| `Extraction.JpgFilterExamples` | src/ocr_extraction/ocr_pipeline.py:23 | From `a.jpg`, `b.png`, `c.jpeg`, `D.JPG` the pipeline keeps `a.jpg` and `D.JPG`: `.png` and `.jpeg` are dropped, and the case of the extension does not matter. |
| `Extraction.ClassNamesLowered` | src/ocr_extraction/ocr_pipeline.py:33-35 | `EasyOCRExtractor`, `PyTesseractExtractor` and `TrOCRExtractor` lower to `easyocrextractor`, `pytesseractextractor` and `trocrextractor`. |
| `Extraction.OCRPipeline.constructor` | src/ocr_extraction/ocr_pipeline.py:13-17 | Stores the extractor and the two directories. |
| `Extraction.OCRPipeline.ProcessImages` | src/ocr_extraction/ocr_pipeline.py:19-29 | The engine is invoked exactly once per kept entry, in listing order, on the input directory joined with the name, and on nothing else. Each record pairs the kept name with the engine's text, unchanged. |
| `Extraction.OCRPipeline.SaveResults` | src/ocr_extraction/ocr_pipeline.py:31-39 | Writes the given records, unchanged, to `os.path.join(output_dir, lower(class name) + "_results.json")` and to no other file. |
| `Extraction.OCRPipeline.Run` | src/ocr_extraction/ocr_pipeline.py:41-46 | The saved file holds exactly the records `process_images` produced, with nothing added or dropped. |
| `Common.FileStore.Write` | src/ocr_extraction/ocr_pipeline.py:37-38 | Writing a file replaces its whole contents and touches no other file. |
| `Common.FileStore.Read` | src/ocr_extraction/consensus_pipeline.py:15-16 | Reading returns what was last written at that path, or fails with the path. |
| `Common.JoinAgreesWithFormat` | src/ocr_extraction/ocr_pipeline.py:34-35 | For a non-empty directory without a trailing `/` and a relative name, `os.path.join` gives `dir + "/" + name`. |
| `Common.EmptyDirSpellingsDiffer` | src/ocr_extraction/consensus_pipeline.py:14 | With an empty output directory, the f-string path and the `os.path.join` path spell different paths. |
| `EndToEnd.WrittenFilesAreRead` | src/ocr_extraction/consensus_pipeline.py:35-37 | Suppose both pipelines use the same output directory, non-empty and without a trailing `/`. Then the file written for each of the three extractor classes is the file the consensus pipeline reads for that engine. |
| `EndToEnd.RunIsRepeatable` | src/ocr_extraction/consensus_pipeline.py:52-53 | `ocr_results.json` is none of the three input files, so a second consensus run over unchanged result files has the same outcome. |
| `EndToEnd.ExtractThenReconcile` | src/ocr_extraction/consensus_pipeline.py:32-49 | The three extraction runs are followed by the consensus run, all on one listing. The correspondence checks always pass. Every kept image gets the text that `MostAccurate` selects from the three engines' readings of its path. Afterwards the store holds the three result files with the extracted records and `ocr_results.json` with the consensus records; no other file changes. |

## Left out

- The recognition engines (`extractors.py`) are foreign calls. Each engine is a function from image path to text. Model loading, image decoding and inference are not modelled.
- Engine failures are left out. An exception from an engine aborts the Python run. In the model every call returns a text.
- The command line (`main.py`) is not modelled. It only picks an engine and the fixed paths `"data/selected_images"` and `"data"`.
- `Levenshtein.ratio` is not modelled. It is the similarity parameter, and lemmas that need its properties state them as preconditions.
- Floating point is not modelled. Averages are exact reals, so a tie that float rounding would break, or create, is not captured.
- JSON is not modelled. Encoding and decoding are taken as exact round trips, and a file is the list of records it holds. Malformed files and records missing `image_name` or `text` (a `KeyError` in Python) are not modelled.
- `os.listdir` is a given sequence of names. Its order is whatever the platform returns. `ExtractThenReconcile` passes the same listing to all three runs, where the real runs list the directory three times.
- The file system's path normalisation is not modelled. The store is keyed by the path string, so `data//x` and `data/x` are different keys there. For this reason `WrittenFilesAreRead` requires a directory without a trailing `/`.
- Common.Lower: lowers only the ASCII letters `A`–`Z`, where Python's `str.lower` lowers all of Unicode. The filter stays exact for any name, because it compares only the last four characters of the lowered name. No non-ASCII character lowers to `.`, `j`, `p` or `g`. The one character that lowers to two, U+0130, becomes `i` followed by a combining dot, so it cannot end `.jpg` either. The three class names are ASCII.
- Consensus.ConsensusPipeline.Reconcile: the length and name checks are Python `assert` statements, which `python -O` removes. The model promises the failures only with assertions enabled. Without them, a longer easyocr list raises `IndexError`, a shorter one silently stops at its own length, and mismatched names pass.
- Logging through loguru is not modelled.
- `ConsensusPipeline.input_dir` is stored and never read, and the model keeps it the same way.
