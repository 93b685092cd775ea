/** `ConsensusPipeline`: reads the three engines' result files, checks that
    they describe the same images in the same order, and picks for every
    image the candidate text that agrees best with the others. */
module Consensus {
  import opened Common
  import opened Selection

  /** The names under which the three engines' results are read, in the
      order their candidates are compared. */
  const EasyOcrName: string := "easyocrextractor"
  const PyTesseractName: string := "pytesseractextractor"
  const TrOcrName: string := "trocrextractor"

  /** The candidates for position `i`: easyocr, pytesseract, trocr. */
  function Candidates(easy: seq<Record>, tess: seq<Record>, tr: seq<Record>, i: nat): seq<string>
    requires i < |easy| && i < |tess| && i < |tr|
  {
    [easy[i].text, tess[i].text, tr[i].text]
  }

  /** The correspondence the pipeline demands: equal lengths and, at every
      position, one image name shared by all three lists. */
  predicate SameImages(easy: seq<Record>, tess: seq<Record>, tr: seq<Record>)
  {
    |easy| == |tess| == |tr| &&
    forall i :: 0 <= i < |easy| ==> easy[i].imageName == tess[i].imageName == tr[i].imageName
  }

  /** The outcome of reconciling three result lists: the length check
      first, then the name check, else one record per position holding the
      shared name and the selected text. */
  function Reconciled(sim: Similarity, easy: seq<Record>, tess: seq<Record>, tr: seq<Record>): Result<seq<Record>>
  {
    if !(|easy| == |tess| == |tr|) then Err(LengthMismatch)
    else if !SameImages(easy, tess, tr) then Err(ImageNameMismatch)
    else Ok(seq(|easy|, i requires 0 <= i < |easy| =>
                          Record(easy[i].imageName, MostAccurate(sim, Candidates(easy, tess, tr, i)))))
  }

  /** Every record of a successful reconciliation carries the image's shared
      name and one of its three candidates, and no candidate at that
      position has a larger average similarity than the chosen one. */
  lemma ReconciledRecords(sim: Similarity, easy: seq<Record>, tess: seq<Record>, tr: seq<Record>, i: nat)
    requires Reconciled(sim, easy, tess, tr).Ok? && i < |easy|
    ensures SameImages(easy, tess, tr)
    ensures var out := Reconciled(sim, easy, tess, tr).value;
      && |out| == |easy|
      && out[i].imageName == easy[i].imageName == tess[i].imageName == tr[i].imageName
      && out[i].text in Candidates(easy, tess, tr, i)
      && exists k :: 0 <= k < 3 && out[i].text == Candidates(easy, tess, tr, i)[k] &&
           forall j :: 0 <= j < 3 ==>
             Average(sim, Candidates(easy, tess, tr, i), j) <= Average(sim, Candidates(easy, tess, tr, i), k)
  {
    var texts := Candidates(easy, tess, tr, i);
    var k := MostAccurateIndex(sim, texts);
    assert Reconciled(sim, easy, tess, tr).value[i].text == texts[k];
  }

  class ConsensusPipeline {
    const inputDir: string
    const outputDir: string

    constructor (inputDir: string, outputDir: string)
      ensures this.inputDir == inputDir && this.outputDir == outputDir
    {
      this.inputDir := inputDir;
      this.outputDir := outputDir;
    }

    /** `f"{self.output_dir}/{extractor_name}_results.json"` */
    function ResultsPath(extractorName: string): string
    {
      outputDir + "/" + extractorName + "_results.json"
    }

    /** `f"{self.output_dir}/ocr_results.json"` */
    function OutputPath(): string
    {
      outputDir + "/ocr_results.json"
    }

    /** Loads one engine's result file; a missing file aborts the run. */
    method ReadResults(store: FileStore, extractorName: string) returns (r: Result<seq<Record>>)
      ensures ResultsPath(extractorName) in store.files ==> r == Ok(store.files[ResultsPath(extractorName)])
      ensures ResultsPath(extractorName) !in store.files ==> r == Err(FileNotFound(ResultsPath(extractorName)))
    {
      r := store.Read(ResultsPath(extractorName));
    }

    /** Scores every pair `i < j` into a table, averages each candidate's
        scores over `len(texts) - 1`, and returns the first candidate whose
        average is the maximum. */
    method DetermineMostAccurate(sim: Similarity, texts: seq<string>) returns (best: string)
      requires 2 <= |texts|
      ensures best == texts[MostAccurateIndex(sim, texts)]
    {
      var n := |texts|;
      var scores: map<(int, int), real> := map[];
      for i := 0 to n
        invariant forall a, b :: (a, b) in scores <==> 0 <= a < i && a < b < n
        invariant forall a, b :: (a, b) in scores ==> scores[(a, b)] == sim(texts[a], texts[b])
      {
        for j := 0 to n
          invariant forall a, b :: (a, b) in scores <==> (0 <= a < i && a < b < n) || (a == i && i < b < j)
          invariant forall a, b :: (a, b) in scores ==> scores[(a, b)] == sim(texts[a], texts[b])
        {
          if i < j {
            scores := scores[(i, j) := sim(texts[i], texts[j])];
          }
        }
      }
      var avgScores: seq<real> := [];
      for i := 0 to n
        invariant |avgScores| == i
        invariant forall a :: 0 <= a < i ==> avgScores[a] == Average(sim, texts, a)
      {
        var total := 0.0;
        for j := 0 to n
          invariant total == Total(sim, texts, i, j)
        {
          var key := (Min(i, j), Max(i, j));
          total := total + (if key in scores then scores[key] else 0.0);
        }
        avgScores := avgScores + [total / (n - 1) as real];
      }
      var top := MaxOf(avgScores);
      var k := IndexOf(avgScores, top);
      FirstMaxIndexUnique(avgScores, k);
      assert avgScores == Averages(sim, texts);
      best := texts[k];
    }

    /** The checks and the per-position loop of `run`: aborts on a length
        mismatch, then on the first position whose image names differ;
        otherwise one record per position, in order. */
    method Reconcile(sim: Similarity, easy: seq<Record>, tess: seq<Record>, tr: seq<Record>)
      returns (r: Result<seq<Record>>)
      ensures r == Reconciled(sim, easy, tess, tr)
      ensures r == Err(LengthMismatch) <==> !(|easy| == |tess| == |tr|)
      ensures r.Ok? <==> SameImages(easy, tess, tr)
      ensures r.Ok? ==>
        |r.value| == |easy| &&
        forall i :: 0 <= i < |easy| ==>
          r.value[i].imageName == easy[i].imageName && r.value[i].text in Candidates(easy, tess, tr, i)
    {
      if !(|easy| == |tess| == |tr|) {
        return Err(LengthMismatch);
      }
      var finalResults: seq<Record> := [];
      for i := 0 to |easy|
        invariant |finalResults| == i
        invariant forall a :: 0 <= a < i ==> easy[a].imageName == tess[a].imageName == tr[a].imageName
        invariant forall a :: 0 <= a < i ==>
          finalResults[a] == Record(easy[a].imageName, MostAccurate(sim, Candidates(easy, tess, tr, a)))
      {
        var imageName := easy[i].imageName;
        if !(imageName == tess[i].imageName == tr[i].imageName) {
          return Err(ImageNameMismatch);
        }
        var texts := [easy[i].text, tess[i].text, tr[i].text];
        var mostAccurateText := DetermineMostAccurate(sim, texts);
        finalResults := finalResults + [Record(imageName, mostAccurateText)];
      }
      assert SameImages(easy, tess, tr);
      assert finalResults == Reconciled(sim, easy, tess, tr).value;
      r := Ok(finalResults);
    }

    /** What `run` returns for the files present when it starts: the first
        missing input file in reading order, else the reconciliation. */
    function RunOutcome(sim: Similarity, files: map<string, seq<Record>>): Result<seq<Record>>
    {
      if ResultsPath(EasyOcrName) !in files then Err(FileNotFound(ResultsPath(EasyOcrName)))
      else if ResultsPath(PyTesseractName) !in files then Err(FileNotFound(ResultsPath(PyTesseractName)))
      else if ResultsPath(TrOcrName) !in files then Err(FileNotFound(ResultsPath(TrOcrName)))
      else Reconciled(sim, files[ResultsPath(EasyOcrName)], files[ResultsPath(PyTesseractName)],
                      files[ResultsPath(TrOcrName)])
    }

    /** Reads the three result files, reconciles them, and on success writes
        the consensus records to `ocr_results.json`; a failed run writes
        nothing. */
    method Run(sim: Similarity, store: FileStore) returns (r: Result<seq<Record>>)
      modifies store
      ensures r == RunOutcome(sim, old(store.files))
      ensures store.files == if r.Ok? then old(store.files)[OutputPath() := r.value] else old(store.files)
    {
      var easyocrResults := ReadResults(store, EasyOcrName);
      if easyocrResults.Err? { return easyocrResults; }
      var pytesseractResults := ReadResults(store, PyTesseractName);
      if pytesseractResults.Err? { return pytesseractResults; }
      var trocrResults := ReadResults(store, TrOcrName);
      if trocrResults.Err? { return trocrResults; }
      r := Reconcile(sim, easyocrResults.value, pytesseractResults.value, trocrResults.value);
      if r.Ok? {
        store.Write(OutputPath(), r.value);
      }
    }
  }

  /** Python's `max` on a non-empty list: a largest element. */
  method MaxOf(s: seq<real>) returns (m: real)
    requires |s| > 0
    ensures m in s
    ensures forall j :: 0 <= j < |s| ==> s[j] <= m
  {
    m := s[0];
    for i := 1 to |s|
      invariant m in s[..i]
      invariant forall j :: 0 <= j < i ==> s[j] <= m
    {
      if m < s[i] {
        m := s[i];
      }
    }
  }

  /** Python's `list.index`: the first position holding `v`. */
  method IndexOf(s: seq<real>, v: real) returns (k: nat)
    requires v in s
    ensures k < |s| && s[k] == v
    ensures forall j :: 0 <= j < k ==> s[j] != v
  {
    k := 0;
    while s[k] != v
      invariant k < |s|
      invariant v in s[k..]
      invariant forall j :: 0 <= j < k ==> s[j] != v
      decreases |s| - k
    {
      k := k + 1;
    }
  }
}
