/** How the two stages fit together: the three extraction runs write the
    files the consensus run reads, and a consensus run does not disturb its
    own inputs. */
module EndToEnd {
  import opened Common
  import opened Selection
  import opened Consensus
  import opened Extraction

  /** The file an extraction pipeline writes for an engine class is the file
      the consensus pipeline reads for that engine, when both are given the
      same output directory, spelled without a trailing separator. */
  lemma WrittenFilesAreRead(p: OCRPipeline, c: ConsensusPipeline)
    requires p.outputDir == c.outputDir && PlainDir(c.outputDir)
    ensures p.extractor.className == EasyOcrClass ==> p.OutputPath() == c.ResultsPath(EasyOcrName)
    ensures p.extractor.className == PyTesseractClass ==> p.OutputPath() == c.ResultsPath(PyTesseractName)
    ensures p.extractor.className == TrOcrClass ==> p.OutputPath() == c.ResultsPath(TrOcrName)
  {
    ClassNamesLowered();
    var cls := p.extractor.className;
    if cls == EasyOcrClass || cls == PyTesseractClass || cls == TrOcrClass {
      var name := ResultsFileName(cls);
      assert name[0] == Lower(cls)[0] != '/';
      JoinAgreesWithFormat(c.outputDir, name);
    }
  }

  /** The consensus output file is none of the files it reads, so a second
      run over unchanged result files yields the same outcome. */
  lemma RunIsRepeatable(c: ConsensusPipeline, sim: Similarity, files: map<string, seq<Record>>, out: seq<Record>)
    ensures c.RunOutcome(sim, files[c.OutputPath() := out]) == c.RunOutcome(sim, files)
  {
    assert |c.OutputPath()| != |c.ResultsPath(EasyOcrName)|;
    assert |c.OutputPath()| != |c.ResultsPath(PyTesseractName)|;
    assert |c.OutputPath()| != |c.ResultsPath(TrOcrName)|;
  }

  /** The whole batch on one directory listing: each engine's pipeline runs
      and saves its records, then the consensus pipeline reads them back.
      The correspondence checks pass, and every kept image gets the text
      selected from the three engines' readings of its path. */
  method ExtractThenReconcile(
    sim: Similarity, listing: seq<string>,
    easyEngine: string -> string, tessEngine: string -> string, trEngine: string -> string,
    inputDir: string, outputDir: string, store: FileStore)
    returns (r: Result<seq<Record>>)
    requires PlainDir(outputDir)
    modifies store
    ensures r.Ok?
    ensures store.files == old(store.files)
      [outputDir + "/" + EasyOcrName + "_results.json" := ExtractedRecords(easyEngine, inputDir, ImageNames(listing))]
      [outputDir + "/" + PyTesseractName + "_results.json" := ExtractedRecords(tessEngine, inputDir, ImageNames(listing))]
      [outputDir + "/" + TrOcrName + "_results.json" := ExtractedRecords(trEngine, inputDir, ImageNames(listing))]
      [outputDir + "/ocr_results.json" := r.value]
    ensures var names := ImageNames(listing);
      && |r.value| == |names|
      && forall k :: 0 <= k < |names| ==>
           var path := JoinPath(inputDir, names[k]);
           r.value[k] == Record(names[k], MostAccurate(sim, [easyEngine(path), tessEngine(path), trEngine(path)]))
  {
    var names := ImageNames(listing);
    var consensus := new ConsensusPipeline(inputDir, outputDir);

    var easyocr := new Extractor(EasyOcrClass, easyEngine);
    var p1 := new OCRPipeline(easyocr, inputDir, outputDir);
    p1.Run(store, listing);
    WrittenFilesAreRead(p1, consensus);

    var pytesseract := new Extractor(PyTesseractClass, tessEngine);
    var p2 := new OCRPipeline(pytesseract, inputDir, outputDir);
    p2.Run(store, listing);
    WrittenFilesAreRead(p2, consensus);

    var trocr := new Extractor(TrOcrClass, trEngine);
    var p3 := new OCRPipeline(trocr, inputDir, outputDir);
    p3.Run(store, listing);
    WrittenFilesAreRead(p3, consensus);

    var easyPath := consensus.ResultsPath(EasyOcrName);
    var tessPath := consensus.ResultsPath(PyTesseractName);
    var trPath := consensus.ResultsPath(TrOcrName);
    assert |easyPath| != |tessPath| && |easyPath| != |trPath| && |tessPath| != |trPath|;
    var easy := ExtractedRecords(easyEngine, inputDir, names);
    var tess := ExtractedRecords(tessEngine, inputDir, names);
    var tr := ExtractedRecords(trEngine, inputDir, names);
    assert store.files[easyPath] == easy && store.files[tessPath] == tess && store.files[trPath] == tr;
    assert SameImages(easy, tess, tr);

    r := consensus.Run(sim, store);
    assert r == Reconciled(sim, easy, tess, tr);
  }
}
