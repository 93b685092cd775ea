/** `OCRPipeline`: runs one recognition engine over the `.jpg` entries of
    the input directory, in listing order, and saves the records under a
    file named after the engine's class. */
module Extraction {
  import opened Common

  /** `type(extractor).__name__` of the three engine classes. */
  const EasyOcrClass: string := "EasyOCRExtractor"
  const PyTesseractClass: string := "PyTesseractExtractor"
  const TrOcrClass: string := "TrOCRExtractor"

  /** A recognition engine object. What it reads off an image is the
      foreign function `engine` of the image path; the ghost `calls` is the
      sequence of paths `extract` has been invoked with, oldest first. */
  class Extractor {
    const className: string
    const engine: string -> string
    ghost var calls: seq<string>

    constructor (className: string, engine: string -> string)
      ensures this.className == className && this.engine == engine && calls == []
    {
      this.className := className;
      this.engine := engine;
      calls := [];
    }

    method Extract(imagePath: string) returns (text: string)
      modifies this
      ensures calls == old(calls) + [imagePath]
      ensures text == engine(imagePath)
    {
      calls := calls + [imagePath];
      text := engine(imagePath);
    }
  }

  /** `image_name.lower().endswith(".jpg")` */
  predicate IsJpg(name: string)
  {
    EndsWith(Lower(name), ".jpg")
  }

  /** The listing entries kept by `process_images`, in listing order. */
  function ImageNames(listing: seq<string>): seq<string>
  {
    if listing == [] then []
    else
      var last := listing[|listing| - 1];
      ImageNames(listing[..|listing| - 1]) + (if IsJpg(last) then [last] else [])
  }

  /** The positions of the kept entries: strictly increasing, exactly the
      positions of `.jpg` entries, and pointing at the kept names one for
      one; so the kept names are the `.jpg` entries, in listing order, as
      many as the listing holds. */
  function JpgPositions(listing: seq<string>): (idx: seq<nat>)
    ensures |idx| == |ImageNames(listing)|
    ensures forall k :: 0 <= k < |idx| ==> idx[k] < |listing| && listing[idx[k]] == ImageNames(listing)[k]
    ensures forall k1, k2 :: 0 <= k1 < k2 < |idx| ==> idx[k1] < idx[k2]
    ensures forall i :: 0 <= i < |listing| ==> (IsJpg(listing[i]) <==> i in idx)
  {
    if listing == [] then []
    else
      var n := |listing| - 1;
      JpgPositions(listing[..n]) + (if IsJpg(listing[n]) then [n] else [])
  }

  /** A name is kept exactly when it is listed and is a `.jpg` name. */
  lemma {:induction false} ImageNamesMembership(listing: seq<string>, name: string)
    ensures name in ImageNames(listing) <==> name in listing && IsJpg(name)
  {
    if listing != [] {
      var n := |listing| - 1;
      ImageNamesMembership(listing[..n], name);
      assert listing == listing[..n] + [listing[n]];
    }
  }

  /** `.png` and `.jpeg` entries are dropped; the suffix comparison ignores case. */
  lemma JpgFilterExamples()
    ensures ImageNames(["a.jpg", "b.png", "c.jpeg", "D.JPG"]) == ["a.jpg", "D.JPG"]
  {
    var l := ["a.jpg", "b.png", "c.jpeg", "D.JPG"];
    assert IsJpg(l[0]) && IsJpg(l[3]);
    assert !IsJpg(l[1]) by { assert Lower(l[1])[1..][1] != ".jpg"[1]; }
    assert !IsJpg(l[2]) by { assert Lower(l[2])[2..][0] != ".jpg"[0]; }
    assert l[..1][..0] == [];
    assert ImageNames(l[..1]) == ["a.jpg"];
    assert l[..2][..1] == l[..1];
    assert ImageNames(l[..2]) == ["a.jpg"];
    assert l[..3][..2] == l[..2];
    assert ImageNames(l[..3]) == ["a.jpg"];
    assert l[..3] == l[..|l| - 1];
  }

  /** The paths `extract` is invoked with: the input directory joined with
      each kept name. */
  function ImagePaths(dir: string, names: seq<string>): seq<string>
  {
    seq(|names|, k requires 0 <= k < |names| => JoinPath(dir, names[k]))
  }

  /** One record per kept name: the name and the engine's text, unchanged. */
  function ExtractedRecords(engine: string -> string, dir: string, names: seq<string>): seq<Record>
  {
    seq(|names|, k requires 0 <= k < |names| => Record(names[k], engine(JoinPath(dir, names[k]))))
  }

  /** `f"{extraction_method.lower()}_results.json"` */
  function ResultsFileName(className: string): string
  {
    Lower(className) + "_results.json"
  }

  /** The three class names lower to the names the consensus stage reads. */
  lemma ClassNamesLowered()
    ensures Lower(EasyOcrClass) == "easyocrextractor"
    ensures Lower(PyTesseractClass) == "pytesseractextractor"
    ensures Lower(TrOcrClass) == "trocrextractor"
  {
  }

  class OCRPipeline {
    const extractor: Extractor
    const inputDir: string
    const outputDir: string

    constructor (extractor: Extractor, inputDir: string, outputDir: string)
      ensures this.extractor == extractor && this.inputDir == inputDir && this.outputDir == outputDir
    {
      this.extractor := extractor;
      this.inputDir := inputDir;
      this.outputDir := outputDir;
    }

    /** Calls the extractor once per `.jpg` entry, in listing order, on the
        joined path, and returns one record per call. */
    method ProcessImages(listing: seq<string>) returns (results: seq<Record>)
      modifies extractor
      ensures extractor.calls == old(extractor.calls) + ImagePaths(inputDir, ImageNames(listing))
      ensures results == ExtractedRecords(extractor.engine, inputDir, ImageNames(listing))
    {
      results := [];
      for i := 0 to |listing|
        invariant extractor.calls == old(extractor.calls) + ImagePaths(inputDir, ImageNames(listing[..i]))
        invariant results == ExtractedRecords(extractor.engine, inputDir, ImageNames(listing[..i]))
      {
        var imageName := listing[i];
        assert listing[..i + 1][..i] == listing[..i];
        if IsJpg(imageName) {
          var imagePath := JoinPath(inputDir, imageName);
          var text := extractor.Extract(imagePath);
          results := results + [Record(imageName, text)];
        }
      }
      assert listing[..|listing|] == listing;
    }

    /** `os.path.join(output_dir, f"{class name lowered}_results.json")` */
    function OutputPath(): string
    {
      JoinPath(outputDir, ResultsFileName(extractor.className))
    }

    /** Writes the records, as given, to the engine's results file. */
    method SaveResults(store: FileStore, results: seq<Record>)
      modifies store
      ensures store.files == old(store.files)[OutputPath() := results]
    {
      store.Write(OutputPath(), results);
    }

    /** Extracts, then saves exactly the extracted records. */
    method Run(store: FileStore, listing: seq<string>)
      modifies extractor, store
      ensures extractor.calls == old(extractor.calls) + ImagePaths(inputDir, ImageNames(listing))
      ensures store.files ==
        old(store.files)[OutputPath() := ExtractedRecords(extractor.engine, inputDir, ImageNames(listing))]
    {
      var results := ProcessImages(listing);
      SaveResults(store, results);
    }
  }
}
