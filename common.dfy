/** Shared vocabulary of both pipelines: the persisted record shape, the
    errors the pipelines raise, an in-memory stand-in for the output
    directory, and the string and path helpers the Python code relies on
    (`str.lower`, `str.endswith`, `os.path.join`). */
module Common {

  /** One entry of a result file: `{"image_name": ..., "text": ...}`. */
  datatype Record = Record(imageName: string, text: string)

  /** The ways a run aborts. */
  datatype Error =
    | FileNotFound(path: string)   // `open(path, 'r')` on a missing file
    | LengthMismatch               // "Results length mismatch" assertion
    | ImageNameMismatch            // "Image name mismatch" assertion

  datatype Result<T> = Ok(value: T) | Err(error: Error)

  /** The files of the output directory, keyed by path, each holding the
      list of records that `json.dump` wrote and `json.load` reads back. */
  class FileStore {
    var files: map<string, seq<Record>>

    constructor (initial: map<string, seq<Record>>)
      ensures files == initial
    {
      files := initial;
    }

    /** `open(path, "w")` followed by `json.dump`: replaces the file. */
    method Write(path: string, records: seq<Record>)
      modifies this
      ensures files == old(files)[path := records]
    {
      files := files[path := records];
    }

    /** `open(path, 'r')` followed by `json.load`. */
    method Read(path: string) returns (r: Result<seq<Record>>)
      ensures path in files ==> r == Ok(files[path])
      ensures path !in files ==> r == Err(FileNotFound(path))
    {
      if path in files {
        r := Ok(files[path]);
      } else {
        r := Err(FileNotFound(path));
      }
    }
  }

  /** `str.lower` on one character, for the ASCII letters. */
  function LowerChar(c: char): char
  {
    if 'A' <= c <= 'Z' then (c as int - 'A' as int + 'a' as int) as char else c
  }

  /** `str.lower`: every character lowered, nothing added or dropped. */
  function Lower(s: string): string
  {
    seq(|s|, i requires 0 <= i < |s| => LowerChar(s[i]))
  }

  /** `s.endswith(suffix)`. */
  predicate EndsWith(s: string, suffix: string)
  {
    |suffix| <= |s| && s[|s| - |suffix|..] == suffix
  }

  /** `os.path.join(dir, name)` on POSIX for two components: an absolute
      `name` discards `dir`; a separator is inserted only when `dir` is
      non-empty and does not already end with one. */
  function JoinPath(dir: string, name: string): string
  {
    if |name| > 0 && name[0] == '/' then name
    else if dir == [] || dir[|dir| - 1] == '/' then dir + name
    else dir + "/" + name
  }

  /** A directory path on which `os.path.join(dir, x)` and the f-string
      `f"{dir}/{x}"` spell the same file name. */
  predicate PlainDir(dir: string)
  {
    dir != [] && dir[|dir| - 1] != '/'
  }

  lemma {:induction false} JoinAgreesWithFormat(dir: string, name: string)
    requires PlainDir(dir)
    requires name == [] || name[0] != '/'
    ensures JoinPath(dir, name) == dir + "/" + name
  {
  }

  /** With an empty directory the two spellings spell different paths:
      `os.path.join` stays relative, the f-string starts at the root. */
  lemma EmptyDirSpellingsDiffer(name: string)
    requires name == [] || name[0] != '/'
    ensures JoinPath("", name) != "" + "/" + name
  {
    assert |JoinPath("", name)| != |"/" + name|;
  }
}
