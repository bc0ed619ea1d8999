/** Reading an image from the files a user picked: every file is renamed with `'/'`
    replaced by `'_'`, and exactly one file is handed to the image reader. */
module ImageReader {
  import opened Wrappers

  /** A browser `File`: its name and its bytes. */
  datatype File = File(name: string, content: seq<int>)

  function SanitizeChar(c: char): char {
    if c == '/' then '_' else c
  }

  /** `name.replace(/\//g, '_')`: every `'/'` of `name` becomes `'_'`. */
  function SanitizeFileName(name: string): (r: string)
    ensures |r| == |name|
  {
    if name == [] then [] else [SanitizeChar(name[0])] + SanitizeFileName(name[1..])
  }

  /** Position by position, a `'/'` becomes `'_'` and every other character is kept. */
  lemma {:induction false} SanitizeFileNameAt(name: string, i: nat)
    requires i < |name|
    ensures SanitizeFileName(name)[i] == if name[i] == '/' then '_' else name[i]
  {
    if i > 0 {
      SanitizeFileNameAt(name[1..], i - 1);
    }
  }

  /** No `'/'` is left in a sanitised name. */
  lemma SanitizedHasNoSlash(name: string)
    ensures '/' !in SanitizeFileName(name)
  {
    forall i | 0 <= i < |name| ensures SanitizeFileName(name)[i] != '/' {
      SanitizeFileNameAt(name, i);
    }
  }

  /** Sanitising a sanitised name changes nothing. */
  lemma {:induction false} SanitizeFileNameIdempotent(name: string)
    ensures SanitizeFileName(SanitizeFileName(name)) == SanitizeFileName(name)
  {
    if name != [] {
      var r := SanitizeFileName(name);
      SanitizeFileNameIdempotent(name[1..]);
      assert r[1..] == SanitizeFileName(name[1..]);
      assert r == [SanitizeChar(name[0])] + r[1..];
    }
  }

  /** A name without `'/'` is its own sanitised form. */
  lemma {:induction false} SanitizeFileNameKeepsClean(name: string)
    requires '/' !in name
    ensures SanitizeFileName(name) == name
  {
    if name != [] {
      SanitizeFileNameKeepsClean(name[1..]);
      assert name == [name[0]] + name[1..];
    }
  }

  /** `sanitizeFile`: `new File([file], sanitizeFileName(file.name))`, the same bytes under
      the sanitised name. */
  function SanitizeFile(file: File): (r: File)
    ensures r.name == SanitizeFileName(file.name) && r.content == file.content
    ensures |r.name| == |file.name| && '/' !in r.name
  {
    SanitizedHasNoSlash(file.name);
    File(SanitizeFileName(file.name), file.content)
  }

  /** `files.map(sanitizeFile)`: the same number of files, in the same order. */
  function SanitizeFiles(files: seq<File>): (r: seq<File>)
    ensures |r| == |files|
    ensures forall i :: 0 <= i < |files| ==> r[i] == SanitizeFile(files[i])
  {
    if files == [] then [] else [SanitizeFile(files[0])] + SanitizeFiles(files[1..])
  }

  /** `readImageFromFile(files)`: nothing unless exactly one file was given; that file,
      sanitised, is read by `readImage`. */
  function ReadImageFromFile<I>(files: seq<File>, readImage: File -> I): (r: Option<I>)
    ensures r.Some? <==> |files| == 1
    ensures |files| == 1 ==> r.value == readImage(File(SanitizeFileName(files[0].name), files[0].content))
  {
    var cleanFiles := SanitizeFiles(files);
    if |cleanFiles| != 1 then None
    else Some(readImage(cleanFiles[0]))
  }
}
