/** The class autoloader registered in App/autoload.php: a class name becomes
    a file path under the base directory, and the file is either included or
    an error is logged and an exception thrown. `BASEDIR` is a parameter, and
    the files that exist on disk (what `file_exists` consults) are a set. */
module Autoload {

  /** Every occurrence of `from` in `s` replaced by `to` (`str_replace` on one character). */
  function ReplaceChar(s: string, from: char, to: char): (r: string)
    ensures |r| == |s|
    ensures forall i :: 0 <= i < |s| ==> r[i] == if s[i] == from then to else s[i]
  {
    if s == [] then []
    else [if s[0] == from then to else s[0]] + ReplaceChar(s[1..], from, to)
  }

  /** Converts a namespaced class name to a relative path: `\` becomes `/`. */
  function NamespaceToPath(className: string): (r: string)
    ensures |r| == |className|
    ensures '\\' !in r
    ensures forall i :: 0 <= i < |r| && className[i] != '\\' ==> r[i] == className[i]
    ensures forall i :: 0 <= i < |r| && className[i] == '\\' ==> r[i] == '/'
  {
    var r := ReplaceChar(className, '\\', '/');
    assert forall i :: 0 <= i < |r| ==> r[i] != '\\';
    r
  }

  /** `BASEDIR . '/' . $className . ".php"` */
  function FilePath(baseDir: string, className: string): (p: string)
    ensures |p| == |baseDir| + 1 + |className| + 4
    ensures p[..|baseDir| + 1] == baseDir + "/"
    ensures p[|baseDir| + 1..|p| - 4] == NamespaceToPath(className)
    ensures p[|p| - 4..] == ".php"
  {
    var p := baseDir + "/" + NamespaceToPath(className) + ".php";
    assert p[..|baseDir| + 1] == baseDir + "/";
    assert p[|baseDir| + 1..|p| - 4] == NamespaceToPath(className);
    p
  }

  /** What a call of the autoloader does: include the file, or log and throw. */
  datatype Outcome =
    | Included(path: string)
    | Thrown(logged: string, message: string)

  /** The autoload closure for `className`, given the files that exist. */
  function Load(baseDir: string, className: string, files: set<string>): (r: Outcome)
    ensures r.Included? <==> FilePath(baseDir, className) in files
    ensures r.Included? ==> r.path == FilePath(baseDir, className)
    ensures r.Thrown? ==>
      r.logged == "File not found. Path: " + FilePath(baseDir, className) &&
      r.message == "File not found: " + FilePath(baseDir, className)
  {
    var filePath := FilePath(baseDir, className);
    if filePath in files then Included(filePath)
    else Thrown("File not found. Path: " + filePath, "File not found: " + filePath)
  }

  /** The relative path back to the class name: `/` becomes `\`. */
  function PathToNamespace(path: string): string
  {
    ReplaceChar(path, '/', '\\')
  }

  /** The part of a file path between `baseDir/` and `.php`. */
  function RelativePart(baseDir: string, path: string): string
    requires |path| >= |baseDir| + 5
  {
    path[|baseDir| + 1..|path| - 4]
  }

  /** A class name holding no `/` (no PHP class name does) is recovered from its file path. */
  lemma {:induction false} FilePathRoundTrip(baseDir: string, className: string)
    requires '/' !in className
    ensures PathToNamespace(RelativePart(baseDir, FilePath(baseDir, className))) == className
  {
    var p := FilePath(baseDir, className);
    var middle := NamespaceToPath(className);
    assert p == baseDir + "/" + middle + ".php";
    assert RelativePart(baseDir, p) == middle;
    var back := PathToNamespace(middle);
    assert |back| == |className|;
    forall i | 0 <= i < |className|
      ensures back[i] == className[i]
    {
      assert className[i] != '/';
    }
  }

  /** Distinct class names map to distinct files under the same base directory. */
  lemma FilePathInjective(baseDir: string, a: string, b: string)
    requires '/' !in a && '/' !in b
    requires FilePath(baseDir, a) == FilePath(baseDir, b)
    ensures a == b
  {
    FilePathRoundTrip(baseDir, a);
    FilePathRoundTrip(baseDir, b);
  }

  /** Exactly the computed path is included, and only when it exists. */
  lemma IncludesOnlyExistingPath(baseDir: string, className: string, files: set<string>)
    requires Load(baseDir, className, files).Included?
    ensures Load(baseDir, className, files).path in files
    ensures '/' !in className ==>
      PathToNamespace(RelativePart(baseDir, Load(baseDir, className, files).path)) == className
  {
    if '/' !in className {
      FilePathRoundTrip(baseDir, className);
    }
  }
}
