/** `Selenium::RSpec::Reporting::FilePathStrategy`: where the artifacts captured
    for a test example (an HTML snapshot, two kinds of screenshot, the remote
    control log) are stored, relative to the final report, and the making sure
    that their directory exists. */
module Reporting {
  import opened Paths
  import opened Directories

  /** A test example, known to the strategy only by its `location`
      (`"<source path>:<line>"`). */
  datatype Example = Example(location: string)

  /** The four kinds of artifact, each with its own file name suffix. */
  datatype ArtifactKind = HtmlCapture | SystemScreenshot | PageScreenshot | RemoteControlLogs

  function Suffix(kind: ArtifactKind): string {
    match kind
    case HtmlCapture => ".html"
    case SystemScreenshot => "_system_screenshot.png"
    case PageScreenshot => "_page_screenshot.png"
    case RemoteControlLogs => "_remote_control.log"
  }

  /** `base_report_dir`: the directory that holds the report, once the report's
      location is resolved against the working directory `cwd`. */
  function BaseReportDir(cwd: string, reportLocation: string): string
    requires IsDir(cwd)
  {
    Dirname(ExpandPath(cwd, reportLocation))
  }

  /** The report's file name without directory and extension. */
  function ReportBaseName(reportLocation: string): string {
    BasenameWithoutExtension(reportLocation)
  }

  /** `example_hash`: the digest of the example's location. The digest algorithm
      is a parameter of the model. */
  function ExampleHash(digest: string -> string, example: Example): string {
    digest(example.location)
  }

  /** The directory, relative to the report's, that holds every artifact of the
      report whose base name is `baseName`: `resources/<baseName>`. */
  function ResourceDir(baseName: string): string {
    "resources/" + baseName
  }

  /** The file name of an artifact: `example_<hash><suffix>`. */
  function ArtifactName(hash: string, kind: ArtifactKind): string {
    "example_" + hash + Suffix(kind)
  }

  /** `relative_file_path_for_<kind>`, for the report whose base name is
      `baseName` and an example whose hash is `hash`. */
  function RelativeFilePath(baseName: string, hash: string, kind: ArtifactKind): string {
    ResourceDir(baseName) + "/" + ArtifactName(hash, kind)
  }

  /** A digest whose hashes are safe in file names: none holds a separator, as
      none of a hexadecimal digest does. */
  ghost predicate FileNameSafe(digest: string -> string) {
    forall location :: '/' !in digest(location)
  }

  /** A digest that never maps two locations to one hash. */
  ghost predicate Injective(digest: string -> string) {
    forall a, b :: digest(a) == digest(b) ==> a == b
  }

  // ---------------------------------------------------------------------------
  // base_report_dir

  /** The base report directory is the directory the report is in: `dir` for an
      absolute `dir/name`, the working directory for a bare `name`. */
  lemma BaseReportDirIsParent(cwd: string, dir: string, name: string)
    requires IsDir(cwd) && IsDir(dir) && IsName(name)
    ensures BaseReportDir(cwd, Join(dir, name)) == dir
    ensures BaseReportDir(cwd, name) == cwd
  {
    JoinSplits(dir, name);
    JoinSplits(cwd, name);
  }

  /** Reports in different directories get different base report directories. */
  lemma BaseReportDirDistinct(cwd: string, dir1: string, name1: string, dir2: string, name2: string)
    requires IsDir(cwd) && IsDir(dir1) && IsName(name1) && IsDir(dir2) && IsName(name2)
    ensures BaseReportDir(cwd, Join(dir1, name1)) == BaseReportDir(cwd, Join(dir2, name2)) <==> dir1 == dir2
  {
    BaseReportDirIsParent(cwd, dir1, name1);
    BaseReportDirIsParent(cwd, dir2, name2);
  }

  /** The report's base name is a single path segment, whatever the report's
      location: the resource directory `resources/<base name>` is never deeper. */
  lemma ReportBaseNameIsSegment(reportLocation: string)
    ensures '/' !in ReportBaseName(reportLocation)
  {
    BasenameWithoutExtensionIsSegment(reportLocation);
  }

  /** The report's base name is its file name without the extension, wherever
      the report is. */
  lemma ReportBaseNameOfReportIn(dir: string, stem: string, ext: string)
    requires IsDir(dir) && IsName(stem) && '.' !in ext && '/' !in ext
    ensures ReportBaseName(Join(dir, stem + "." + ext)) == stem
  {
    var name := stem + "." + ext;
    assert '/' !in name;
    BasenameWithoutExtensionOfJoin(dir, name);
    BasenameWithoutExtensionOf(stem, ext);
  }

  // ---------------------------------------------------------------------------
  // example_hash

  /** Examples with the same location get the same hash. */
  lemma ExampleHashDeterministic(digest: string -> string, e1: Example, e2: Example)
    requires e1.location == e2.location
    ensures ExampleHash(digest, e1) == ExampleHash(digest, e2)
  {
  }

  /** With a collision-free digest, examples at different locations get
      different hashes. */
  lemma ExampleHashDistinct(digest: string -> string, e1: Example, e2: Example)
    requires Injective(digest)
    ensures ExampleHash(digest, e1) == ExampleHash(digest, e2) <==> e1.location == e2.location
  {
  }

  /** With a digest that is safe in file names, every example hash is a single
      path segment. */
  lemma ExampleHashIsSegment(digest: string -> string, example: Example)
    requires FileNameSafe(digest)
    ensures '/' !in ExampleHash(digest, example)
  {
  }

  // ---------------------------------------------------------------------------
  // relative_file_path_for_*

  /** Two strings that end differently at the same distance from their ends stay
      different after any prefixes are put in front of them. */
  lemma EndsDiffer(x: string, s1: string, y: string, s2: string, j: nat)
    requires j < |s1| && j < |s2| && s1[|s1| - 1 - j] != s2[|s2| - 1 - j]
    ensures x + s1 != y + s2
  {
    var t, u := x + s1, y + s2;
    assert t[|t| - 1 - j] == s1[|s1| - 1 - j];
    assert u[|u| - 1 - j] == s2[|s2| - 1 - j];
  }

  /** No hash can make the file names of two different kinds of artifact equal. */
  lemma ArtifactNamesDetermineKind(h1: string, k1: ArtifactKind, h2: string, k2: ArtifactKind)
    requires k1 != k2
    ensures h1 + Suffix(k1) != h2 + Suffix(k2)
  {
    if k1 == HtmlCapture || k2 == HtmlCapture {
      EndsDiffer(h1, Suffix(k1), h2, Suffix(k2), 0);       // "l" against "g"
    } else if k1 == RemoteControlLogs || k2 == RemoteControlLogs {
      EndsDiffer(h1, Suffix(k1), h2, Suffix(k2), 1);       // "o" against "n"
    } else {
      EndsDiffer(h1, Suffix(k1), h2, Suffix(k2), 15);      // "_page" against "_system"
    }
  }

  /** The same prefix in front of two strings keeps them apart or together. */
  lemma PrefixCancels(p: string, x: string, y: string)
    ensures p + x == p + y <==> x == y
  {
    if p + x == p + y {
      assert x == (p + x)[|p|..];
      assert y == (p + y)[|p|..];
    }
  }

  /** The same suffix after two strings keeps them apart or together. */
  lemma SuffixCancels(x: string, y: string, s: string)
    ensures x + s == y + s <==> x == y
  {
    if x + s == y + s {
      assert |x| == |y|;
      assert x == (x + s)[..|x|];
      assert y == (y + s)[..|y|];
    }
  }

  /** A relative artifact path is a fixed prefix, the hash and the suffix. */
  lemma RelativeFilePathShape(baseName: string, hash: string, kind: ArtifactKind)
    ensures RelativeFilePath(baseName, hash, kind)
         == (ResourceDir(baseName) + "/example_") + (hash + Suffix(kind))
  {
  }

  /** The relative artifact path written as one concatenation. */
  lemma RelativeFilePathSpelledOut(baseName: string, hash: string, kind: ArtifactKind)
    ensures RelativeFilePath(baseName, hash, kind)
         == "resources/" + baseName + "/example_" + hash + Suffix(kind)
  {
    assert "/" + "example_" == "/example_";
  }

  /** A relative artifact path determines the example hash and the kind of
      artifact it was built from, and is determined by them. */
  lemma RelativeFilePathInjective(baseName: string, h1: string, k1: ArtifactKind, h2: string, k2: ArtifactKind)
    ensures RelativeFilePath(baseName, h1, k1) == RelativeFilePath(baseName, h2, k2)
        <==> h1 == h2 && k1 == k2
  {
    RelativeFilePathShape(baseName, h1, k1);
    RelativeFilePathShape(baseName, h2, k2);
    PrefixCancels(ResourceDir(baseName) + "/example_", h1 + Suffix(k1), h2 + Suffix(k2));
    if k1 != k2 {
      ArtifactNamesDetermineKind(h1, k1, h2, k2);
    } else {
      SuffixCancels(h1, h2, Suffix(k1));
    }
  }

  /** The page screenshot and the system screenshot of one example are stored in
      different files. */
  lemma PageAndSystemScreenshotsDiffer(baseName: string, hash: string)
    ensures RelativeFilePath(baseName, hash, PageScreenshot)
         != RelativeFilePath(baseName, hash, SystemScreenshot)
  {
    RelativeFilePathInjective(baseName, hash, PageScreenshot, hash, SystemScreenshot);
  }

  /** With a collision-free digest, artifacts of examples at different locations
      never share a file. */
  lemma DistinctExamplesGetDistinctFiles(digest: string -> string, baseName: string,
                                         e1: Example, k1: ArtifactKind, e2: Example, k2: ArtifactKind)
    requires Injective(digest) && e1.location != e2.location
    ensures RelativeFilePath(baseName, ExampleHash(digest, e1), k1)
         != RelativeFilePath(baseName, ExampleHash(digest, e2), k2)
  {
    ExampleHashDistinct(digest, e1, e2);
    RelativeFilePathInjective(baseName, ExampleHash(digest, e1), k1, ExampleHash(digest, e2), k2);
  }

  /** An artifact's file name is a single path segment when its hash is. */
  lemma ArtifactNameIsSegment(hash: string, kind: ArtifactKind)
    requires '/' !in hash
    ensures '/' !in ArtifactName(hash, kind)
  {
    assert '/' !in "example_";
    assert '/' !in Suffix(kind);
  }

  /** Every artifact path lies directly in the report's resource directory and is
      named `example_<hash><suffix>`, provided the hash is a single path segment. */
  lemma RelativeFilePathSplits(baseName: string, hash: string, kind: ArtifactKind)
    requires '/' !in hash
    ensures Dirname(RelativeFilePath(baseName, hash, kind)) == ResourceDir(baseName)
    ensures Basename(RelativeFilePath(baseName, hash, kind)) == ArtifactName(hash, kind)
  {
    ArtifactNameIsSegment(hash, kind);
    assert RelativeFilePath(baseName, hash, kind) == ResourceDir(baseName) + ['/'] + ArtifactName(hash, kind);
    LastIndexOfBefore(ResourceDir(baseName), '/', ArtifactName(hash, kind));
  }

  // ---------------------------------------------------------------------------
  // file_path

  /** The directory `file_path` makes sure of for an artifact is the report's
      resource directory under the base report directory: all the artifacts of a
      report share it. */
  lemma ArtifactDirectory(baseDir: string, baseName: string, hash: string, kind: ArtifactKind)
    requires '/' !in hash
    ensures Dirname(Join(baseDir, RelativeFilePath(baseName, hash, kind)))
         == Join(baseDir, ResourceDir(baseName))
  {
    ArtifactNameIsSegment(hash, kind);
    DirnameOfNestedJoin(baseDir, ResourceDir(baseName), ArtifactName(hash, kind));
  }

  /** The strategy for one report: the report location, the working directory
      it is resolved against and the digest are fixed at construction, and so
      are the base report directory and the report's base name derived from
      them. The filesystem is global state that `FilePath` extends, passed to
      each operation that touches it. */
  class FilePathStrategy {
    const reportLocation: string
    const cwd: string
    const digest: string -> string
    const baseReportDir: string
    const reportBaseName: string

    ghost predicate Valid() {
      FileNameSafe(digest)
    }

    constructor (reportLocation: string, cwd: string, digest: string -> string)
      requires IsDir(cwd) && FileNameSafe(digest)
      ensures Valid()
      ensures this.reportLocation == reportLocation && this.cwd == cwd && this.digest == digest
      ensures baseReportDir == BaseReportDir(cwd, reportLocation)
      ensures reportBaseName == ReportBaseName(reportLocation)
      ensures '/' !in reportBaseName
    {
      ReportBaseNameIsSegment(reportLocation);
      this.reportLocation := reportLocation;
      this.cwd := cwd;
      this.digest := digest;
      this.baseReportDir := BaseReportDir(cwd, reportLocation);
      this.reportBaseName := ReportBaseName(reportLocation);
    }

    /** `relative_file_path_for_html_capture(example)`. */
    function RelativeFilePathForHtmlCapture(example: Example): (r: string)
      ensures r == "resources/" + reportBaseName + "/example_" + ExampleHash(digest, example) + ".html"
    {
      RelativeFilePathSpelledOut(reportBaseName, ExampleHash(digest, example), HtmlCapture);
      RelativeFilePath(reportBaseName, ExampleHash(digest, example), HtmlCapture)
    }

    /** `relative_file_path_for_system_screenshot(example)`. */
    function RelativeFilePathForSystemScreenshot(example: Example): (r: string)
      ensures r == "resources/" + reportBaseName + "/example_" + ExampleHash(digest, example) + "_system_screenshot.png"
    {
      RelativeFilePathSpelledOut(reportBaseName, ExampleHash(digest, example), SystemScreenshot);
      RelativeFilePath(reportBaseName, ExampleHash(digest, example), SystemScreenshot)
    }

    /** `relative_file_path_for_page_screenshot(example)`. */
    function RelativeFilePathForPageScreenshot(example: Example): (r: string)
      ensures r == "resources/" + reportBaseName + "/example_" + ExampleHash(digest, example) + "_page_screenshot.png"
    {
      RelativeFilePathSpelledOut(reportBaseName, ExampleHash(digest, example), PageScreenshot);
      RelativeFilePath(reportBaseName, ExampleHash(digest, example), PageScreenshot)
    }

    /** `relative_file_path_for_remote_control_logs(example)`. */
    function RelativeFilePathForRemoteControlLogs(example: Example): (r: string)
      ensures r == "resources/" + reportBaseName + "/example_" + ExampleHash(digest, example) + "_remote_control.log"
    {
      RelativeFilePathSpelledOut(reportBaseName, ExampleHash(digest, example), RemoteControlLogs);
      RelativeFilePath(reportBaseName, ExampleHash(digest, example), RemoteControlLogs)
    }

    /** `file_path(relative)`: the relative path under the base report
        directory; its directory is created, with its ancestors, when it does not
        exist, and the filesystem is left alone when it does. */
    method FilePath(fs: FileSystem, relative: string) returns (path: string)
      requires fs.Valid()
      modifies fs
      ensures fs.Valid()
      ensures path == Join(baseReportDir, relative)
      ensures fs.dirs == Materialize(old(fs.dirs), Dirname(path))
      ensures Exists(fs.dirs, Dirname(path))
    {
      path := Join(baseReportDir, relative);
      var dir := Dirname(path);
      var present := fs.IsDirectory(dir);
      if !present {
        fs.MkdirP(dir);
      }
      MaterializeSpec(old(fs.dirs), dir);
    }

    /** `file_path_for_<kind>(example)`: `file_path` of the relative artifact
        path; the directory made sure of is the report's resource directory,
        the same for every example and kind. */
    method FilePathFor(fs: FileSystem, kind: ArtifactKind, example: Example) returns (path: string)
      requires Valid() && fs.Valid()
      modifies fs
      ensures fs.Valid()
      ensures path == Join(baseReportDir, RelativeFilePath(reportBaseName, ExampleHash(digest, example), kind))
      ensures fs.dirs == Materialize(old(fs.dirs), Join(baseReportDir, ResourceDir(reportBaseName)))
    {
      var hash := ExampleHash(digest, example);
      ExampleHashIsSegment(digest, example);
      path := FilePath(fs, RelativeFilePath(reportBaseName, hash, kind));
      ArtifactDirectory(baseReportDir, reportBaseName, hash, kind);
    }

    /** `file_path_for_html_capture`. */
    method FilePathForHtmlCapture(fs: FileSystem, example: Example) returns (path: string)
      requires Valid() && fs.Valid()
      modifies fs
      ensures fs.Valid()
      ensures path == Join(baseReportDir, RelativeFilePathForHtmlCapture(example))
      ensures fs.dirs == Materialize(old(fs.dirs), Join(baseReportDir, ResourceDir(reportBaseName)))
    {
      path := FilePathFor(fs, HtmlCapture, example);
    }

    /** `file_path_for_system_screenshot`. */
    method FilePathForSystemScreenshot(fs: FileSystem, example: Example) returns (path: string)
      requires Valid() && fs.Valid()
      modifies fs
      ensures fs.Valid()
      ensures path == Join(baseReportDir, RelativeFilePathForSystemScreenshot(example))
      ensures fs.dirs == Materialize(old(fs.dirs), Join(baseReportDir, ResourceDir(reportBaseName)))
    {
      path := FilePathFor(fs, SystemScreenshot, example);
    }

    /** `file_path_for_page_screenshot`. */
    method FilePathForPageScreenshot(fs: FileSystem, example: Example) returns (path: string)
      requires Valid() && fs.Valid()
      modifies fs
      ensures fs.Valid()
      ensures path == Join(baseReportDir, RelativeFilePathForPageScreenshot(example))
      ensures fs.dirs == Materialize(old(fs.dirs), Join(baseReportDir, ResourceDir(reportBaseName)))
    {
      path := FilePathFor(fs, PageScreenshot, example);
    }

    /** `file_path_for_remote_control_logs`. */
    method FilePathForRemoteControlLogs(fs: FileSystem, example: Example) returns (path: string)
      requires Valid() && fs.Valid()
      modifies fs
      ensures fs.Valid()
      ensures path == Join(baseReportDir, RelativeFilePathForRemoteControlLogs(example))
      ensures fs.dirs == Materialize(old(fs.dirs), Join(baseReportDir, ResourceDir(reportBaseName)))
    {
      path := FilePathFor(fs, RemoteControlLogs, example);
    }
  }
}
