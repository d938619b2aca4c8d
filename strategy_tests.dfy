/** The cases of `file_path_strategy_test.rb`, stated about the model for every
    report name, directory and relative path of the shape each case uses rather
    than for its one literal. Where a case stubs `example_hash`, the digest is
    the constant function returning the stubbed hash; where it stubs
    `base_report_dir`, the report is placed in that directory; where it stubs
    `File.directory?`, the filesystem starts with or without the directory. */
module FilePathStrategyTests {
  import opened Paths
  import opened Directories
  import opened Reporting

  /** The base name of `<stem>.html` is `<stem>`. */
  lemma ReportBaseNameOfHtml(stem: string)
    requires IsName(stem)
    ensures ReportBaseName(stem + ".html") == stem
  {
    assert stem + ".html" == stem + "." + "html";
    BasenameWithoutExtensionOf(stem, "html");
  }

  /** "example_hash is distinct when examples implementation is different",
      for a collision-free digest. */
  lemma ExampleHashDistinctCase(digest: string -> string)
    requires Injective(digest)
    ensures ExampleHash(digest, Example("./blah/blah:6")) != ExampleHash(digest, Example("./blah/blah:21"))
  {
    ExampleHashDistinct(digest, Example("./blah/blah:6"), Example("./blah/blah:21"));
  }

  /** The "relative_file_path_for_*" cases: for the report `<stem>.html` the
      artifact of an example whose hash is `hash` is
      `resources/<stem>/example_<hash><suffix>`. */
  lemma RelativeFilePathOfReport(stem: string, hash: string, kind: ArtifactKind)
    requires IsName(stem)
    ensures RelativeFilePath(ReportBaseName(stem + ".html"), hash, kind)
         == "resources/" + stem + "/example_" + hash + Suffix(kind)
  {
    ReportBaseNameOfHtml(stem);
    RelativeFilePathSpelledOut(stem, hash, kind);
  }

  /** The case titled "relative_file_path_for_page_screenshot", as written: the
      path it asserts is the system screenshot's, and no page screenshot is
      stored there, so the case says nothing about page screenshots. */
  lemma PageScreenshotCaseAsWritten(stem: string, hash: string)
    requires IsName(stem)
    ensures RelativeFilePath(ReportBaseName(stem + ".html"), hash, PageScreenshot)
         != "resources/" + stem + "/example_" + hash + "_system_screenshot.png"
  {
    RelativeFilePathOfReport(stem, hash, SystemScreenshot);
    PageAndSystemScreenshotsDiffer(ReportBaseName(stem + ".html"), hash);
  }

  /** The same case as evidently intended: the page screenshot's relative path,
      with the suffix the "file_path_for_page_screenshot" case fixes. */
  lemma PageScreenshotCaseCorrected(stem: string, hash: string)
    requires IsName(stem)
    ensures RelativeFilePath(ReportBaseName(stem + ".html"), hash, PageScreenshot)
         == "resources/" + stem + "/example_" + hash + "_page_screenshot.png"
  {
    RelativeFilePathOfReport(stem, hash, PageScreenshot);
  }

  /** A filesystem that already holds `dir` and its ancestors. */
  method FileSystemWith(dir: string) returns (fs: FileSystem)
    ensures fresh(fs) && fs.Valid() && Exists(fs.dirs, dir)
  {
    MkdirAllKeepsClosed({}, dir);
    fs := new FileSystem(MkdirAll({}, dir));
  }

  /** "file_path concatenate the base_report_dir and the relative path" and
      "file_path create the base_report_dir directory if it does not exists":
      for a report in `dir` and the relative path `a/b`, the path is `dir/a/b`
      and, on a filesystem without directories, `dir/a` is created. */
  method FilePathCreatesMissingDirectory(dir: string, report: string, a: string, b: string)
    returns (path: string, created: set<string>)
    requires IsDir(dir) && IsName(report) && a != "" && IsName(b)
    ensures path == Join(dir, a + "/" + b)
    ensures created == MkdirAll({}, Join(dir, a))
  {
    var fs := new FileSystem({});
    var strategy := new FilePathStrategy(Join(dir, report), dir, s => "the_hash");
    BaseReportDirIsParent(dir, dir, report);
    path := strategy.FilePath(fs, a + "/" + b);
    DirnameOfNestedJoin(dir, a, b);
    created := fs.dirs;
  }

  /** "file_path does not create the base_report_dir directory if it does
      exists": when `dir/a` is present, the filesystem is left as it was. */
  method FilePathKeepsExistingDirectory(dir: string, report: string, a: string, b: string)
    returns (path: string, created: set<string>)
    requires IsDir(dir) && IsName(report) && a != "" && IsName(b)
    ensures path == Join(dir, a + "/" + b)
    ensures created == {}
  {
    var fs := FileSystemWith(Join(dir, a));
    var before := fs.dirs;
    var strategy := new FilePathStrategy(Join(dir, report), dir, s => "the_hash");
    BaseReportDirIsParent(dir, dir, report);
    path := strategy.FilePath(fs, a + "/" + b);
    DirnameOfNestedJoin(dir, a, b);
    created := fs.dirs - before;
  }

  /** The report `<stem>.html`, given without a directory, is in the working
      directory and has the base name `<stem>`. */
  lemma ReportInWorkingDirectory(cwd: string, stem: string)
    requires IsDir(cwd) && IsName(stem)
    ensures BaseReportDir(cwd, stem + ".html") == cwd
    ensures ReportBaseName(stem + ".html") == stem
  {
    assert '/' !in ".html";
    BaseReportDirIsParent(cwd, "/", stem + ".html");
    ReportBaseNameOfHtml(stem);
  }

  /** The "file_path_for_*" cases: with `example_hash` stubbed to `hash`, the
      wrapper of each kind asks `file_path` for
      `resources/<stem>/example_<hash><suffix>`, which for the report
      `<stem>.html` in the working directory `cwd` is that path under `cwd`. */
  lemma FilePathForCase(cwd: string, stem: string, hash: string, kind: ArtifactKind)
    requires IsDir(cwd) && IsName(stem)
    ensures Join(BaseReportDir(cwd, stem + ".html"), RelativeFilePath(ReportBaseName(stem + ".html"), hash, kind))
         == Join(cwd, "resources/" + stem + "/example_" + hash + Suffix(kind))
  {
    ReportInWorkingDirectory(cwd, stem);
    RelativeFilePathSpelledOut(stem, hash, kind);
  }
}
