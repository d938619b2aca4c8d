# FilePathStrategy — a Dafny model

`Selenium::RSpec::Reporting::FilePathStrategy` decides where the artifacts captured for
one test example are stored. There are four artifacts: the HTML snapshot, the system
screenshot, the page screenshot and the remote control log. The strategy is built from
the location of the final HTML report and provides:

- `base_report_dir`: the directory that holds the report;
- `example_hash`: a digest of the example's `location` (`"<source path>:<line>"`);
- four `relative_file_path_for_*` builders: `resources/<report base name>/example_<hash><suffix>`;
- `file_path(relative)`: the relative path under `base_report_dir`, with its directory
  created (`FileUtils.mkdir_p`) when `File.directory?` says it is missing;
- four `file_path_for_*` wrappers: `file_path` of the matching relative path.

The model is built from the behaviour fixed by
`test/unit/selenium/rspec/reporting/file_path_strategy_test.rb`. The implementation file
is not part of this model. It has four modules:

- `Paths` (`paths.dfy`) models the parts of `File.dirname`, `File.basename`,
  `File.basename(p, ".*")`, `File.join` and `File.expand_path` that the strategy relies on.
  They work on normalised paths separated by '/'.
- `Directories` (`directories.dfy`) models the filesystem as the set of existing
  directories in a `FileSystem` object. Its invariant is that the set is ancestor-closed.
  `IsDirectory` models `File.directory?` and `MkdirP` models `FileUtils.mkdir_p`, which
  updates the set in place.
- `Reporting` (`strategy.dfy`) holds the pure builders and the class `FilePathStrategy`.
  - The class's constants are the report location, the working directory, the digest,
    and the base report directory and report base name derived from them.
  - Its methods `FilePath` and `FilePathFor*` change the filesystem they are given.
  - The lemmas next to the builders state the naming scheme's guarantees. A relative path
    determines its hash and kind. Distinct examples never share a file. Every artifact of
    a report lies in one resource directory.
- `FilePathStrategyTests` (`strategy_tests.dfy`) states each test case for every input of
  the case's shape, not only for its literal. A stubbed `example_hash` becomes a digest or
  hash parameter. A stubbed `base_report_dir` becomes a report placed in that directory. A
  stubbed `File.directory?` becomes a filesystem with or without the directory.

All cited source paths are relative to the repository root.

## Model

| member | source | states |
|---|---|---|
| Paths.JoinSplits | test/unit/selenium/rspec/reporting/file_path_strategy_test.rb:5-8 | `File.dirname` and `File.basename` of `dir/name` give back `dir` and `name` (this is `/some/dir/a_final_report.html` → `/some/dir`), for any directory and any single-segment name |
| Paths.ExpandPathIdempotent | test/unit/selenium/rspec/reporting/file_path_strategy_test.rb:7 | an absolute path expands to itself, so `File.expand_path("/some/dir")` is `/some/dir`; expanding an already expanded path changes nothing |
| Paths.DirnameOfNestedJoin | test/unit/selenium/rspec/reporting/file_path_strategy_test.rb:77-84 | the directory of `dir/a/b` is `dir/a` and its base name is `b` when `b` has no separator (`/base/report/dir/relative/path/file.html` → `/base/report/dir/relative/path`) |
| Paths.StripExtensionOf | test/unit/selenium/rspec/reporting/file_path_strategy_test.rb:41-46 | removing the extension of `stem.ext`, where `ext` has no dot, gives exactly `stem` |
| Paths.BasenameWithoutExtensionOf | test/unit/selenium/rspec/reporting/file_path_strategy_test.rb:41-46 | `File.basename("stem.ext", ".*")` is `stem` (`a_report.html` → `a_report`) |
| Paths.BasenameWithoutExtensionOfJoin | test/unit/selenium/rspec/reporting/file_path_strategy_test.rb:41-46 | the directory a report is in does not change its base name without extension |
| Paths.StripExtension | test/unit/selenium/rspec/reporting/file_path_strategy_test.rb:41-46 | removing an extension either leaves the name unchanged or keeps a non-empty proper prefix of it that a dot follows, so what is removed is a tail starting at a dot |
| Directories.AncestorsTransitive | test/unit/selenium/rspec/reporting/file_path_strategy_test.rb:82 | an ancestor of an ancestor of a path is an ancestor of that path (the chain `mkdir_p` creates) |
| Directories.MkdirAllKeepsClosed | test/unit/selenium/rspec/reporting/file_path_strategy_test.rb:82 | `mkdir_p` keeps the set of directories ancestor-closed |
| Directories.MkdirAllOfExisting | test/unit/selenium/rspec/reporting/file_path_strategy_test.rb:86-93 | on an ancestor-closed filesystem, `mkdir_p` of an existing directory (the root included) creates nothing |
| Directories.MaterializeSpec | test/unit/selenium/rspec/reporting/file_path_strategy_test.rb:77-93 | after making sure of a directory: it exists (the root always does), nothing is lost, the set stays ancestor-closed, the set is unchanged exactly when the directory already existed, and every addition is the directory or one of its ancestors |
| Directories.MaterializeIdempotent | test/unit/selenium/rspec/reporting/file_path_strategy_test.rb:77-93 | making sure of a directory twice leaves the same filesystem as once |
| Directories.FileSystem.IsDirectory | test/unit/selenium/rspec/reporting/file_path_strategy_test.rb:80 | `File.directory?(p)` holds exactly when `p` is the root or is among the recorded directories; for any other path, exactly when it is recorded |
| Directories.FileSystem.MkdirP | test/unit/selenium/rspec/reporting/file_path_strategy_test.rb:82 | `mkdir_p(p)` adds `p` and its ancestors (nothing for the root, which exists) and keeps the filesystem ancestor-closed |
| Reporting.BaseReportDirIsParent | test/unit/selenium/rspec/reporting/file_path_strategy_test.rb:5-8 | the base report directory of `dir/name` is `dir`; for a bare `name` it is the working directory. The title at line 5 speaks of `resource/<name of the report>`, but the assertion at line 7 expects the report's directory, which the model follows |
| Reporting.BaseReportDirDistinct | test/unit/selenium/rspec/reporting/file_path_strategy_test.rb:10-15 | reports in two directories get equal base report directories exactly when the directories are equal. The title at line 10 says the directory differs when only the report name changes, but the assertions at lines 13-14 change the directory; the model follows the assertions, so two report names in one directory share a base report directory |
| Reporting.ReportBaseNameIsSegment | test/unit/selenium/rspec/reporting/file_path_strategy_test.rb:41-46 | the report base name never contains a separator, whatever the report location, so `resources/<base name>` is one directory deep |
| Reporting.ReportBaseNameOfReportIn | test/unit/selenium/rspec/reporting/file_path_strategy_test.rb:41-46 | the report base name of `dir/stem.ext` is `stem`, wherever the report is |
| Reporting.ExampleHashDeterministic | test/unit/selenium/rspec/reporting/file_path_strategy_test.rb:29-39 | examples with the same location get the same hash |
| Reporting.ExampleHashDistinct | test/unit/selenium/rspec/reporting/file_path_strategy_test.rb:17-27 | with a collision-free digest, two examples' hashes are equal exactly when their locations are |
| Reporting.ArtifactNamesDetermineKind | test/unit/selenium/rspec/reporting/file_path_strategy_test.rb:41-67 | no two hashes can make the file names of two different kinds of artifact equal, because the four suffixes end differently |
| Reporting.RelativeFilePathSpelledOut | test/unit/selenium/rspec/reporting/file_path_strategy_test.rb:41-67 | the relative path of an artifact is `resources/<base name>/example_<hash><suffix>` |
| Reporting.RelativeFilePathInjective | test/unit/selenium/rspec/reporting/file_path_strategy_test.rb:41-67 | two relative paths for one report are equal exactly when both the hash and the kind are equal |
| Reporting.PageAndSystemScreenshotsDiffer | test/unit/selenium/rspec/reporting/file_path_strategy_test.rb:113-119 | an example's page screenshot and system screenshot are stored in different files |
| Reporting.DistinctExamplesGetDistinctFiles | test/unit/selenium/rspec/reporting/file_path_strategy_test.rb:17-27 | with a collision-free digest, the artifacts of examples at different locations never share a file, whatever their kinds |
| Reporting.RelativeFilePathSplits | test/unit/selenium/rspec/reporting/file_path_strategy_test.rb:41-67 | every relative artifact path has the directory `resources/<base name>` and the file name `example_<hash><suffix>` |
| Reporting.ArtifactDirectory | test/unit/selenium/rspec/reporting/file_path_strategy_test.rb:95-129 | the directory that `file_path` makes sure of for any artifact is `<base report dir>/resources/<base name>`, the same for every example and kind |
| Reporting.FilePathStrategy.constructor | test/unit/selenium/rspec/reporting/file_path_strategy_test.rb:6 | the strategy keeps the report location and fixes `base_report_dir` as the directory of the expanded location and the report base name as its file name without extension |
| Reporting.ExampleHashIsSegment | test/unit/selenium/rspec/reporting/file_path_strategy_test.rb:17-39 | with a digest that is safe in file names, `example_hash` never contains a path separator |
| Reporting.FilePathStrategy.RelativeFilePathForHtmlCapture | test/unit/selenium/rspec/reporting/file_path_strategy_test.rb:41-46 | the result is `resources/<report base name>/example_<example_hash(e)>.html` |
| Reporting.FilePathStrategy.RelativeFilePathForSystemScreenshot | test/unit/selenium/rspec/reporting/file_path_strategy_test.rb:48-53 | the result is `resources/<report base name>/example_<example_hash(e)>_system_screenshot.png` |
| Reporting.FilePathStrategy.RelativeFilePathForPageScreenshot | test/unit/selenium/rspec/reporting/file_path_strategy_test.rb:113-119 | the result is `resources/<report base name>/example_<example_hash(e)>_page_screenshot.png` |
| Reporting.FilePathStrategy.RelativeFilePathForRemoteControlLogs | test/unit/selenium/rspec/reporting/file_path_strategy_test.rb:62-67 | the result is `resources/<report base name>/example_<example_hash(e)>_remote_control.log` |
| Reporting.FilePathStrategy.FilePath | test/unit/selenium/rspec/reporting/file_path_strategy_test.rb:69-93 | the result is `base_report_dir` joined with the relative path; its directory exists afterwards; the filesystem changes only when the directory was missing (never for the root), and then by `mkdir_p` of that directory; the digest is not needed |
| Reporting.FilePathStrategy.FilePathFor | test/unit/selenium/rspec/reporting/file_path_strategy_test.rb:95-129 | `file_path_for_<kind>(e)` is `file_path` of the kind's relative path; the directory made sure of is the report's resource directory |
| Reporting.FilePathStrategy.FilePathForHtmlCapture | test/unit/selenium/rspec/reporting/file_path_strategy_test.rb:95-102 | the result is `file_path(relative_file_path_for_html_capture(e))` |
| Reporting.FilePathStrategy.FilePathForSystemScreenshot | test/unit/selenium/rspec/reporting/file_path_strategy_test.rb:104-111 | the result is `file_path(relative_file_path_for_system_screenshot(e))` |
| Reporting.FilePathStrategy.FilePathForPageScreenshot | test/unit/selenium/rspec/reporting/file_path_strategy_test.rb:113-120 | the result is `file_path(relative_file_path_for_page_screenshot(e))` |
| Reporting.FilePathStrategy.FilePathForRemoteControlLogs | test/unit/selenium/rspec/reporting/file_path_strategy_test.rb:122-129 | the result is `file_path(relative_file_path_for_remote_control_logs(e))` |
| FilePathStrategyTests.ReportBaseNameOfHtml | test/unit/selenium/rspec/reporting/file_path_strategy_test.rb:41-46 | the report base name of `<stem>.html` is `<stem>` |
| FilePathStrategyTests.ExampleHashDistinctCase | test/unit/selenium/rspec/reporting/file_path_strategy_test.rb:17-27 | the locations `./blah/blah:6` and `./blah/blah:21` get different hashes under a collision-free digest |
| FilePathStrategyTests.RelativeFilePathOfReport | test/unit/selenium/rspec/reporting/file_path_strategy_test.rb:41-67 | for the report `<stem>.html` and the hash `hash`, the artifact of each kind is at `resources/<stem>/example_<hash><suffix>` |
| FilePathStrategyTests.PageScreenshotCaseAsWritten | test/unit/selenium/rspec/reporting/file_path_strategy_test.rb:55-60 | the path that the page-screenshot case asserts is not the page screenshot's relative path |
| FilePathStrategyTests.PageScreenshotCaseCorrected | test/unit/selenium/rspec/reporting/file_path_strategy_test.rb:55-60 | the page screenshot's relative path is `resources/<stem>/example_<hash>_page_screenshot.png` |
| FilePathStrategyTests.FilePathCreatesMissingDirectory | test/unit/selenium/rspec/reporting/file_path_strategy_test.rb:69-84 | for a report in `dir` and the relative path `a/b`, `file_path` returns `dir/a/b` and, on an empty filesystem, creates exactly what `mkdir_p(dir/a)` creates: `dir/a` and its ancestors |
| FilePathStrategyTests.FilePathKeepsExistingDirectory | test/unit/selenium/rspec/reporting/file_path_strategy_test.rb:86-93 | when `dir/a` already exists, `file_path("a/b")` returns `dir/a/b` and creates no directory |
| FilePathStrategyTests.ReportInWorkingDirectory | test/unit/selenium/rspec/reporting/file_path_strategy_test.rb:41-46 | a report `<stem>.html` given without a directory is in the working directory and has the base name `<stem>` |
| FilePathStrategyTests.FilePathForCase | test/unit/selenium/rspec/reporting/file_path_strategy_test.rb:95-129 | for the report `<stem>.html` in the working directory and an example hashed to `hash`, `file_path_for_<kind>` resolves `resources/<stem>/example_<hash><suffix>` under the working directory |

## Left out

- The digest behind `example_hash` is a parameter of the strategy, a deterministic function of the location. The algorithm is not visible and is not modelled.
- Reporting.ExampleHashDistinct: stated only for a collision-free (`Injective`) digest. The test at lines 17-27 relies on the real hash algorithm, which cannot be proved collision-free.
- Reporting.DistinctExamplesGetDistinctFiles: stated only for a collision-free (`Injective`) digest, for the same reason; with a real hash, two locations that collide share their files.
- FilePathStrategyTests.ExampleHashDistinctCase: stated only for a collision-free (`Injective`) digest, for the same reason; the two literal locations are not shown to differ under the real hash.
- Reporting.ExampleHashIsSegment: the strategy assumes that no hash contains '/' (`FileNameSafe`), as holds for a hexadecimal digest. Without that, an artifact's directory would not be the resource directory.
- `File.expand_path` is modelled without `.`, `..` or `~` normalisation. The process working directory is a constructor parameter, not global state.
- Paths.StripExtension: the extension starts at the last dot unless that dot is the name's first character. Names that begin with several dots (such as `..a`) are not modelled as every Ruby version treats them; report names of that kind are out of scope.
- `File.dirname`, `File.basename` and `File.join` are modelled only on normalised paths. That means no trailing or doubled separators, and `File.join` does not collapse a leading '/' of its second argument.
- Filesystem I/O is modelled by the `FileSystem` object and its set of directories. Permissions, I/O errors, files that are not directories, and symbolic links are not modelled. The root directory always exists, and `mkdir_p` never adds it to the set.
- Reporting.FilePathStrategy.FilePath: when the directory is missing, `mkdir_p` also records its missing ancestors, as `FileUtils.mkdir_p` does; `Directories.MaterializeSpec` limits the additions to the directory and its ancestors.
- Reporting.FilePathStrategy.constructor: an empty report location is accepted, and the strategy then works with the working directory's parent and an empty report base name. An InvalidArgument error for an empty location is not modelled, because no case of the test reaches it.
- Reporting.FilePathStrategy.FilePath: the path is `File.join(base_report_dir, relative)`. For a report in the root directory this gives `/relative`, not the `//relative` that a plain `base_report_dir + "/" + relative` would give; no test case fixes the root case.
- The filesystem is passed to `FilePath` and the `FilePathFor*` methods rather than held by the strategy. In Ruby it is global state shared by every strategy.
- FilePathStrategyTests.FilePathForCase: the cases at lines 95-129 stub `file_path` to check the argument it receives. The model states that argument and the path `file_path` makes of it, not the stubbed return value.
- Mocha's stubbing and expectation mechanics and the helper `require` at line 1 are test plumbing. Each stub is modelled by choosing the input it fixes.
- Concurrent "create if missing" races are not modelled. Every operation is sequential.

## Findings

| source | as written | input that shows it | evidently intended | confidence | as-written member | corrected member |
|---|---|---|---|---|---|---|
| test/unit/selenium/rspec/reporting/file_path_strategy_test.rb:55-60 | the case titled `relative_file_path_for_page_screenshot` calls `relative_file_path_for_system_screenshot` and asserts `..._system_screenshot.png`, so it repeats the system-screenshot case and never checks the page screenshot | report `the_report.html` with hash `the_hash`: the page screenshot is at `resources/the_report/example_the_hash_page_screenshot.png`, not the asserted path | call `relative_file_path_for_page_screenshot` and expect `resources/the_report/example_the_hash_page_screenshot.png`, matching the suffix fixed at line 117 | not executed | FilePathStrategyTests.PageScreenshotCaseAsWritten | FilePathStrategyTests.PageScreenshotCaseCorrected |
