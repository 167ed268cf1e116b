/**
 * The `run-tests` tool: it materialises a throw-away Gradle project in a
 * fresh temporary directory, runs `gradle test` there, maps the process
 * outcome to a `TestResult`, deletes the directory, and returns the result
 * with the inputs it was called with copied into it.
 *
 * The file system is a set of directories and a map from path to file
 * content; a path is the list of its components. The external process is a
 * function from the command, the working directory and the files it can see
 * to an outcome, and the `GRADLE_HOME` lookup is an optional value.
 */
module TestRunnerToolSet {
  import opened Nullable
  import opened ApiChangeEntry

  type Path = seq<string>

  /** `p` is `dir` itself or lies below it. */
  predicate Under(p: Path, dir: Path)
  {
    |dir| <= |p| && p[..|dir|] == dir
  }

  /** `d` and every directory above it, as `Files.createDirectories` creates them. */
  function Ancestors(d: Path): (r: set<Path>)
  {
    set k | 1 <= k <= |d| :: d[..k]
  }

  /** File system state: the directories that exist and the content of each file. */
  class FileSystem {
    var dirs: set<Path>
    var files: map<Path, string>

    constructor (dirs: set<Path>, files: map<Path, string>)
      ensures this.dirs == dirs && this.files == files
    {
      this.dirs := dirs;
      this.files := files;
    }

    /** Nothing exists at or below `d`. */
    predicate Absent(d: Path)
      reads this
    {
      (forall q :: q in dirs ==> !Under(q, d)) &&
      (forall p :: p in files ==> !Under(p, d))
    }

    /**
     * `Files.createTempDirectory`: the operating system picks a name nothing
     * uses yet inside the temporary-files directory, which exists; here the
     * caller supplies that name.
     */
    method CreateTempDirectory(d: Path)
      requires |d| > 0 && Absent(d) && Ancestors(d[..|d| - 1]) <= dirs
      modifies this
      ensures dirs == old(dirs) + {d} && files == old(files)
    {
      dirs := dirs + {d};
    }

    /** `Files.createDirectories`: creates `d` and any missing parent. */
    method CreateDirectories(d: Path)
      modifies this
      ensures dirs == old(dirs) + Ancestors(d) && files == old(files)
    {
      dirs := dirs + Ancestors(d);
    }

    /** `Path.writeText`: the parent directory must exist; the file is created or replaced. */
    method WriteText(p: Path, content: string)
      requires |p| > 0 && p[..|p| - 1] in dirs
      modifies this
      ensures files == old(files)[p := content] && dirs == old(dirs)
    {
      files := files[p := content];
    }

    /** `File.deleteRecursively`: removes `d` and everything below it. */
    method DeleteRecursively(d: Path)
      modifies this
      ensures dirs == set q | q in old(dirs) && !Under(q, d)
      ensures files == map p | p in old(files) && !Under(p, d) :: old(files)[p]
    {
      dirs := set q | q in dirs && !Under(q, d);
      files := map p | p in files && !Under(p, d) :: files[p];
    }
  }

  // The fixed project layout, relative to the project directory.
  const MainSourceDir: Path := ["src", "main", "java"]
  const TestSourceDir: Path := ["src", "test", "java"]
  const SourceFile: Path := MainSourceDir + ["ExampleSpringService.java"]
  const TestFile: Path := TestSourceDir + ["ExampleSpringServiceTest.java"]
  const BuildFile: Path := ["build.gradle"]

  /** The three files `runTests` writes into `dir`, each with the content it receives. */
  function Layout(dir: Path, sourceCode: string, testProgram: string, gradleBuild: string): map<Path, string>
  {
    map[dir + SourceFile := sourceCode, dir + TestFile := testProgram, dir + BuildFile := gradleBuild]
  }

  /**
   * In the project the build sees, the main source holds the generated code,
   * the test source holds the test program and `build.gradle` holds the build
   * description: the three paths are distinct, so no write overrides another.
   */
  lemma LayoutContents(files: map<Path, string>, dir: Path, sourceCode: string, testProgram: string, gradleBuild: string)
    ensures var project := files + Layout(dir, sourceCode, testProgram, gradleBuild);
      project[dir + SourceFile] == sourceCode &&
      project[dir + TestFile] == testProgram &&
      project[dir + BuildFile] == gradleBuild
  {
    assert (dir + SourceFile)[|dir| + 1] == "main" != "test" == (dir + TestFile)[|dir| + 1];
    assert |dir + BuildFile| != |dir + SourceFile| && |dir + BuildFile| != |dir + TestFile|;
  }

  /**
   * Creating directories inside `dir` adds only `dir`'s own ancestors and
   * directories at or below `dir`.
   */
  lemma AncestorsBelow(dir: Path, rel: Path)
    requires |dir| > 0
    ensures forall q :: q in Ancestors(dir + rel) ==> q in Ancestors(dir[..|dir| - 1]) || Under(q, dir)
  {
    forall q | q in Ancestors(dir + rel)
      ensures q in Ancestors(dir[..|dir| - 1]) || Under(q, dir)
    {
      var k :| 1 <= k <= |dir + rel| && q == (dir + rel)[..k];
      if k < |dir| {
        assert q == dir[..|dir| - 1][..k];
      } else {
        assert q[..|dir|] == dir;
      }
    }
  }

  /**
   * Deleting `dir` after adding directories and files only at or below it
   * (and directories that already existed) restores the earlier state,
   * provided nothing was at or below `dir` before.
   */
  lemma CleanupRestores(dirs: set<Path>, files: map<Path, string>, dir: Path,
                        added: set<Path>, written: map<Path, string>)
    requires forall q :: q in dirs ==> !Under(q, dir)
    requires forall p :: p in files ==> !Under(p, dir)
    requires forall q :: q in added ==> q in dirs || Under(q, dir)
    requires forall p :: p in written ==> Under(p, dir)
    ensures (set q | q in dirs + added && !Under(q, dir)) == dirs
    ensures (map p | p in files + written && !Under(p, dir) :: (files + written)[p]) == files
  {
    var kept := map p | p in files + written && !Under(p, dir) :: (files + written)[p];
    assert kept.Keys == files.Keys;
    forall p | p in files ensures kept[p] == files[p] {
      assert p !in written;
    }
  }

  /** What happened to the `gradle test` process. */
  datatype ProcessOutcome =
    | Exited(exitCode: int, stdout: string, stderr: string)
    | Failed(message: Option<string>)   // an exception while starting or waiting

  /** The external build: its outcome given the command, the directory and the files present. */
  type Gradle = (seq<string>, Path, map<Path, string>) -> ProcessOutcome

  const MissingGradleHomeMessage := "GRADLE_HOME environment variable is not set"

  /**
   * How `runWithCLI` reads a process outcome: exit code 0 is a success with no
   * output recorded, any other exit code a failure carrying the captured
   * standard output and error, and an exception a failure carrying its
   * message. No per-test detail is produced on this path.
   */
  function CliResult(outcome: ProcessOutcome): (r: TestResult)
    ensures r.success <==> outcome.Exited? && outcome.exitCode == 0
    ensures r.success ==> r.output == None && r.errorOutput == None
    ensures outcome.Exited? && outcome.exitCode != 0 ==>
      r.output == Some(outcome.stdout) && r.errorOutput == Some(outcome.stderr)
    ensures outcome.Failed? ==>
      r.output == None && r.errorOutput == Some(outcome.message.OrElse("Unknown error"))
    ensures !r.success ==> r.errorOutput.Some?
    ensures r.testResults == [] && r.apiChange == None && r.generatedCode == None &&
      r.gradleBuild == None && r.model == None
  {
    match outcome
    case Exited(code, stdout, stderr) =>
      if code == 0 then TestResult(success := true)
      else TestResult(success := false, output := Some(stdout), errorOutput := Some(stderr))
    case Failed(message) =>
      TestResult(success := false, errorOutput := Some(message.OrElse("Unknown error")))
  }

  /**
   * The result `runTests` hands back for a build outcome: the mapped outcome
   * with the API change, the code and the build description it was called with.
   */
  function RunTestsResult(outcome: ProcessOutcome, apiChange: ApiChange, sourceCode: string, gradleBuild: string): (r: TestResult)
    ensures r.apiChange == Some(apiChange) && r.generatedCode == Some(sourceCode) && r.gradleBuild == Some(gradleBuild)
    ensures r.success <==> outcome.Exited? && outcome.exitCode == 0
    ensures r.testResults == [] && r.model == None
    ensures r.(apiChange := None, generatedCode := None, gradleBuild := None) == CliResult(outcome)
  {
    CliResult(outcome).(apiChange := Some(apiChange), generatedCode := Some(sourceCode), gradleBuild := Some(gradleBuild))
  }

  /**
   * `runWithCLI`: a missing `GRADLE_HOME` throws before anything runs;
   * otherwise `<GRADLE_HOME> test` runs in the project directory and its
   * outcome is mapped by `CliResult`.
   */
  method RunWithCli(fs: FileSystem, projectDir: Path, gradleHome: Option<string>, gradle: Gradle)
    returns (r: Thrown<TestResult>)
    ensures r.Threw? <==> gradleHome.None?
    ensures r.Threw? ==> r.message == MissingGradleHomeMessage
    ensures r.Returned? ==> r.value == CliResult(gradle([gradleHome.value, "test"], projectDir, fs.files))
  {
    if gradleHome.None? {
      return Threw(MissingGradleHomeMessage);
    }
    var command := [gradleHome.value, "test"];
    var outcome := gradle(command, projectDir, fs.files);
    if outcome.Exited? && outcome.exitCode == 0 {
      r := Returned(TestResult(success := true));
    } else if outcome.Exited? {
      r := Returned(TestResult(success := false, output := Some(outcome.stdout), errorOutput := Some(outcome.stderr)));
    } else {
      r := Returned(TestResult(success := false, errorOutput := Some(outcome.message.OrElse("Unknown error"))));
    }
  }

  /** The directories `runTests` creates for a project in `dir`. */
  function ProjectDirs(dir: Path): set<Path>
  {
    {dir} + Ancestors(dir + MainSourceDir) + Ancestors(dir + TestSourceDir)
  }

  /**
   * Every directory of a project in `dir` either already existed (an
   * ancestor of the temporary-files directory) or lies at or below `dir`,
   * and so does every file of its layout.
   */
  lemma ProjectBelow(dir: Path, sourceCode: string, testProgram: string, gradleBuild: string)
    requires |dir| > 0
    ensures forall q :: q in ProjectDirs(dir) ==> q in Ancestors(dir[..|dir| - 1]) || Under(q, dir)
    ensures forall p :: p in Layout(dir, sourceCode, testProgram, gradleBuild) ==> Under(p, dir)
  {
    AncestorsBelow(dir, MainSourceDir);
    AncestorsBelow(dir, TestSourceDir);
    assert Under(dir + SourceFile, dir) && Under(dir + TestFile, dir) && Under(dir + BuildFile, dir);
  }

  /**
   * Lines 168-179 of `runTests`: a fresh project directory with the source
   * and test directories, and the three files of the layout in it.
   */
  method CreateProject(fs: FileSystem, tempDir: Path, sourceCode: string, testProgram: string, gradleBuild: string)
    requires |tempDir| > 0 && fs.Absent(tempDir) && Ancestors(tempDir[..|tempDir| - 1]) <= fs.dirs
    modifies fs
    ensures fs.files == old(fs.files) + Layout(tempDir, sourceCode, testProgram, gradleBuild)
    ensures fs.dirs == old(fs.dirs) + ProjectDirs(tempDir)
  {
    fs.CreateTempDirectory(tempDir);
    fs.CreateDirectories(tempDir + MainSourceDir);
    fs.CreateDirectories(tempDir + TestSourceDir);

    var sourcePath := tempDir + SourceFile;
    var testPath := tempDir + TestFile;
    var buildFilePath := tempDir + BuildFile;

    assert sourcePath[..|sourcePath| - 1] == (tempDir + MainSourceDir)[..|tempDir + MainSourceDir|];
    assert testPath[..|testPath| - 1] == (tempDir + TestSourceDir)[..|tempDir + TestSourceDir|];
    assert buildFilePath[..|buildFilePath| - 1] == tempDir;
    ghost var before := fs.files;
    fs.WriteText(sourcePath, sourceCode);
    fs.WriteText(testPath, testProgram);
    fs.WriteText(buildFilePath, gradleBuild);
    WritesAreLayout(before, tempDir, sourceCode, testProgram, gradleBuild);
  }

  /** Writing the three files one after another adds exactly the layout. */
  lemma WritesAreLayout(files: map<Path, string>, dir: Path, sourceCode: string, testProgram: string, gradleBuild: string)
    ensures files[dir + SourceFile := sourceCode][dir + TestFile := testProgram][dir + BuildFile := gradleBuild]
         == files + Layout(dir, sourceCode, testProgram, gradleBuild)
  {
  }

  /**
   * `runTests`. `tempDir` is the fresh directory the operating system hands
   * out. On a normal return the file system is exactly as before (the
   * project directory is gone), and the result is the build's outcome with
   * the API change, the code and the build description it was called with;
   * the test file the build saw is the API change's own test program. When
   * `GRADLE_HOME` is missing the exception escapes before the deletion, so
   * the project stays behind.
   */
  method RunTests(fs: FileSystem, tempDir: Path, gradleHome: Option<string>, gradle: Gradle,
                  apiChange: ApiChange, sourceCode: string, gradleBuild: string)
    returns (o: Thrown<TestResult>)
    requires |tempDir| > 0 && fs.Absent(tempDir) && Ancestors(tempDir[..|tempDir| - 1]) <= fs.dirs
    modifies fs
    ensures o.Threw? <==> gradleHome.None?
    ensures o.Threw? ==> o.message == MissingGradleHomeMessage
    ensures o.Returned? ==>
      o.value == RunTestsResult(gradle([gradleHome.value, "test"], tempDir,
                               old(fs.files) + Layout(tempDir, sourceCode, apiChange.test_program, gradleBuild)),
                        apiChange, sourceCode, gradleBuild)
    ensures o.Returned? ==> fs.files == old(fs.files) && fs.dirs == old(fs.dirs)
    ensures o.Returned? ==> fs.Absent(tempDir)
    ensures o.Threw? ==>
      fs.files == old(fs.files) + Layout(tempDir, sourceCode, apiChange.test_program, gradleBuild) &&
      fs.dirs == old(fs.dirs) + ProjectDirs(tempDir)
  {
    CreateProject(fs, tempDir, sourceCode, apiChange.test_program, gradleBuild);

    var result := RunWithCli(fs, tempDir, gradleHome, gradle);
    if result.Threw? {
      return Threw(result.message);
    }

    ProjectBelow(tempDir, sourceCode, apiChange.test_program, gradleBuild);
    CleanupRestores(old(fs.dirs), old(fs.files), tempDir, ProjectDirs(tempDir),
                    Layout(tempDir, sourceCode, apiChange.test_program, gradleBuild));
    fs.DeleteRecursively(tempDir);

    o := Returned(result.value.(apiChange := Some(apiChange), generatedCode := Some(sourceCode), gradleBuild := Some(gradleBuild)));
  }
}
