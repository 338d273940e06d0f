/**
 * The plugin goal itself: the `BuildNumberMojo` object, its configuration, the part of the
 * file system it touches and the project properties it publishes into. The I/O calls are
 * modelled by their effect on these fields; which paths the operating system refuses is a
 * fixed part of the environment.
 */
module BuildNumberPlugin {
  import opened JavaInt
  import opened JavaText
  import opened BuildNumberCounter

  /** `new File(directory, name)`. */
  datatype Path = Path(directory: string, name: string)

  /** What an I/O step hands back: its value, or the `IOException` it threw. */
  datatype IoResult<T> = Done(value: T) | IOException

  /** How `execute` ends: normally, or by throwing a `MojoExecutionException`. */
  datatype Outcome = Completed | MojoExecutionException(message: string)

  const FAILURE_MESSAGE: string := "could not handle the build number"

  class BuildNumberMojo {
    /** Configuration injected by the build tool. */
    const outputDirectory: string
    const buildFile: string
    const propertyName: string

    /** The file system: the directories that exist, and each existing file with the entries it stores. */
    var directories: set<string>
    var files: map<Path, Properties>

    /** Paths the operating system refuses to open for reading, and to create or open for writing. */
    const unreadable: set<Path>
    const unwritable: set<Path>

    /** `project.getProperties()`. */
    var projectProperties: Properties

    /** Every file lies in a directory that exists. */
    ghost predicate Valid()
      reads this
    {
      forall p | p in files :: p.directory in directories
    }

    /** `new File(outputDirectory, buildFile)`. */
    function BuildFilePath(): Path
    {
      Path(outputDirectory, buildFile)
    }

    /** The counter file at `p` as the abstract counter model sees it. */
    function FileAt(p: Path): CounterFile
      reads this
    {
      if p in files then Present(files[p]) else Absent
    }

    constructor (outputDirectory: string, buildFile: string, propertyName: string,
                 directories: set<string>, files: map<Path, Properties>,
                 unreadable: set<Path>, unwritable: set<Path>, projectProperties: Properties)
      requires forall p | p in files :: p.directory in directories
      ensures Valid()
      ensures this.outputDirectory == outputDirectory && this.buildFile == buildFile
      ensures this.propertyName == propertyName
      ensures this.directories == directories && this.files == files
      ensures this.unreadable == unreadable && this.unwritable == unwritable
      ensures this.projectProperties == projectProperties
    {
      this.outputDirectory := outputDirectory;
      this.buildFile := buildFile;
      this.propertyName := propertyName;
      this.directories := directories;
      this.files := files;
      this.unreadable := unreadable;
      this.unwritable := unwritable;
      this.projectProperties := projectProperties;
    }

    /**
     * `readBuildNumberFrom(file)`: the sentinel -1 for a missing file, an `IOException` for a
     * file that cannot be opened, otherwise the key's value parsed leniently.
     */
    method ReadBuildNumberFrom(file: Path) returns (r: IoResult<int32>)
      ensures file !in files ==> r == Done(ABSENT_SENTINEL)
      ensures file in files ==> (r.IOException? <==> file in unreadable)
      ensures r.Done? ==> r.value == ReadCounter(FileAt(file), propertyName)
    {
      if file !in files {
        return Done(ABSENT_SENTINEL);
      }
      if file in unreadable {
        return IOException;
      }
      var prop := files[file];
      r := Done(ToInt(GetProperty(prop, propertyName, "1"), FALLBACK));
    }

    /**
     * `writeBuildNumberTo(file, buildNumber)`: a missing file gets its parent directory and
     * is created; then its whole content is replaced by the one entry
     * `propertyName = valueOf(buildNumber)`.
     */
    method WriteBuildNumberTo(file: Path, buildNumber: int32) returns (r: IoResult<()>)
      requires Valid()
      modifies this`directories, this`files
      ensures Valid()
      ensures directories == old(directories) + {file.directory}
      ensures r.Done? <==> file !in unwritable
      ensures r.Done? ==> files == old(files)[file := map[propertyName := ValueOf(buildNumber)]]
      ensures r.Done? ==> FileAt(file) == Written(propertyName, buildNumber)
      ensures r.IOException? ==> files == old(files)
    {
      if file !in files {
        directories := directories + {file.directory};
        if file in unwritable {
          return IOException;
        }
        files := files[file := map[]];
      }
      if file in unwritable {
        return IOException;
      }
      var prop: Properties := map[];
      prop := prop[propertyName := ValueOf(buildNumber)];
      files := files[file := prop];
      r := Done(());
    }

    /**
     * `execute()`: read, choose the next number, write it back, publish it. Any
     * `IOException` ends the run with "could not handle the build number" and nothing is
     * published.
     */
    method Execute() returns (outcome: Outcome)
      requires Valid()
      modifies this`directories, this`files, this`projectProperties
      ensures Valid()
      ensures outcome.Completed? <==>
        !(BuildFilePath() in old(files) && BuildFilePath() in unreadable) && BuildFilePath() !in unwritable
      ensures outcome.MojoExecutionException? ==>
        outcome.message == FAILURE_MESSAGE && files == old(files) && projectProperties == old(projectProperties)
      ensures directories == old(directories) + {BuildFilePath().directory}
      ensures outcome.Completed? ==>
        var text := ValueOf(RunOnce(old(FileAt(BuildFilePath())), propertyName));
        && files == old(files)[BuildFilePath() := map[propertyName := text]]
        && projectProperties == old(projectProperties)[propertyName := text]
      ensures outcome.Completed? ==> FileAt(BuildFilePath()) == Step(old(FileAt(BuildFilePath())), propertyName)
    {
      var file := BuildFilePath();
      var read := ReadBuildNumberFrom(file);
      if read.IOException? {
        return MojoExecutionException(FAILURE_MESSAGE);
      }
      var buildNumber := read.value;
      if buildNumber <= 0 {
        buildNumber := 1;
      } else {
        buildNumber := Increment(buildNumber);
      }
      var written := WriteBuildNumberTo(file, buildNumber);
      if written.IOException? {
        return MojoExecutionException(FAILURE_MESSAGE);
      }
      projectProperties := projectProperties[propertyName := ValueOf(buildNumber)];
      outcome := Completed;
    }
  }

  /** Two runs against a directory that does not exist yet, then a run against a file that cannot be written. */
  method RunScenarios()
  {
    var path := Path("target", "build.properties");
    var mojo := new BuildNumberMojo("target", "build.properties", "buildnumber", {}, map[], {}, {}, map[]);
    var outcome := mojo.Execute();
    FirstRun("buildnumber");
    assert NaturalDigits(1) == "1";
    assert outcome == Completed;
    assert "target" in mojo.directories;
    assert mojo.files == map[path := map["buildnumber" := "1"]];
    assert mojo.projectProperties == map["buildnumber" := "1"];

    outcome := mojo.Execute();
    RerunIncrements("buildnumber", 1);
    assert NaturalDigits(2) == "2";
    assert mojo.files == map[path := map["buildnumber" := "2"]];
    assert mojo.projectProperties == map["buildnumber" := "2"];

    var before := map[path := map["buildnumber" := "41", "owner" := "ci"]];
    var locked := new BuildNumberMojo("target", "build.properties", "buildnumber", {"target"}, before, {}, {path}, map[]);
    outcome := locked.Execute();
    assert outcome == MojoExecutionException("could not handle the build number");
    assert locked.files == before && locked.projectProperties == map[];
  }
}

