# Build-number plugin: a verified model of the counter cycle

The plugin's single goal (`BuildNumberMojo.execute`) keeps a build number in a
properties file. On every build it reads the number stored under `propertyName`,
chooses the next one, writes the file back with that one entry, and publishes the
number as a string in the Maven project's properties. This project models that
read / compute / write / publish cycle in Dafny and proves what it does.

Modules:

- `JavaInt` (`java_int.dfy`): the Java `int` range and the two's-complement `++`.
- `JavaText` (`java_text.dfy`): `Integer.parseInt` (through `NumberUtils.toInt(String, int)`)
  and `String.valueOf(int)`, with round trips in both directions.
- `BuildNumberCounter` (`counter.dfy`): the counter with the file abstracted to
  `Absent | Present(entries)`. `ReadCounter` is `readBuildNumberFrom`, `NextBuildNumber` is
  the choice in `execute`, `Written` is the file `writeBuildNumberTo` leaves, `Step`/`Runs`
  are one and `k` successive runs. Lemmas cover the first run, the increment, the lenient
  fallback, the reset of non-positive values, the wrap at `Integer.MAX_VALUE` and sequences
  of runs.
- `BuildNumberPlugin` (`mojo.dfy`): the class `BuildNumberMojo` holds the configuration,
  the directories and files it touches (a `map` from path to entries), and the project
  properties. Its methods `ReadBuildNumberFrom`, `WriteBuildNumberTo` and `Execute` change
  those fields as the Java methods do. Each method's `ensures` ties the new state to the
  functions of `BuildNumberCounter`. `RunScenarios` walks through a missing directory, a
  second run and an unwritable file.

I/O failures come from the environment, so they are modelled as two fixed sets of paths:
`unreadable` (opening for reading throws `IOException`) and `unwritable` (creating or
opening for writing throws).

Two consequences of the code are worth stating:

- The counter is a Java `int` incremented with `++`, so `Integer.MAX_VALUE` wraps to
  `Integer.MIN_VALUE` and the next run resets it to 1 (`WrapThenReset`, `NonPositiveOnlyByWrap`).
- Reading back what was written gives the same number for every `int`, negative ones
  included (`ToIntValueOf`).

## Model

| member | source | states |
|---|---|---|
| JavaInt.Wrap | src/main/java/kirchnerei.buildnumber.plugin/BuildNumberMojo.java:84 | the result is an `int` congruent to the input modulo 2^32, and equal to it when the input is already in range |
| JavaInt.Increment | src/main/java/kirchnerei.buildnumber.plugin/BuildNumberMojo.java:84 | `n++` gives `n + 1` below `Integer.MAX_VALUE` and wraps `MAX_VALUE` to `MIN_VALUE` (always `n + 1` modulo 2^32) |
| JavaText.ParseInt | src/main/java/kirchnerei.buildnumber.plugin/BuildNumberMojo.java:108 | `Integer.parseInt`: a successful parse had an optional `-`/`+` followed by one or more ASCII digits (so empty text, a lone sign or any other character fail), and only a leading `-` gives a negative value; the values are fixed by `ParseValueOf`, `ValueOfParse`, `ParseNonCanonical` and `ParseOutOfRange` |
| JavaText.ToInt | src/main/java/kirchnerei.buildnumber.plugin/BuildNumberMojo.java:108 | `NumberUtils.toInt(s, fallback)`: the parsed value whenever `s` parses, otherwise the fallback |
| JavaText.NaturalDigits | src/main/java/kirchnerei.buildnumber.plugin/BuildNumberMojo.java:89 | the decimal spelling of a natural number is non-empty digits without a superfluous leading zero, starting with '0' only for zero |
| JavaText.ValueOf | src/main/java/kirchnerei.buildnumber.plugin/BuildNumberMojo.java:120 | `String.valueOf(n)` is canonical and starts with '-' exactly when `n` is negative |
| JavaText.DigitsOfNatural | src/main/java/kirchnerei.buildnumber.plugin/BuildNumberMojo.java:120 | the digits printed for a natural number denote that number |
| JavaText.LeadingDigitPositive | src/main/java/kirchnerei.buildnumber.plugin/BuildNumberMojo.java:108 | digits that do not start with '0' denote a positive number |
| JavaText.NaturalOfDigits | src/main/java/kirchnerei.buildnumber.plugin/BuildNumberMojo.java:108 | canonical digits are exactly the spelling of the number they denote |
| JavaText.ParseValueOf | src/main/java/kirchnerei.buildnumber.plugin/BuildNumberMojo.java:108 | `parseInt(valueOf(n))` succeeds with `n` for every `int` |
| JavaText.ValueOfParse | src/main/java/kirchnerei.buildnumber.plugin/BuildNumberMojo.java:108 | a string that parses is printed back unchanged if and only if it is canonical (no '+', no leading zeros, no "-0") |
| JavaText.LeadingZeroValue | src/main/java/kirchnerei.buildnumber.plugin/BuildNumberMojo.java:108 | a leading zero does not change the value of a digit string |
| JavaText.ParseNonCanonical | src/main/java/kirchnerei.buildnumber.plugin/BuildNumberMojo.java:108 | `+d`, `0d` and `d` parse alike, `-0d` parses like `-d`, and "-0" parses to 0 |
| JavaText.ParseOutOfRange | src/main/java/kirchnerei.buildnumber.plugin/BuildNumberMojo.java:108 | digits denoting more than `MAX_VALUE` fail unsigned or with `+`, and more than `-MIN_VALUE` fail with `-` |
| JavaText.ToIntValueOf | src/main/java/kirchnerei.buildnumber.plugin/BuildNumberMojo.java:108 | `toInt(valueOf(n), fallback) == n`: the fallback never replaces a number the plugin printed |
| JavaText.ToIntFallback | src/main/java/kirchnerei.buildnumber.plugin/BuildNumberMojo.java:108 | `toInt` returns the fallback exactly when the text does not parse or parses to the fallback |
| BuildNumberCounter.GetProperty | src/main/java/kirchnerei.buildnumber.plugin/BuildNumberMojo.java:108 | `getProperty(propertyName, "1")`: the value stored under the key, or the default exactly when the key is absent |
| BuildNumberCounter.ReadCounter | src/main/java/kirchnerei.buildnumber.plugin/BuildNumberMojo.java:100-110 | an absent file reads as -1; a present file reads as 1 or as the value its key's text parses to |
| BuildNumberCounter.NextBuildNumber | src/main/java/kirchnerei.buildnumber.plugin/BuildNumberMojo.java:80-86 | a value `<= 0` becomes 1, a value below `MAX_VALUE` becomes one more, `MAX_VALUE` wraps to `MIN_VALUE`; the result is positive unless the input was `MAX_VALUE` |
| BuildNumberCounter.RunOnce | src/main/java/kirchnerei.buildnumber.plugin/BuildNumberMojo.java:79-86 | the number one run chooses from the file it finds: positive, or `MIN_VALUE` after a wrap; 1 when the file is absent |
| BuildNumberCounter.Step | src/main/java/kirchnerei.buildnumber.plugin/BuildNumberMojo.java:79-87 | the file after one run holds exactly one key, and reads back as the number the run chose |
| BuildNumberCounter.Written | src/main/java/kirchnerei.buildnumber.plugin/BuildNumberMojo.java:119-121 | the file written for `n` is present, holds the key, and reads back as exactly `n` |
| BuildNumberCounter.FirstRun | src/main/java/kirchnerei.buildnumber.plugin/BuildNumberMojo.java:101-102 | with no file the read gives -1, the run writes 1, and the file then reads as 1 |
| BuildNumberCounter.StoredNumberIncrements | src/main/java/kirchnerei.buildnumber.plugin/BuildNumberMojo.java:83-84 | a stored number `n` with `0 < n < MAX_VALUE` is read as `n` and the run yields `n + 1` |
| BuildNumberCounter.UnusableEntryGivesTwo | src/main/java/kirchnerei.buildnumber.plugin/BuildNumberMojo.java:108 | a present file with the key missing or unparsable reads as 1 and the run yields 2, unlike the absent file's 1 |
| BuildNumberCounter.ReadsFallbackExactly | src/main/java/kirchnerei.buildnumber.plugin/BuildNumberMojo.java:108 | a present file reads as 1 if and only if the key is missing, its text does not parse, or it parses to 1 |
| BuildNumberCounter.NonPositiveResets | src/main/java/kirchnerei.buildnumber.plugin/BuildNumberMojo.java:80-82 | a stored number `<= 0` (such as "0" or "-7") makes the run write 1 |
| BuildNumberCounter.WrapThenReset | src/main/java/kirchnerei.buildnumber.plugin/BuildNumberMojo.java:80-84 | after `MAX_VALUE` the run writes `MIN_VALUE`, and the run after that writes 1 |
| BuildNumberCounter.RerunIncrements | src/main/java/kirchnerei.buildnumber.plugin/BuildNumberMojo.java:79-87 | re-running on a file the plugin wrote with `0 < n < MAX_VALUE` writes `n + 1` |
| BuildNumberCounter.IterateCounts | src/main/java/kirchnerei.buildnumber.plugin/BuildNumberMojo.java:80-86 | starting from `n > 0`, `k` successive choices give `n + k` as long as `MAX_VALUE` is not passed |
| BuildNumberCounter.RunsIterate | src/main/java/kirchnerei.buildnumber.plugin/BuildNumberMojo.java:79-87 | `k` runs on a file the plugin wrote leave the file written for the `k`-th number of the sequence of choices |
| BuildNumberCounter.RunsCount | src/main/java/kirchnerei.buildnumber.plugin/BuildNumberMojo.java:79-87 | `k` runs after the plugin wrote `n > 0` leave `n + k` in the file, below the maximum |
| BuildNumberCounter.RunsFromAbsent | src/main/java/kirchnerei.buildnumber.plugin/BuildNumberMojo.java:75-94 | starting without a file, the `k`-th run leaves exactly `k` in the file, for `1 <= k <= MAX_VALUE` |
| BuildNumberCounter.NonPositiveOnlyByWrap | src/main/java/kirchnerei.buildnumber.plugin/BuildNumberMojo.java:80-87 | whatever the file holds, a run writes a positive number, or it wrote `MIN_VALUE` and the next run writes 1 |
| BuildNumberCounter.StoredFortyOne | src/main/java/kirchnerei.buildnumber.plugin/BuildNumberMojo.java:108-120 | a file holding `buildnumber=41` is rewritten to hold only `buildnumber=42` |
| BuildNumberCounter.StoredGarbage | src/main/java/kirchnerei.buildnumber.plugin/BuildNumberMojo.java:108-120 | a file holding `buildnumber=abc` is rewritten to hold only `buildnumber=2` |
| BuildNumberPlugin.BuildNumberMojo.constructor | src/main/java/kirchnerei.buildnumber.plugin/BuildNumberMojo.java:50-73 | the mojo starts with the given configuration, file system and project properties, every file in an existing directory |
| BuildNumberPlugin.BuildNumberMojo.ReadBuildNumberFrom | src/main/java/kirchnerei.buildnumber.plugin/BuildNumberMojo.java:100-110 | a missing file gives -1; an existing file gives an `IOException` exactly when it cannot be opened, and otherwise the value `ReadCounter` assigns it |
| BuildNumberPlugin.BuildNumberMojo.WriteBuildNumberTo | src/main/java/kirchnerei.buildnumber.plugin/BuildNumberMojo.java:112-122 | the parent directory exists afterwards; on success the file holds exactly `{propertyName: valueOf(n)}`, other keys gone, other files untouched; it fails exactly for an unwritable path, leaving the files unchanged |
| BuildNumberPlugin.BuildNumberMojo.Execute | src/main/java/kirchnerei.buildnumber.plugin/BuildNumberMojo.java:75-94 | it completes exactly when neither the read nor the write throws; then the file holds and the project publishes the same `valueOf(RunOnce(old file))`, other properties unchanged, and the new file is `Step` of the old one; otherwise it fails with "could not handle the build number" and files and properties are unchanged |

## Left out

- Maven plumbing: `AbstractMojo`, parameter injection and defaults, the `@goal`/`@phase` tags, `setProject`, and the `getLog()` info and error messages. The configuration is given to the constructor.
- The `java.util.Properties` text format. This covers `load`/`store` escaping, the date comment line and the header `PROPERTY_COMMENT`. It also covers the unchecked `IllegalArgumentException` that `load` throws on a malformed `\u` escape. A file is modelled as its map of entries.
- JavaText.ParseInt: accepts only ASCII digits. Java's `Character.digit` also accepts other Unicode decimal digits, so such a stored value parses in Java but falls back to 1 in the model.
- BuildNumberPlugin.BuildNumberMojo.WriteBuildNumberTo: the result of `mkdirs` is ignored, as the code ignores it. Directory creation always succeeds in the model, and intermediate ancestor directories are not modelled (a path's directory is a single name).
- BuildNumberPlugin.BuildNumberMojo.WriteBuildNumberTo: a write is all or nothing. The real `FileOutputStream` truncates the file before `store` writes it, so a failure in the middle leaves a damaged file. The model does not capture that stream, and does not capture that it is never closed.
- BuildNumberPlugin.BuildNumberMojo.Execute: the `IOException` cause attached to the `MojoExecutionException` is not modelled, only the message.
- Null configuration values and the `NullPointerException`s they would cause are not modelled.
- Concurrency: `@threadsafe` is declared, but nothing is locked. Two builds racing on one file are not modelled.
