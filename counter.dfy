/**
 * The build-number counter with the file system abstracted away: the counter file is
 * either absent or present with its key/value entries, and one plugin run reads it,
 * chooses the next number and rewrites it.
 */
module BuildNumberCounter {
  import opened JavaInt
  import opened JavaText

  /** A `java.util.Properties` table: string keys to string values. */
  type Properties = map<string, string>

  /** The counter file as the plugin sees it. */
  datatype CounterFile = Absent | Present(entries: Properties)

  /** What `readBuildNumberFrom` reports for a file that does not exist. */
  const ABSENT_SENTINEL: int32 := -1

  /** The value used when the key is missing or its text does not parse. */
  const FALLBACK: int32 := 1

  /** `Properties.getProperty(key, default)`. */
  function GetProperty(p: Properties, key: string, default: string): (v: string)
    ensures key in p ==> v == p[key]
    ensures key !in p ==> v == default
  {
    if key in p then p[key] else default
  }

  /**
   * `readBuildNumberFrom`: -1 when the file does not exist, otherwise
   * `toInt(getProperty(key, "1"), 1)`.
   */
  function ReadCounter(file: CounterFile, key: string): (r: int32)
    ensures file.Absent? ==> r == -1
    ensures file.Present? ==> r == FALLBACK || (key in file.entries && ParseInt(file.entries[key]) == Some(r))
  {
    match file
    case Absent => ABSENT_SENTINEL
    case Present(entries) => ToInt(GetProperty(entries, key, "1"), FALLBACK)
  }

  /** The choice in `execute`: a value that is not positive becomes 1, any other is incremented as a Java `int`. */
  function NextBuildNumber(current: int32): (r: int32)
    ensures current <= 0 ==> r == 1
    ensures 0 < current < MAX_VALUE ==> r == current + 1
    ensures current == MAX_VALUE ==> r == MIN_VALUE
    ensures r > 0 <==> current != MAX_VALUE
  {
    if current <= 0 then 1 else Increment(current)
  }

  /**
   * The file `writeBuildNumberTo(file, n)` leaves behind: one entry, the key and the printed
   * number. Reading it back gives exactly `n`.
   */
  function Written(key: string, n: int32): (f: CounterFile)
    ensures f.Present? && key in f.entries
    ensures ReadCounter(f, key) == n
  {
    ToIntValueOf(n, FALLBACK);
    Present(map[key := ValueOf(n)])
  }

  /** The number one run of the plugin writes and publishes, given the file it finds. */
  function RunOnce(file: CounterFile, key: string): (r: int32)
    ensures r > 0 || r == MIN_VALUE
    ensures file.Absent? ==> r == 1
  {
    NextBuildNumber(ReadCounter(file, key))
  }

  /** The counter file after one successful run. */
  function Step(file: CounterFile, key: string): (f: CounterFile)
    ensures f.Present? && f.entries.Keys == {key}
    ensures ReadCounter(f, key) == RunOnce(file, key)
  {
    Written(key, RunOnce(file, key))
  }

  /** The counter file after `k` successful runs in a row. */
  function Runs(file: CounterFile, key: string, k: nat): CounterFile
    decreases k
  {
    if k == 0 then file else Runs(Step(file, key), key, k - 1)
  }

  /** First run: no file gives the sentinel, and the run writes 1. */
  lemma FirstRun(key: string)
    ensures ReadCounter(Absent, key) == ABSENT_SENTINEL
    ensures RunOnce(Absent, key) == 1
    ensures ReadCounter(Written(key, RunOnce(Absent, key)), key) == 1
  {
  }

  /** A stored number strictly between 0 and `Integer.MAX_VALUE` is incremented by one. */
  lemma StoredNumberIncrements(entries: Properties, key: string, n: int32)
    requires key in entries && ParseInt(entries[key]) == Some(n)
    requires 0 < n < MAX_VALUE
    ensures ReadCounter(Present(entries), key) == n
    ensures RunOnce(Present(entries), key) == n + 1
  {
  }

  /**
   * A present file whose key is missing or whose value does not parse reads as 1, so the
   * run writes 2, not the 1 an absent file gives.
   */
  lemma UnusableEntryGivesTwo(entries: Properties, key: string)
    requires key !in entries || ParseInt(entries[key]).None?
    ensures ReadCounter(Present(entries), key) == FALLBACK
    ensures RunOnce(Present(entries), key) == 2
    ensures RunOnce(Present(entries), key) != RunOnce(Absent, key)
  {
  }

  /** A present file reads as 1 exactly when the entry is missing, unparsable, or the number 1. */
  lemma ReadsFallbackExactly(entries: Properties, key: string)
    ensures ReadCounter(Present(entries), key) == FALLBACK
        <==> key !in entries || ParseInt(entries[key]).None? || ParseInt(entries[key]) == Some(1)
  {
    if key !in entries {
      assert ParseInt("1") == Some(1);
    }
  }

  /** A stored number that is zero or negative resets the counter to 1. */
  lemma NonPositiveResets(entries: Properties, key: string, n: int32)
    requires key in entries && ParseInt(entries[key]) == Some(n)
    requires n <= 0
    ensures RunOnce(Present(entries), key) == 1
  {
  }

  /** At `Integer.MAX_VALUE` the run wraps to `Integer.MIN_VALUE`; the run after that resets to 1. */
  lemma WrapThenReset(key: string)
    ensures RunOnce(Written(key, MAX_VALUE), key) == MIN_VALUE
    ensures RunOnce(Runs(Written(key, MAX_VALUE), key, 1), key) == 1
  {
  }

  /** Re-running on a file the plugin wrote with `n` (below the maximum) produces `n + 1`: no skip, no reset. */
  lemma RerunIncrements(key: string, n: int32)
    requires 0 < n < MAX_VALUE
    ensures RunOnce(Written(key, n), key) == n + 1
    ensures Step(Written(key, n), key) == Written(key, n + 1)
  {
  }

  /** The numbers successive runs write, starting from a file the plugin wrote with `v`. */
  function Iterate(v: int32, k: nat): int32
    decreases k
  {
    if k == 0 then v else Iterate(NextBuildNumber(v), k - 1)
  }

  /** Below the maximum, each run adds exactly one: `k` runs after `n` give `n + k`. */
  lemma {:induction false} IterateCounts(n: int32, k: nat)
    requires 0 < n && n + k <= MAX_VALUE
    ensures Iterate(n, k) == n + k
    decreases k
  {
    if k > 0 {
      IterateCounts(n + 1, k - 1);
    }
  }

  /** The files successive runs leave are the ones holding the numbers `Iterate` lists. */
  lemma {:induction false} RunsIterate(key: string, v: int32, k: nat)
    ensures Runs(Written(key, v), key, k) == Written(key, Iterate(v, k))
    decreases k
  {
    if k > 0 {
      RunsIterate(key, NextBuildNumber(v), k - 1);
    }
  }

  /** `k` runs after the plugin wrote `n` leave `n + k` in the file, as long as the maximum is not passed. */
  lemma RunsCount(key: string, n: int32, k: nat)
    requires 0 < n && n + k <= MAX_VALUE
    ensures Runs(Written(key, n), key, k) == Written(key, n + k)
  {
    RunsIterate(key, n, k);
    IterateCounts(n, k);
  }

  /** Starting without a file, the `k`-th run leaves `k` in the file, for every `k` up to the maximum. */
  lemma RunsFromAbsent(key: string, k: nat)
    requires 1 <= k <= MAX_VALUE
    ensures Runs(Absent, key, k) == Written(key, k)
    ensures ReadCounter(Runs(Absent, key, k), key) == k
  {
    RunsCount(key, 1, k - 1);
  }

  /**
   * Whatever the file holds, a run writes a positive number, or it wrapped to
   * `Integer.MIN_VALUE` and the run after it writes 1.
   */
  lemma NonPositiveOnlyByWrap(file: CounterFile, key: string)
    ensures var first := RunOnce(file, key);
      first > 0 || (first == MIN_VALUE && RunOnce(Runs(file, key, 1), key) == 1)
  {
  }

  /** A file holding `buildnumber=41` is rewritten to `buildnumber=42`. */
  lemma StoredFortyOne()
    ensures Step(Present(map["buildnumber" := "41"]), "buildnumber") == Present(map["buildnumber" := "42"])
  {
    var s := "41";
    assert s[..1] == "4" && "4"[..0] == [];
    assert ParseInt(s) == Some(41);
    var t := NaturalDigits(42);
    assert NaturalDigits(4) == "4";
    assert t == "42";
  }

  /** A file holding `buildnumber=abc` is rewritten to `buildnumber=2`. */
  lemma StoredGarbage()
    ensures Step(Present(map["buildnumber" := "abc"]), "buildnumber") == Present(map["buildnumber" := "2"])
  {
    assert ParseInt("abc") == None;
    assert NaturalDigits(2) == "2";
  }
}
