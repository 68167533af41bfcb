/** The values the batch runner moves around: a job's lifecycle state, the
    paths of one job, and which directory entries become jobs. */
module Jobs {

  /** `enum JobStatus { Pending, Working, Done, Error, Skipped }`. */
  datatype Status = Pending | Working | Done | Error | Skipped

  /** A state no worker moves a job out of. */
  predicate Terminal(s: Status) {
    s == Done || s == Error || s == Skipped
  }

  /** The only moves a worker makes on one job: it starts a pending job, and
      it ends a working job as Done or as Error. */
  predicate LegalStep(before: Status, after: Status) {
    (before == Pending && after == Working) ||
    (before == Working && (after == Done || after == Error))
  }

  /** A std::filesystem path, split into its parent directory and its last
      component (what `filename()` returns). */
  datatype Path = Path(dir: string, name: string)

  /** One unit of work: the source file and the file ffmpeg writes. */
  datatype Job = Job(source: Path, destination: Path)

  /** The status table's key for a job: `job.first.filename()`. */
  function Key(j: Job): string {
    j.source.name
  }

  /** The job the enumeration loop builds for the entry called `name`:
      `(inputDir / name, outputDir / name)`. */
  function JobFor(inputDir: string, outputDir: string, name: string): Job {
    Job(Path(inputDir, name), Path(outputDir, name))
  }

  /** Where std::filesystem::path::extension() starts in a file name: the
      last '.' at position 1 or later, or 0 when there is none (a name that
      only starts with a dot, like ".mp3", has no extension). */
  function ExtensionStart(name: string): (i: nat)
    ensures i == 0 || (i < |name| && name[i] == '.')
    ensures forall j :: i < j < |name| && 0 < j ==> name[j] != '.'
    decreases |name|
  {
    if |name| <= 1 then 0
    else if name[|name| - 1] == '.' then |name| - 1
    else ExtensionStart(name[..|name| - 1])
  }

  /** path::extension() of a file name; ".." has none. */
  function Extension(name: string): string {
    if |name| == 2 && name[0] == '.' && name[1] == '.' then ""
    else
      var i := ExtensionStart(name);
      if i == 0 then "" else name[i..]
  }

  /** The enumeration filter `file.path().extension() == L".mp3"` (exact,
      case-sensitive). */
  predicate IsMp3(name: string) {
    var e := Extension(name);
    |e| == 4 && e[0] == '.' && e[1] == 'm' && e[2] == 'p' && e[3] == '3'
  }

  /** A name passes the filter exactly when it is at least one character
      followed by ".mp3". */
  lemma IsMp3Iff(name: string)
    ensures IsMp3(name) <==> |name| >= 5 && name[|name| - 4..] == ".mp3"
  {
    var n := |name|;
    if |name| >= 5 && name[n - 4..] == ".mp3" {
      assert name[n - 4] == '.';
      assert name[n - 3] == 'm' && name[n - 2] == 'p' && name[n - 1] == '3';
      var i := ExtensionStart(name);
      assert i == n - 4;
    }
    if IsMp3(name) {
      var i := ExtensionStart(name);
      assert name[i..] == ".mp3";
    }
  }

  /** The names the enumeration loop turns into jobs, in listing order. */
  function Eligible(names: seq<string>): (r: seq<string>)
    ensures |r| <= |names|
    ensures forall n :: n in r <==> n in names && IsMp3(n)
  {
    if names == [] then []
    else (if IsMp3(names[0]) then [names[0]] else []) + Eligible(names[1..])
  }

  /** The filter works entry by entry: filtering a listing is filtering its
      parts and concatenating, so the jobs keep the listing's order. */
  lemma {:induction false} EligibleAppend(a: seq<string>, b: seq<string>)
    ensures Eligible(a + b) == Eligible(a) + Eligible(b)
  {
    if a == [] {
      assert a + b == b;
    } else {
      var head := if IsMp3(a[0]) then [a[0]] else [];
      assert (a + b)[0] == a[0] && (a + b)[1..] == a[1..] + b;
      calc {
        Eligible(a + b);
        head + Eligible(a[1..] + b);
        { EligibleAppend(a[1..], b); }
        head + (Eligible(a[1..]) + Eligible(b));
        (head + Eligible(a[1..])) + Eligible(b);
      }
    }
  }

  /** The jobs for a sequence of names, one per name in the same order. */
  function JobsFor(inputDir: string, outputDir: string, names: seq<string>): seq<Job> {
    seq(|names|, i requires 0 <= i < |names| => JobFor(inputDir, outputDir, names[i]))
  }

  /** Building jobs commutes with concatenating name sequences. */
  lemma JobsForAppend(inputDir: string, outputDir: string, a: seq<string>, b: seq<string>)
    ensures JobsFor(inputDir, outputDir, a + b) == JobsFor(inputDir, outputDir, a) + JobsFor(inputDir, outputDir, b)
  {
  }

  /** The filter's result for one more listed entry. */
  lemma EligibleSnoc(names: seq<string>, i: nat)
    requires i < |names|
    ensures Eligible(names[..i + 1]) == Eligible(names[..i]) + (if IsMp3(names[i]) then [names[i]] else [])
  {
    assert names[..i + 1] == names[..i] + [names[i]];
    EligibleAppend(names[..i], [names[i]]);
    assert [names[i]][1..] == [];
  }

  /** No name occurs twice. */
  predicate Distinct(names: seq<string>) {
    forall i, j :: 0 <= i < j < |names| ==> names[i] != names[j]
  }

  /** A listing without repeated names yields jobs without repeated names. */
  lemma {:induction false} EligibleDistinct(names: seq<string>)
    requires Distinct(names)
    ensures Distinct(Eligible(names))
  {
    if names != [] {
      EligibleDistinct(names[1..]);
      assert names[0] !in names[1..];
    }
  }
}
