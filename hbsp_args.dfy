/**
 * The command line of the BSP compiler `hbsp`:
 * `hbsp {-r|-c} <input geometry> {<input hints>|nohints} <output tree> [-w<number>]`.
 */
module HbspArgs {
  import opened Common

  /** Which polygons the compiler is instantiated with. */
  datatype PolygonKind = Textured | Collision

  /** What the compiler is run on: the files (no hint file for `nohints`) and the split weight. */
  datatype Job = Job(kind: PolygonKind, geometry: string, hints: Option<string>, output: string, weight: real)

  const NoHints := "nohints"
  const DefaultWeight: real := 4.0
  const UsageMessage := "Usage: hbsp {-r|-c} <input geometry> {<input hints>|nohints} <output tree> [-w<number>]"

  /** The flag for a polygon kind. */
  function KindFlag(k: PolygonKind): string
  {
    match k
    case Textured => "-r"
    case Collision => "-c"
  }

  /** The hint file to load: none for `nohints`. */
  function HintsOf(name: string): (r: Option<string>)
    ensures r.None? <==> name == NoHints
    ensures r.Some? ==> r.value == name
  {
    if name == NoHints then None else Some(name)
  }

  /**
   * `main`'s checks, in order: five or six arguments; a sixth must begin
   * with `-w` and the rest of it must read as a number; the first must be
   * `-r` or `-c`. Every failure is the usage message (`argv[0]` is the
   * program's name).
   */
  function ParseArgs(number: string -> Option<real>, args: seq<string>): (r: Result<Job>)
    ensures r.Ok? <==> ((|args| == 5 || |args| == 6)
      && (|args| == 6 ==> Prefix(args[5], 2) == "-w" && number(args[5][2..]).Some?)
      && (args[1] == "-r" || args[1] == "-c"))
    ensures r.Err? ==> r.error == UsageMessage
    ensures r.Ok? ==> r.value.geometry == args[2] && r.value.hints == HintsOf(args[3]) && r.value.output == args[4]
    ensures r.Ok? ==> r.value.weight == if |args| == 5 then DefaultWeight else number(args[5][2..]).value
    ensures r.Ok? ==> KindFlag(r.value.kind) == args[1]
  {
    if |args| != 5 && |args| != 6 then Err(UsageMessage)
    else
      var weight :- WeightOf(number, args);
      if args[1] == "-r" then Ok(Job(Textured, args[2], HintsOf(args[3]), args[4], weight))
      else if args[1] == "-c" then Ok(Job(Collision, args[2], HintsOf(args[3]), args[4], weight))
      else Err(UsageMessage)
  }

  /** The weight: 4 unless a sixth argument `-w<number>` gives it. */
  function WeightOf(number: string -> Option<real>, args: seq<string>): (r: Result<real>)
    requires |args| == 5 || |args| == 6
    ensures |args| == 5 ==> r == Ok(DefaultWeight)
    ensures |args| == 6 ==> (r.Ok? <==> Prefix(args[5], 2) == "-w" && number(args[5][2..]).Some?)
    ensures |args| == 6 && r.Ok? ==> r.value == number(args[5][2..]).value
    ensures r.Err? ==> r.error == UsageMessage
  {
    if |args| == 5 then Ok(DefaultWeight)
    else if Prefix(args[5], 2) != "-w" then Err(UsageMessage)
    else match number(args[5][2..])
      case Some(w) => Ok(w)
      case None => Err(UsageMessage)
  }

  /** The command line that asks for a job, with the weight written when it is not the default. */
  function CommandLine(show: real -> string, program: string, job: Job): seq<string>
  {
    [program, KindFlag(job.kind), job.geometry, match job.hints case Some(h) => h case None => NoHints, job.output]
    + (if job.weight == DefaultWeight then [] else ["-w" + show(job.weight)])
  }

  /**
   * Every job can be asked for on the command line: parsing the command
   * line for it gives the job back, when the weight's text reads back as
   * the weight and a hint file is never called `nohints`.
   */
  lemma ParseCommandLine(f: NumberText, program: string, job: Job)
    requires f.read(f.show(job.weight)) == Some(job.weight)
    requires job.hints != Some(NoHints)
    ensures ParseArgs(f.read, CommandLine(f.show, program, job)) == Ok(job)
  {
    var args := CommandLine(f.show, program, job);
    var h := match job.hints case Some(h) => h case None => NoHints;
    assert HintsOf(h) == job.hints;
    if job.weight != DefaultWeight {
      var w := "-w" + f.show(job.weight);
      assert args[5] == w && w[..2] == "-w" && w[2..] == f.show(job.weight);
    }
  }
}
