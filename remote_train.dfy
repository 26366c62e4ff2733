/** Distributed training for the hyperparameter grid search: each candidate is
    trained by a separate program run in its own folder, and its validation
    errors are read back from the table that run appends to its log. Writing
    the files and starting the run are outside the model; the log lines present
    afterwards, `float()`, the clock and the duration formatter are parameters. */
module RemoteTraining {
  import opened Values
  import opened Text
  import opened MlCommon

  /** `keywords['control']`, a dictionary shared by reference. */
  class Control {
    var title: string
    var jobtype: string

    constructor (title: string, jobtype: string)
      ensures this.title == title && this.jobtype == jobtype
    {
      this.title := title;
      this.jobtype := jobtype;
    }
  }

  /** The keyword dictionary: the nested `control` dictionary and the grid-search
      switches `keywords['nn']['search']`. */
  datatype Keywords = Keywords(control: Control, useHpc: int, retrieve: int)

  /** Exceptions and exits of the reader. */
  datatype TrainError =
    | IndexError               // a row offset or a column past the end
    | ValueError(token: string) // a column `float()` refuses
    | Exit(message: string)    // `sys.exit`

  const NotFoundMessage: string :=
    "\n  RuntimeError\n  PyRAI2MD: looking for training log but not found"

  /** `'%s/grid-search/NN-%s-%s' % (cwd, title, id)`. */
  function CalcDir(cwd: string, title: string, id: Option<JobId>): (r: string)
    ensures |r| >= |cwd| + 16 + |title| && r[..|cwd| + 16 + |title|] == cwd + "/grid-search/NN-" + title
    ensures r[|cwd| + 16 + |title|..] == "-" + ShowOptionalId(id)
  {
    cwd + "/grid-search/NN-" + title + "-" + ShowOptionalId(id)
  }

  /** The folder of an indexed candidate is named like the model that candidate
      trains; a candidate without index gets the literal suffix `-None`. */
  lemma CalcDirNamesModel(cwd: string, title: string, id: Option<JobId>)
    ensures !IsDefaultJob(id) ==> CalcDir(cwd, title, id) == cwd + "/grid-search/" + ModelName(title, id)
    ensures id.None? ==> CalcDir(cwd, title, id) == cwd + "/grid-search/" + ModelName(title, id) + "-None"
  {
    var m := ModelName(title, id);
    if !IsDefaultJob(id) {
      assert m == m[..3 + |title|] + [m[3 + |title|]] + m[4 + |title|..];
    }
  }

  function RunScript(calcdir: string): string
  {
    "export INPUT=input.json\nexport WORKDIR=" + calcdir + "\n\ncd $WORKDIR\npyrai2md.py $INPUT\n"
  }

  /** Files `_setup_training` writes into the folder (the batch script only for HPC). */
  function SetupFiles(calcdir: string, title: string, useHpc: int): (r: set<string>)
    ensures calcdir + "/input.json" in r && calcdir + "/" + title + ".sh" in r
    ensures (calcdir + "/" + title + ".sbatch" in r) <==> useHpc == 1
  {
    var sh := calcdir + "/" + title + ".sh";
    var sbatch := calcdir + "/" + title + ".sbatch";
    assert sh != sbatch by { assert |sh| != |sbatch|; }
    assert calcdir + "/input.json" != sbatch by {
      assert (calcdir + "/input.json")[|calcdir + "/input.json"| - 1] == 'n';
      assert sbatch[|sbatch| - 1] == 'h';
    }
    {calcdir + "/input.json", sh} + (if useHpc == 1 then {sbatch} else {})
  }

  /** The command `_start_training` runs. */
  function LaunchCommand(calcdir: string, title: string, useHpc: int): (r: seq<string>)
    ensures |r| >= 2
  {
    if useHpc == 1 then ["sbatch", "-W", calcdir + "/" + title + ".sbatch"]
    else ["bash", calcdir + "/" + title + ".sh"]
  }

  /** The script a launch runs is always one the setup wrote. */
  lemma LaunchRunsWrittenScript(calcdir: string, title: string, useHpc: int)
    ensures var cmd := LaunchCommand(calcdir, title, useHpc);
            cmd[|cmd| - 1] in SetupFiles(calcdir, title, useHpc)
  {
  }

  // ---------------------------------------------------------------------------
  // Reading the log

  const Header: string := ValidationHeader

  /** `log[-10:]`. */
  function Tail(log: seq<string>): (r: seq<string>)
    ensures |r| <= 10 && |r| <= |log|
    ensures r == log[|log| - |r|..]
    ensures |log| >= 10 ==> |r| == 10
    ensures |log| < 10 ==> r == log
  {
    if |log| <= 10 then log else log[|log| - 10..]
  }

  /** The two rows after a header. */
  datatype Rows = NoRows | Rows(nn1: string, nn2: string)

  /** `nn1`, `nn2` after the first `k` lines of the tail: a header at line `n`
      takes lines `n + 4` and `n + 5`, or fails when the tail is too short. */
  function ScanTail(tail: seq<string>, k: nat): Result<Rows, TrainError>
    requires k <= |tail|
  {
    if k == 0 then Ok(NoRows)
    else match ScanTail(tail, k - 1)
      case Err(e) => Err(e)
      case Ok(acc) =>
        if Contains(tail[k - 1], Header) then
          if k + 4 < |tail| then Ok(Rows(tail[k + 3], tail[k + 4])) else Err(TrainError.IndexError)
        else Ok(acc)
  }

  /** The rows come from the LAST header; the scan fails exactly when that header
      has fewer than five lines after it. */
  lemma {:induction false} ScanTakesLastHeader(tail: seq<string>, k: nat)
    requires k <= |tail|
    ensures ScanTail(tail, k) == match LastContaining(tail, k, Header)
                                 case None => Ok(NoRows)
                                 case Some(i) =>
                                   if i + 5 < |tail| then Ok(Rows(tail[i + 4], tail[i + 5]))
                                   else Err(TrainError.IndexError)
  {
    if k > 0 {
      ScanTakesLastHeader(tail, k - 1);
    }
  }

  /** What `_read_training` returns. */
  datatype TrainingMetrics =
    | NotFound(path: string)                // `{'path': calcdir, 'status': 0}`
    | Found(path: string, metrics: Metrics) // status 1 and the eight errors

  function Status(t: TrainingMetrics): int
  {
    if t.NotFound? then 0 else 1
  }

  /** Parses the two rows once both are non-empty. */
  function ParseRows(calcdir: string, nn1: string, nn2: string, toFloat: string -> Option<real>)
    : Result<TrainingMetrics, TrainError>
  {
    match ParseFloats(SplitWs(nn1), toFloat)
    case Err(t) => Err(TrainError.ValueError(t))
    case Ok(v1) =>
      match ParseFloats(SplitWs(nn2), toFloat)
      case Err(t) => Err(TrainError.ValueError(t))
      case Ok(v2) =>
        if |v1| < 4 || |v2| < 4 then Err(TrainError.IndexError)
        else Ok(Found(calcdir, Metrics(v1[0], v1[1], v1[2], v1[3], v2[0], v2[1], v2[2], v2[3])))
  }

  /** `_read_training` given the lines of `NN-<title>.log`, `None` without a log. */
  function ReadTrainingSpec(calcdir: string, log: Option<seq<string>>,
                            toFloat: string -> Option<real>): Result<TrainingMetrics, TrainError>
  {
    match log
    case None => Ok(NotFound(calcdir))
    case Some(lines) =>
      var tail := Tail(lines);
      match ScanTail(tail, |tail|)
      case Err(e) => Err(e)
      case Ok(NoRows) => Err(Exit(NotFoundMessage))
      case Ok(Rows(nn1, nn2)) =>
        if nn1 == "" || nn2 == "" then Err(Exit(NotFoundMessage))
        else ParseRows(calcdir, nn1, nn2, toFloat)
  }

  /** `_read_training`: scans the tail, keeping the rows of the latest header. */
  method ReadTraining(calcdir: string, log: Option<seq<string>>, toFloat: string -> Option<real>)
    returns (r: Result<TrainingMetrics, TrainError>)
    ensures r == ReadTrainingSpec(calcdir, log, toFloat)
  {
    if log.None? {
      return Ok(NotFound(calcdir));
    }
    var tail := Tail(log.value);
    var nn1: Option<string> := None;
    var nn2: Option<string> := None;
    var n := 0;
    while n < |tail|
      invariant n <= |tail|
      invariant nn1.None? <==> nn2.None?
      invariant ScanTail(tail, n) == if nn1.None? then Ok(NoRows) else Ok(Rows(nn1.value, nn2.value))
    {
      if Contains(tail[n], Header) {
        if n + 5 >= |tail| {
          ScanStaysFailed(tail, n + 1);
          return Err(TrainError.IndexError);
        }
        nn1 := Some(tail[n + 4]);
        nn2 := Some(tail[n + 5]);
        assert ScanTail(tail, n + 1) == Ok(Rows(tail[n + 4], tail[n + 5]));
      } else {
        assert ScanTail(tail, n + 1) == ScanTail(tail, n);
      }
      n := n + 1;
    }
    assert ScanTail(tail, |tail|) == if nn1.None? then Ok(NoRows) else Ok(Rows(nn1.value, nn2.value));
    if nn1.None? || nn1.value == "" || nn2.value == "" {
      return Err(Exit(NotFoundMessage));
    }
    r := ParseRows(calcdir, nn1.value, nn2.value, toFloat);
  }

  lemma {:induction false} ScanStaysFailed(tail: seq<string>, k: nat)
    requires k <= |tail| && ScanTail(tail, k).Err?
    ensures ScanTail(tail, |tail|) == ScanTail(tail, k)
    decreases |tail| - k
  {
    if k < |tail| {
      ScanStaysFailed(tail, k + 1);
    }
  }

  /** Lines before the last ten never influence the result. */
  lemma OnlyTailIsRead(calcdir: string, older: seq<string>, lines: seq<string>,
                       toFloat: string -> Option<real>)
    requires |lines| >= 10
    ensures ReadTrainingSpec(calcdir, Some(older + lines), toFloat)
         == ReadTrainingSpec(calcdir, Some(lines), toFloat)
  {
    assert Tail(older + lines) == Tail(lines) by {
      assert (older + lines)[|older + lines| - 10..] == lines[|lines| - 10..];
    }
  }

  /** Without a header in the last ten lines the run exits. */
  lemma MissingHeaderExits(calcdir: string, lines: seq<string>, toFloat: string -> Option<real>)
    requires forall j :: 0 <= j < |Tail(lines)| ==> !Contains(Tail(lines)[j], Header)
    ensures ReadTrainingSpec(calcdir, Some(lines), toFloat) == Err(Exit(NotFoundMessage))
  {
    ScanTakesLastHeader(Tail(lines), |Tail(lines)|);
  }

  // ---------------------------------------------------------------------------
  // Round trip with the table the training run writes

  /** The number printed for `x` is one word without `&` that `float()` accepts. */
  predicate Readable(fixed: real -> string, toFloat: string -> Option<real>, x: real)
  {
    IsToken(fixed(x)) && '&' !in fixed(x) && toFloat(fixed(x)).Some?
  }

  function ReadValue(fixed: real -> string, toFloat: string -> Option<real>, x: real): real
    requires Readable(fixed, toFloat, x)
  {
    toFloat(fixed(x)).value
  }

  /** The values of a row as read back. */
  function ReadValues(fixed: real -> string, toFloat: string -> Option<real>, xs: seq<real>)
    : (r: seq<real>)
    requires forall k :: 0 <= k < |xs| ==> Readable(fixed, toFloat, xs[k])
    ensures |r| == |xs|
    ensures forall k :: 0 <= k < |xs| ==> r[k] == ReadValue(fixed, toFloat, xs[k])
  {
    if xs == [] then [] else [ReadValue(fixed, toFloat, xs[0])] + ReadValues(fixed, toFloat, xs[1..])
  }

  /** The metrics as read back: each value is the number its printed form denotes. */
  function Reread(fixed: real -> string, toFloat: string -> Option<real>, m: Metrics): Metrics
    requires forall x | x in MetricValues(m) :: Readable(fixed, toFloat, x)
  {
    Metrics(ReadValue(fixed, toFloat, m.e1), ReadValue(fixed, toFloat, m.g1),
            ReadValue(fixed, toFloat, m.n1), ReadValue(fixed, toFloat, m.s1),
            ReadValue(fixed, toFloat, m.e2), ReadValue(fixed, toFloat, m.g2),
            ReadValue(fixed, toFloat, m.n2), ReadValue(fixed, toFloat, m.s2))
  }

  lemma NoHeaderWithoutAmpersand(line: string)
    requires '&' !in line
    ensures !Contains(line, Header)
  {
    if Contains(line, Header) {
      ContainsChars(line, Header, '&');
    }
  }

  lemma RowHasNoHeader(fixed: real -> string, xs: seq<real>)
    requires forall k :: 0 <= k < |xs| ==> '&' !in fixed(xs[k])
    ensures !Contains(Row(fixed, xs), Header)
  {
    if '&' in Row(fixed, xs) {
      assert '&' in Cells(fixed, xs);
      CellsChars(fixed, xs, '&');
    }
    NoHeaderWithoutAmpersand(Row(fixed, xs));
  }

  lemma RowParses(fixed: real -> string, toFloat: string -> Option<real>, xs: seq<real>)
    requires forall k :: 0 <= k < |xs| ==> Readable(fixed, toFloat, xs[k])
    ensures ParseFloats(SplitWs(Row(fixed, xs)), toFloat) == Ok(ReadValues(fixed, toFloat, xs))
  {
    SplitRow(fixed, xs);
    var words := SplitWs(Row(fixed, xs));
    var r := ParseFloats(words, toFloat);
    assert r.value == ReadValues(fixed, toFloat, xs);
  }

  lemma RuleHasNoHeader()
    ensures !Contains(TableRule, Header)
  {
    NoHeaderWithoutAmpersand(TableRule);
  }

  lemma NamesHaveNoHeader()
    ensures !Contains(TableNames, Header)
  {
    assert '&' !in Spaces(6) && '&' !in Spaces(7) && '&' !in Spaces(10);
    NoHeaderWithoutAmpersand(TableNames);
  }

  lemma UnitsHaveNoHeader()
    ensures !Contains(TableUnits, Header)
  {
    assert '&' !in Spaces(8) && '&' !in Spaces(9) && '&' !in Spaces(11);
    NoHeaderWithoutAmpersand(TableUnits);
  }

  /** A header with five lines after it and no header below it yields those rows. */
  lemma {:induction false} ScanFindsRows(tail: seq<string>, h: nat)
    requires h + 5 < |tail| && Contains(tail[h], Header)
    requires forall j :: h < j < |tail| ==> !Contains(tail[j], Header)
    ensures ScanTail(tail, |tail|) == Ok(Rows(tail[h + 4], tail[h + 5]))
  {
    LastContainingIs(tail, |tail|, h);
    ScanTakesLastHeader(tail, |tail|);
  }

  lemma {:induction false} LastContainingIs(tail: seq<string>, k: nat, h: nat)
    requires h < k <= |tail| && Contains(tail[h], Header)
    requires forall j :: h < j < k ==> !Contains(tail[j], Header)
    ensures LastContaining(tail, k, Header) == Some(h)
  {
    if k - 1 != h {
      LastContainingIs(tail, k - 1, h);
    }
  }

  /** In such a log the scan stops at the table's header and takes its two rows. */
  /** No line of the table below its header carries the header text. */
  lemma LaterTableLinesHaveNoHeader(fixed: real -> string, m: Metrics, i: nat)
    requires 1 < i < 8
    requires forall x | x in MetricValues(m) :: '&' !in fixed(x)
    ensures !Contains(TableLines(fixed, m)[i], Header)
  {
    var t := TableLines(fixed, m);
    if i == 2 {
      RuleHasNoHeader();
    } else if i == 3 {
      NamesHaveNoHeader();
    } else if i == 4 {
      UnitsHaveNoHeader();
    } else if i == 5 {
      RowHasNoHeader(fixed, [m.e1, m.g1, m.n1, m.s1]);
    } else if i == 6 {
      RowHasNoHeader(fixed, [m.e2, m.g2, m.n2, m.s2]);
    } else {
      NoHeaderWithoutAmpersand(t[i]);
    }
  }

  lemma TableRowsAreScanned(pre: seq<string>, m: Metrics, endline: string,
                            fixed: real -> string)
    requires |pre| <= 1 && '&' !in endline
    requires forall x | x in MetricValues(m) :: '&' !in fixed(x)
    ensures var tail := pre + TableLines(fixed, m) + [endline];
            ScanTail(tail, |tail|) == Ok(Rows(Row(fixed, [m.e1, m.g1, m.n1, m.s1]),
                                              Row(fixed, [m.e2, m.g2, m.n2, m.s2])))
  {
    var tail := pre + TableLines(fixed, m) + [endline];
    var h := |pre| + 1;
    var row1 := [m.e1, m.g1, m.n1, m.s1];
    var row2 := [m.e2, m.g2, m.n2, m.s2];
    assert tail[h] == "  " + Header + "" by {
      assert tail[h] == TableHeader;
      assert "  " + Header + "" == "  " + Header;
    }
    ContainsAfter("  ", Header, "");
    forall j | h < j < |tail|
      ensures !Contains(tail[j], Header)
    {
      if j < |tail| - 1 {
        assert tail[j] == TableLines(fixed, m)[j - |pre|];
        LaterTableLinesHaveNoHeader(fixed, m, j - |pre|);
      } else {
        NoHeaderWithoutAmpersand(endline);
      }
    }
    ScanFindsRows(tail, h);
  }

  /** The tail of a log that ends with the table and the closing line. */
  lemma TailOfTrainingLog(before: seq<string>, table: seq<string>, endline: string)
    requires |table| == 8
    ensures var pre := if before == [] then [] else [before[|before| - 1]];
            Tail(before + table + [endline]) == pre + table + [endline]
  {
    var log := before + table + [endline];
    if before != [] {
      assert log[|log| - 10..] == [before[|before| - 1]] + table + [endline];
    }
  }

  /** A training log that ends with the validation table and the closing line
      reads back as the printed metrics: every value comes back as the number its
      `%12.8f` text denotes, and exactly when that text is exact. */
  lemma ReadsBackValidationTable(calcdir: string, before: seq<string>, m: Metrics,
                                 endline: string, fixed: real -> string,
                                 toFloat: string -> Option<real>)
    requires '&' !in endline
    requires forall x | x in MetricValues(m) :: Readable(fixed, toFloat, x)
    ensures ReadTrainingSpec(calcdir, Some(before + TableLines(fixed, m) + [endline]), toFloat)
         == Ok(Found(calcdir, Reread(fixed, toFloat, m)))
    ensures (forall x | x in MetricValues(m) :: toFloat(fixed(x)) == Some(x)) ==>
              ReadTrainingSpec(calcdir, Some(before + TableLines(fixed, m) + [endline]), toFloat)
              == Ok(Found(calcdir, m))
  {
    LogReachesRows(calcdir, before, m, endline, fixed, toFloat);
    RowsParseBack(calcdir, m, fixed, toFloat);
  }

  lemma LogReachesRows(calcdir: string, before: seq<string>, m: Metrics, endline: string,
                       fixed: real -> string, toFloat: string -> Option<real>)
    requires '&' !in endline
    requires forall x | x in MetricValues(m) :: '&' !in fixed(x)
    ensures ReadTrainingSpec(calcdir, Some(before + TableLines(fixed, m) + [endline]), toFloat)
         == ParseRows(calcdir, Row(fixed, [m.e1, m.g1, m.n1, m.s1]),
                      Row(fixed, [m.e2, m.g2, m.n2, m.s2]), toFloat)
  {
    var table := TableLines(fixed, m);
    var pre := if before == [] then [] else [before[|before| - 1]];
    var tail := pre + table + [endline];
    TailOfTrainingLog(before, table, endline);
    TableRowsAreScanned(pre, m, endline, fixed);
    var row1 := Row(fixed, [m.e1, m.g1, m.n1, m.s1]);
    var row2 := Row(fixed, [m.e2, m.g2, m.n2, m.s2]);
    assert ScanTail(tail, |tail|) == Ok(Rows(row1, row2));
    assert row1 != "" && row2 != "";
  }

  lemma RowsParseBack(calcdir: string, m: Metrics, fixed: real -> string,
                      toFloat: string -> Option<real>)
    requires forall x | x in MetricValues(m) :: Readable(fixed, toFloat, x)
    ensures ParseRows(calcdir, Row(fixed, [m.e1, m.g1, m.n1, m.s1]),
                      Row(fixed, [m.e2, m.g2, m.n2, m.s2]), toFloat)
         == Ok(Found(calcdir, Reread(fixed, toFloat, m)))
  {
    RowParses(fixed, toFloat, [m.e1, m.g1, m.n1, m.s1]);
    RowParses(fixed, toFloat, [m.e2, m.g2, m.n2, m.s2]);
  }

  // ---------------------------------------------------------------------------
  // The trainer

  /** What `train` returns: the read metrics plus the elapsed time. */
  datatype TrainReport = TrainReport(result: TrainingMetrics, time: real, walltime: string)

  class RemoteTrain {
    var keywords: Keywords
    var title: string
    var useHpc: int
    var retrieve: int
    var calcdir: string
    var runscript: string

    /** Keeps a shallow copy of the keywords: the `control` dictionary is the
        caller's, so setting its job type to `train` changes the caller's too. */
    constructor (keywords: Keywords, cwd: string, id: Option<JobId>)
      modifies keywords.control
      ensures this.keywords == keywords
      ensures keywords.control.jobtype == "train"
      ensures keywords.control.title == old(keywords.control.title)
      ensures title == keywords.control.title
      ensures useHpc == keywords.useHpc && retrieve == keywords.retrieve
      ensures calcdir == CalcDir(cwd, title, id) && runscript == RunScript(calcdir)
    {
      this.keywords := keywords;
      title := keywords.control.title;
      useHpc := keywords.useHpc;
      retrieve := keywords.retrieve;
      calcdir := CalcDir(cwd, keywords.control.title, id);
      runscript := RunScript(CalcDir(cwd, keywords.control.title, id));
      new;
      keywords.control.jobtype := "train";
    }

    /** `train`: sets up and launches the run unless only retrieving (returning the
        command launched), then reads the log and adds the timing. A missing batch
        template ends an HPC launch. */
    method Train(slurmTemplate: Option<string>, log: Option<seq<string>>, start: real, end: real,
                 howLong: (real, real) -> string, toFloat: string -> Option<real>)
      returns (r: Result<TrainReport, TrainError>, launched: Option<seq<string>>)
      ensures launched.Some? <==> retrieve == 0 && !(useHpc == 1 && slurmTemplate.None?)
      ensures launched.Some? ==> launched.value == LaunchCommand(calcdir, title, useHpc)
      ensures retrieve == 0 && useHpc == 1 && slurmTemplate.None? ==>
                r == Err(Exit("\n  FileNotFoundError\n  PyRAI2MD: looking for submission file " +
                              title + ".slurm"))
      ensures !(retrieve == 0 && useHpc == 1 && slurmTemplate.None?) ==>
                match ReadTrainingSpec(calcdir, log, toFloat)
                case Err(e) => r == Err(e)
                case Ok(t) => r == Ok(TrainReport(t, end - start, howLong(start, end)))
    {
      launched := None;
      if retrieve == 0 {
        if useHpc == 1 && slurmTemplate.None? {
          r := Err(Exit("\n  FileNotFoundError\n  PyRAI2MD: looking for submission file " +
                        title + ".slurm"));
          return;
        }
        launched := Some(LaunchCommand(calcdir, title, useHpc));
      }
      var metrics := ReadTraining(calcdir, log, toFloat);
      if metrics.Err? {
        r := Err(metrics.error);
        return;
      }
      r := Ok(TrainReport(metrics.value, end - start, howLong(start, end)));
    }
  }

  /** Without a log file the reader reports the folder it looked in, with
      status 0, so the caller can tell a missing run from a failed one. */
  lemma MissingLogReportsStatusZero(calcdir: string, toFloat: string -> Option<real>)
    ensures ReadTrainingSpec(calcdir, None, toFloat) == Ok(NotFound(calcdir))
    ensures Status(ReadTrainingSpec(calcdir, None, toFloat).value) == 0
  {
  }
}
