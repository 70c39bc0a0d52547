/**
 * tools/sgen.py: the earlier, single-file generator. It reads one fixed JSON
 * path; the decoded value is either a list of classes or one class, and each
 * class is generated by reopening the same `.cpp` file for writing, so the
 * file ends up holding only the last class generated.
 */
module SGen {
  import opened Base
  import opened Emit

  /** The input path, fixed in the script. */
  const InputFile: string := "/Users/tlmq/dev/coolfluid3/cf3/mesh/Mesh.s.json"

  /** `output_file(path)`: the path with its extension replaced by `.cpp`. */
  function OutputFile(path: string): string {
    StripExtension(path) + ".cpp"
  }

  /** The one file every class is generated into. */
  const OutputPath: string := "/Users/tlmq/dev/coolfluid3/cf3/mesh/Mesh.s.cpp"

  lemma OutputFileOfInput()
    ensures OutputFile(InputFile) == OutputPath
  {
    var stem := "/Users/tlmq/dev/coolfluid3/cf3/mesh/Mesh.s";
    assert InputFile == stem + "." + "json";
    StripExtensionOf(stem, "json");
    assert OutputFile(InputFile) == stem + ".cpp";
  }

  /** A decoded class: its `type` and its `signals`. */
  datatype ClassRecord = ClassRecord(typeName: string, signals: seq<SignalRecord>)

  /** What `json.load` returns: a list of classes, or a single class object. */
  datatype Decoded = ClassList(classes: seq<ClassRecord>) | SingleClass(cls: ClassRecord)

  /** The files after a run, and the exception that ended it, if any. */
  datatype Outcome = Outcome(files: map<string, string>, error: Option<GenError>)

  // ---------------------------------------------------------------------------
  // Specification

  /**
   * `gen()` for one class: the output file is truncated, then receives the
   * class's code up to the first error.
   */
  function GenSpec(files: map<string, string>, c: ClassRecord): Outcome {
    var e := ClassEmission(c.typeName, c.signals);
    Outcome(files[OutputPath := Render(e.lines)], e.error)
  }

  /** The loop over a list of classes, which stops at the first exception. */
  function RunList(files: map<string, string>, cs: seq<ClassRecord>): Outcome {
    if cs == [] then Outcome(files, None)
    else
      var before := RunList(files, cs[..|cs| - 1]);
      if before.error.Some? then before else GenSpec(before.files, cs[|cs| - 1])
  }

  /** The script's dispatch on the decoded value, with the class type taken from the class being generated. */
  function RunSpec(files: map<string, string>, d: Decoded): Outcome {
    match d
    case ClassList(cs) => RunList(files, cs)
    case SingleClass(c) => GenSpec(files, c)
  }

  // ---------------------------------------------------------------------------
  // As written: the signal heads read the class type from the module-level
  // name `cls`, which only the list branch binds (to the class being
  // generated). In the single-object branch the first signal head raises a
  // NameError after the output file has been truncated.

  function GenAsWritten(files: map<string, string>, c: ClassRecord, clsBound: bool): Outcome {
    if !clsBound && c.signals != [] then Outcome(files[OutputPath := ""], Some(NameError("cls")))
    else GenSpec(files, c)
  }

  function RunListAsWritten(files: map<string, string>, cs: seq<ClassRecord>): Outcome {
    if cs == [] then Outcome(files, None)
    else
      var before := RunListAsWritten(files, cs[..|cs| - 1]);
      if before.error.Some? then before else GenAsWritten(before.files, cs[|cs| - 1], true)
  }

  function RunAsWritten(files: map<string, string>, d: Decoded): Outcome {
    match d
    case ClassList(cs) => RunListAsWritten(files, cs)
    case SingleClass(c) => GenAsWritten(files, c, false)
  }

  /** The list branch is unaffected: there `cls` is the class being generated. */
  lemma {:induction false} AsWrittenAgreesOnLists(files: map<string, string>, cs: seq<ClassRecord>)
    ensures RunAsWritten(files, ClassList(cs)) == RunSpec(files, ClassList(cs))
    decreases |cs|
  {
    if cs != [] {
      AsWrittenAgreesOnLists(files, cs[..|cs| - 1]);
    }
  }

  /** One file holding one signal: as written it ends empty, with a NameError. */
  lemma SingleObjectNameError(files: map<string, string>)
    ensures var d := SingleClass(ClassRecord("cf3::mesh::Mesh", [SignalRecord("write_mesh", None, None, Some([]))]));
      RunAsWritten(files, d) == Outcome(files[OutputPath := ""], Some(NameError("cls"))) &&
      RunSpec(files, d).error.None? &&
      RunSpec(files, d).files[OutputPath] != ""
  {
    var c := ClassRecord("cf3::mesh::Mesh", [SignalRecord("write_mesh", None, None, Some([]))]);
    assert FirstFailing(c.signals, SignalError) == 1;
    ClassEmissionError(c.typeName, c.signals);
    var lines := ClassEmission(c.typeName, c.signals).lines;
    assert |lines| > 0;
    assert Render(lines) == Render(lines[..|lines| - 1]) + lines[|lines| - 1] + "\n";
  }

  // ---------------------------------------------------------------------------
  // The program, with the class type read from the class being generated

  /** `GenerateSignals(cls).gen()` */
  method Gen(disk: Disk, c: ClassRecord) returns (error: Option<GenError>)
    modifies disk
    ensures Outcome(disk.files, error) == GenSpec(old(disk.files), c)
  {
    var path := OutputFile(InputFile);
    OutputFileOfInput();
    var out := new Buffer();
    error := EmitClass(out, c.typeName, c.signals);
    assert out.lines == ClassEmission(c.typeName, c.signals).lines;
    disk.Write(path, Render(out.lines));
  }

  lemma RunListSnoc(files: map<string, string>, cs: seq<ClassRecord>, i: nat)
    requires i < |cs|
    ensures var before := RunList(files, cs[..i]);
      RunList(files, cs[..i + 1]) == if before.error.Some? then before else GenSpec(before.files, cs[i])
  {
    assert cs[..i + 1][..i] == cs[..i];
  }

  lemma {:induction false} RunListStops(files: map<string, string>, cs: seq<ClassRecord>, n: nat)
    requires n <= |cs| && RunList(files, cs[..n]).error.Some?
    ensures RunList(files, cs) == RunList(files, cs[..n])
    decreases |cs| - n
  {
    if n < |cs| {
      assert cs[..n + 1][..n] == cs[..n];
      RunListStops(files, cs, n + 1);
    } else {
      assert cs[..n] == cs;
    }
  }

  /** The script's top level after `json.load`. */
  method Run(disk: Disk, d: Decoded) returns (error: Option<GenError>)
    modifies disk
    ensures Outcome(disk.files, error) == RunSpec(old(disk.files), d)
  {
    match d {
      case SingleClass(c) =>
        error := Gen(disk, c);
      case ClassList(cs) =>
        var i := 0;
        error := None;
        while i < |cs|
          invariant 0 <= i <= |cs| && error.None?
          invariant Outcome(disk.files, error) == RunList(old(disk.files), cs[..i])
        {
          RunListSnoc(old(disk.files), cs, i);
          error := Gen(disk, cs[i]);
          if error.Some? {
            RunListStops(old(disk.files), cs, i + 1);
            return;
          }
          i := i + 1;
        }
        assert cs[..i] == cs;
    }
  }

  // ---------------------------------------------------------------------------
  // Properties

  /**
   * Each class truncates the same file, so once the classes before the last
   * one succeed, the file holds the last class's code alone, and no other
   * file changes.
   */
  lemma {:induction false} LastClassWins(files: map<string, string>, cs: seq<ClassRecord>)
    requires cs != [] && RunList(files, cs[..|cs| - 1]).error.None?
    ensures var last := cs[|cs| - 1];
      RunList(files, cs).files == files[OutputPath := Render(ClassEmission(last.typeName, last.signals).lines)]
  {
    var init := cs[..|cs| - 1];
    OnlyOutputChanges(files, init);
  }

  /** A run leaves every file but the output file as it was. */
  lemma {:induction false} OnlyOutputChanges(files: map<string, string>, cs: seq<ClassRecord>)
    ensures var after := RunList(files, cs).files;
      after == files || (OutputPath in after && after == files[OutputPath := after[OutputPath]])
    decreases |cs|
  {
    if cs != [] {
      OnlyOutputChanges(files, cs[..|cs| - 1]);
    }
  }

  /** The run stops with the first failing signal, in class order, as the one-file generator does. */
  lemma {:induction false} RunListError(files: map<string, string>, cs: seq<ClassRecord>)
    ensures RunList(files, cs).error == FirstFailure(cs, (c: ClassRecord) => FirstError(c.signals))
    decreases |cs|
  {
    if cs != [] {
      var n := |cs| - 1;
      RunListError(files, cs[..n]);
      FirstFailureSnoc(cs, (c: ClassRecord) => FirstError(c.signals));
      ClassEmissionError(cs[n].typeName, cs[n].signals);
    }
  }

  /** A single class object whose signals are all sound is generated whole into the output file. */
  lemma SingleObjectGenerates(files: map<string, string>, c: ClassRecord)
    requires forall i | 0 <= i < |c.signals| :: Sound(c.signals[i])
    ensures RunSpec(files, SingleClass(c)).error.None?
    ensures RunSpec(files, SingleClass(c)).files[OutputPath] == Render(ClassEmission(c.typeName, c.signals).lines)
  {
    forall i | 0 <= i < |c.signals|
      ensures SignalError(c.signals[i]).None?
    {
      SoundIffNoError(c.signals[i]);
    }
    ClassEmissionError(c.typeName, c.signals);
  }
}
