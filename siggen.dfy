/**
 * tools/siggen.py: generates the C++ signal glue of every class in a decoded
 * `.json` file into one `.cpp` file, and rewrites that file only when the
 * generated text differs from what is already there.
 */
module SigGen {
  import opened Base
  import opened Emit

  const Banner: string := "/* THIS FILE IS AUTO GENERATED by siggen.py -- DO NOT EDIT */"

  const Headers: seq<string> :=
    ["boost/assign.hpp", "cf3/common/URI.hpp", "cf3/common/Signal.hpp", "cf3/common/XML/SignalOptions.hpp"]

  const Namespaces: seq<string> := ["std", "boost::assign", "cf3", "cf3::common", "cf3::common::XML"]

  // ---------------------------------------------------------------------------
  // Names

  /** `namespace()`: the class name without its last `::` segment. */
  function Namespace(cls: string): string {
    var ns := Split(cls, "::");
    Join("::", ns[..|ns| - 1])
  }

  /** Once the split of a name is known, its namespace is every segment but the last. */
  lemma NamespaceOfParts(parts: seq<string>)
    requires |parts| >= 1 && Split(Join("::", parts), "::") == parts
    ensures Namespace(Join("::", parts)) == Join("::", parts[..|parts| - 1])
  {
  }

  /** A name made of segments free of `:` has the leading segments as its namespace. */
  lemma NamespaceOfQualified(parts: seq<string>)
    requires |parts| >= 1 && forall k | 0 <= k < |parts| :: Avoids(parts[k], ':')
    ensures Namespace(Join("::", parts)) == Join("::", parts[..|parts| - 1])
  {
    SplitJoin(parts, "::");
    NamespaceOfParts(parts);
  }

  /** A name free of `:` (so without `::`, as a C++ class name) is in the global namespace. */
  lemma NamespaceOfPlain(cls: string)
    requires Avoids(cls, ':')
    ensures Namespace(cls) == ""
  {
    SplitWhole(cls, "::");
  }

  /** The header path `header_file` computes: the `::` segments joined with `/`, plus `.hpp`. */
  function HeaderPath(cls: string): string {
    Join("/", Split(cls, "::")) + ".hpp"
  }

  /** `header_file(type)`: every segment but the last becomes a directory. */
  method HeaderFile(t: string) returns (h: string)
    ensures h == HeaderPath(t)
  {
    var ns := Split(t, "::");
    var cl := ns[|ns| - 1];
    var dirs := ns[..|ns| - 1];
    h := "";
    for i := 0 to |dirs|
      invariant h == if i == 0 then "" else Join("/", dirs[..i]) + "/"
    {
      if i > 0 {
        JoinSnoc("/", dirs[..i], dirs[i]);
      }
      PrefixSnoc(dirs, i);
      h := h + dirs[i] + "/";
    }
    assert dirs[..|dirs|] == dirs && dirs + [cl] == ns;
    if |dirs| > 0 {
      JoinSnoc("/", dirs, cl);
    }
    h := h + cl + ".hpp";
  }

  /** `a::b::C` gives `a/b/C.hpp`. */
  lemma HeaderOfQualified(parts: seq<string>)
    requires |parts| >= 1 && forall k | 0 <= k < |parts| :: Avoids(parts[k], ':')
    ensures HeaderPath(Join("::", parts)) == Join("/", parts) + ".hpp"
  {
    SplitJoin(parts, "::");
  }

  // ---------------------------------------------------------------------------
  // The text

  /** The lines `gen` writes before the shared class body. */
  function ClassPreamble(cls: string): seq<string> {
    ["#include \"" + HeaderPath(cls) + "\"", "", "using namespace " + Namespace(cls) + ";", ""]
  }

  /** What `gen` writes for one class, up to the first error; a finished class ends with an empty line. */
  function ClassLines(cls: string, sigs: seq<SignalRecord>): Emission {
    var body := ClassEmission(cls, sigs);
    Emission(ClassPreamble(cls) + body.lines + (if body.error.None? then [""] else []), body.error)
  }

  /** The banner, the includes and the `using` directives `main` writes first. */
  function Prelude(): seq<string> {
    [Banner, ""] +
    seq(|Headers|, i requires 0 <= i < |Headers| => "#include \"" + Headers[i] + "\"") + [""] +
    seq(|Namespaces|, i requires 0 <= i < |Namespaces| => "using namespace " + Namespaces[i] + ";") + [""]
  }

  /** The decoded file: its classes in the order the dictionary yields them. */
  type Decoded = seq<(string, seq<SignalRecord>)>

  /** The classes' code after the prelude, up to the first error. */
  function ClassesLines(classes: Decoded): Emission {
    if classes == [] then Emission([], None)
    else
      var before := ClassesLines(classes[..|classes| - 1]);
      if before.error.Some? then before
      else
        var (cls, sigs) := classes[|classes| - 1];
        var last := ClassLines(cls, sigs);
        Emission(before.lines + last.lines, last.error)
  }

  function Output(classes: Decoded): Emission {
    var body := ClassesLines(classes);
    Emission(Prelude() + body.lines, body.error)
  }

  /** `-o` when given, else the input path with its extension replaced by `.cpp`. */
  function OutputPath(ifile: string, ofile: string): string {
    if ofile == "" then StripExtension(ifile) + ".cpp" else ofile
  }

  /** The write-if-changed rule: a missing file, or one whose digest differs. */
  predicate ShouldWrite(files: map<string, string>, path: string, text: string) {
    path !in files || files[path] != text
  }

  /** The files after `main` has decided whether to write `text` to `path`. */
  function Written(files: map<string, string>, path: string, text: string, dryRun: bool): map<string, string> {
    if ShouldWrite(files, path, text) && !dryRun then files[path := text] else files
  }

  // ---------------------------------------------------------------------------
  // The program

  /** `GenerateSignals(cls, decl).gen(out)` */
  method Gen(out: Buffer, cls: string, sigs: seq<SignalRecord>) returns (error: Option<GenError>)
    modifies out
    ensures error == ClassLines(cls, sigs).error
    ensures out.lines == old(out.lines) + ClassLines(cls, sigs).lines
  {
    var header := HeaderFile(cls);
    var preamble := ["#include \"" + header + "\"", "", "using namespace " + Namespace(cls) + ";", ""];
    WriteLines(out, preamble);
    ghost var start := out.lines;
    error := EmitClass(out, cls, sigs);
    ghost var body := ClassEmission(cls, sigs);
    if error.None? {
      out.Write("");
      ConcatAssoc(start, body.lines, [""]);
    } else {
      assert body.lines + [] == body.lines;
    }
    ConcatAssoc(old(out.lines), preamble, body.lines + (if body.error.None? then [""] else []));
  }

  lemma ClassesLinesSnoc(classes: Decoded, i: nat)
    requires i < |classes|
    ensures var before := ClassesLines(classes[..i]);
      var last := ClassLines(classes[i].0, classes[i].1);
      ClassesLines(classes[..i + 1]) ==
        if before.error.Some? then before else Emission(before.lines + last.lines, last.error)
  {
    assert classes[..i + 1][..i] == classes[..i];
  }

  lemma {:induction false} ClassesLinesStop(classes: Decoded, n: nat)
    requires n <= |classes| && ClassesLines(classes[..n]).error.Some?
    ensures ClassesLines(classes) == ClassesLines(classes[..n])
    decreases |classes| - n
  {
    if n < |classes| {
      assert classes[..n + 1][..n] == classes[..n];
      ClassesLinesStop(classes, n + 1);
    } else {
      assert classes[..n] == classes;
    }
  }

  /** The banner, the includes and the `using` directives. */
  method WritePrelude(out: Buffer)
    modifies out
    ensures out.lines == old(out.lines) + Prelude()
  {
    var lines := [Banner, ""];
    for i := 0 to |Headers|
      invariant lines == [Banner, ""] + seq(i, k requires 0 <= k < i => "#include \"" + Headers[k] + "\"")
    {
      lines := lines + ["#include \"" + Headers[i] + "\""];
    }
    lines := lines + [""];
    ghost var includes := lines;
    for i := 0 to |Namespaces|
      invariant lines == includes + seq(i, k requires 0 <= k < i => "using namespace " + Namespaces[k] + ";")
    {
      lines := lines + ["using namespace " + Namespaces[i] + ";"];
    }
    lines := lines + [""];
    WriteLines(out, lines);
  }

  /** The loop of `main` over the decoded classes, which stops at the first exception. */
  method GenClasses(out: Buffer, classes: Decoded) returns (error: Option<GenError>)
    modifies out
    ensures error == ClassesLines(classes).error
    ensures out.lines == old(out.lines) + ClassesLines(classes).lines
  {
    var i := 0;
    error := None;
    while i < |classes|
      invariant 0 <= i <= |classes|
      invariant error.None? && ClassesLines(classes[..i]).error.None?
      invariant out.lines == old(out.lines) + ClassesLines(classes[..i]).lines
    {
      var (cls, sigs) := classes[i];
      error := Gen(out, cls, sigs);
      ClassesLinesSnoc(classes, i);
      ConcatAssoc(old(out.lines), ClassesLines(classes[..i]).lines, ClassLines(cls, sigs).lines);
      if error.Some? {
        ClassesLinesStop(classes, i + 1);
        return;
      }
      i := i + 1;
    }
    assert classes[..i] == classes;
  }

  /** The text `main` builds in its string buffer: the prelude, then every class, up to the first exception. */
  method Generate(classes: Decoded) returns (error: Option<GenError>, text: string)
    ensures error == Output(classes).error
    ensures error.None? ==> text == Render(Output(classes).lines)
  {
    var out := new Buffer();
    WritePrelude(out);
    ghost var prelude := out.lines;
    assert prelude == Prelude();
    error := GenClasses(out, classes);
    assert out.lines == prelude + ClassesLines(classes).lines;
    text := Render(out.lines);
  }

  /** The tail of `main`: write `text` to `path` when the file is missing or differs, unless this is a dry run. */
  method WriteIfChanged(disk: Disk, path: string, text: string, dryRun: bool)
    modifies disk
    ensures disk.files == Written(old(disk.files), path, text, dryRun)
  {
    var doWrite := false;
    if path in disk.files {
      if disk.files[path] != text {
        doWrite := true;
      }
    } else {
      doWrite := true;
    }
    if doWrite && !dryRun {
      disk.Write(path, text);
    }
  }

  /**
   * `main` after option parsing and `json.load`: generates every class into
   * one buffer and, unless an error ends the script first, writes the buffer
   * to the output path when the file is missing or its text differs, and the
   * run is not a dry run.
   */
  method Run(disk: Disk, ifile: string, ofile: string, dryRun: bool, classes: Decoded) returns (error: Option<GenError>)
    modifies disk
    ensures error == Output(classes).error
    ensures error.Some? ==> disk.files == old(disk.files)
    ensures error.None? ==>
      disk.files == Written(old(disk.files), OutputPath(ifile, ofile), Render(Output(classes).lines), dryRun)
  {
    var path := if ofile == "" then StripExtension(ifile) + ".cpp" else ofile;
    var text;
    error, text := Generate(classes);
    if error.Some? {
      return;
    }
    WriteIfChanged(disk, path, text, dryRun);
  }

  // ---------------------------------------------------------------------------
  // Properties

  /** The generated text stops at the first signal, in class order, that cannot be generated. */
  lemma {:induction false} OutputError(classes: Decoded)
    ensures Output(classes).error == FirstFailure(classes, (c: (string, seq<SignalRecord>)) => FirstError(c.1))
    decreases |classes|
  {
    var f := (c: (string, seq<SignalRecord>)) => FirstError(c.1);
    if classes != [] {
      var n := |classes| - 1;
      OutputError(classes[..n]);
      FirstFailureSnoc(classes, f);
      ClassEmissionError(classes[n].0, classes[n].1);
    }
  }

  /** After a run that is not a dry run, the output file holds the generated text. */
  lemma WrittenHoldsText(files: map<string, string>, path: string, text: string)
    ensures path in Written(files, path, text, false) && Written(files, path, text, false)[path] == text
  {
  }

  /** A second identical run writes nothing, and no run touches another file. */
  lemma WrittenIdempotent(files: map<string, string>, path: string, text: string, dryRun: bool)
    ensures Written(Written(files, path, text, dryRun), path, text, dryRun) == Written(files, path, text, dryRun)
    ensures forall p | p != path :: (p in Written(files, path, text, dryRun) <==> p in files)
    ensures forall p | p != path && p in files :: Written(files, path, text, dryRun)[p] == files[p]
  {
  }

  /** Without `-o`, `X.json` is generated into `X.cpp`. */
  lemma DefaultOutputPath(stem: string)
    requires |stem| > 0 && stem[|stem| - 1] != '.' && stem[|stem| - 1] != '/'
    ensures OutputPath(stem + ".json", "") == stem + ".cpp"
  {
    assert stem + ".json" == stem + "." + "json";
    StripExtensionOf(stem, "json");
  }
}
