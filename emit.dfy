/**
 * The C++ text both generators emit for one class (`GenerateSignals.gen` of
 * tools/siggen.py and tools/sgen.py, which share it line for line): for each
 * signal a `signal_<name>` function that unpacks the arguments and calls the
 * member function, and a `signature_<name>` function that declares them with
 * their defaults; then one `generate_signals()` registration block.
 *
 * Output is a sequence of lines; the text is `Render` of it. A generator
 * stops at the first key it cannot find, after the lines written so far, so
 * the emission is specified together with the error that ends it.
 */
module Emit {
  import opened Base
  import opened SigTypes

  // ---------------------------------------------------------------------------
  // The records the generators read (the decoded JSON)

  /** A default: a JSON string, or a JSON list of strings. */
  datatype DefaultValue = Text(text: string) | Items(items: seq<string>)

  /** One argument; a missing key is None. */
  datatype ArgRecord = ArgRecord(name: string, kind: Option<string>, desc: Option<string>, value: Option<DefaultValue>)

  /** One signal; a missing key is None. */
  datatype SignalRecord = SignalRecord(name: string, desc: Option<string>, pretty: Option<string>, args: Option<seq<ArgRecord>>)

  /** The exceptions that end a generator. */
  datatype GenError =
    | KeyError(key: string)     // a missing `args` or `type` key, or a kind not in `totypes`
    | ListDefault(arg: string)  // a list default for a scalar kind
    | NameError(name: string)   // an unbound variable

  // ---------------------------------------------------------------------------
  // quote_value and its inverse

  const UriOpen: string := "cf3::common::URI(\""

  /** `quote_value`: a default as a C++ literal of the kind. */
  function QuoteValue(kind: string, v: string): string {
    if kind == "uri" then UriOpen + v + "\")"
    else if kind == "string" then "\"" + v + "\""
    else v
  }

  /** Reads a literal back: None when it is not one `QuoteValue` makes for the kind. */
  function UnquoteValue(kind: string, q: string): Option<string> {
    if kind == "uri" then
      if |q| >= |UriOpen| + 2 && q[..|UriOpen|] == UriOpen && q[|q| - 2..] == "\")"
      then Some(q[|UriOpen|..|q| - 2]) else None
    else if kind == "string" then
      if |q| >= 2 && q[0] == '"' && q[|q| - 1] == '"' then Some(q[1..|q| - 1]) else None
    else Some(q)
  }

  lemma QuoteUnquote(kind: string, v: string)
    ensures UnquoteValue(kind, QuoteValue(kind, v)) == Some(v)
  {
    var q := QuoteValue(kind, v);
    if kind == "uri" {
      assert q[..|UriOpen|] == UriOpen && q[|q| - 2..] == "\")" && q[|UriOpen|..|q| - 2] == v;
    } else if kind == "string" {
      assert q[1..|q| - 1] == v;
    }
  }

  lemma UnquoteQuote(kind: string, q: string)
    requires UnquoteValue(kind, q).Some?
    ensures QuoteValue(kind, UnquoteValue(kind, q).value) == q
  {
    if kind == "uri" {
      assert q == q[..|UriOpen|] + q[|UriOpen|..|q| - 2] + q[|q| - 2..];
    } else if kind == "string" {
      assert q == [q[0]] + q[1..|q| - 1] + [q[|q| - 1]];
    }
  }

  /** The elements of a default: a list's items, or a string's characters (Python iterates a string). */
  function DefaultItems(v: DefaultValue): (r: seq<string>)
    ensures v.Items? ==> r == v.items
    ensures v.Text? ==> |r| == |v.text| && forall i | 0 <= i < |r| :: r[i] == [v.text[i]]
  {
    match v
    case Items(xs) => xs
    case Text(t) => seq(|t|, i requires 0 <= i < |t| => [t[i]])
  }

  /** A string default iterates as one-character items which, joined back, give the string. */
  lemma {:induction false} TextItems(t: string)
    ensures var items := DefaultItems(Text(t));
      (forall i | 0 <= i < |items| :: |items[i]| == 1) && Join("", items) == t
    decreases |t|
  {
    if |t| >= 2 {
      var items := DefaultItems(Text(t));
      TextItems(t[1..]);
      assert items[1..] == DefaultItems(Text(t[1..]));
      assert t == [t[0]] + t[1..];
    } else if |t| == 1 {
      assert t == [t[0]];
    }
  }

  function QuotedItems(kind: string, xs: seq<string>): (r: seq<string>)
    ensures |r| == |xs| && forall i | 0 <= i < |r| :: r[i] == QuoteValue(kind, xs[i])
  {
    seq(|xs|, i requires 0 <= i < |xs| => QuoteValue(kind, xs[i]))
  }

  // ---------------------------------------------------------------------------
  // Where generation fails

  /** `totypes[arg['type']]` */
  function ArgTypeError(a: ArgRecord): Option<GenError> {
    match a.kind
    case None => Some(KeyError("type"))
    case Some(k) => if k in ToCppTypes then None else Some(KeyError(k))
  }

  predicate Typed(a: ArgRecord) {
    a.kind.Some? && a.kind.value in ToCppTypes
  }

  /** A default only fails as a list for a scalar kind. */
  function ArgValueError(a: ArgRecord): Option<GenError> {
    if a.kind.Some? && a.value.Some? && a.value.value.Items? && !IsArrayKind(a.kind.value)
    then Some(ListDefault(a.name)) else None
  }

  /**
   * The error a signal raises: a missing argument list, else the first
   * argument without a known type (the `signal_` function reads them all),
   * else the first bad default (the `signature_` function comes second).
   */
  function SignalError(sig: SignalRecord): Option<GenError> {
    match sig.args
    case None => Some(KeyError("args"))
    case Some(args) =>
      var t := FirstFailure(args, ArgTypeError);
      if t.Some? then t else FirstFailure(args, ArgValueError)
  }

  function FirstError(sigs: seq<SignalRecord>): Option<GenError> {
    FirstFailure(sigs, SignalError)
  }

  /** A signal with an argument list, every argument of a known kind and no list default for a scalar. */
  predicate Sound(sig: SignalRecord) {
    sig.args.Some? &&
    forall i | 0 <= i < |sig.args.value| :: Typed(sig.args.value[i]) && ArgValueError(sig.args.value[i]).None?
  }

  lemma SoundIffNoError(sig: SignalRecord)
    ensures Sound(sig) <==> SignalError(sig).None?
  {
    if sig.args.Some? {
      var args := sig.args.value;
      var t := FirstFailing(args, ArgTypeError);
      var v := FirstFailing(args, ArgValueError);
      if t < |args| {
        assert !Typed(args[t]);
      } else if v < |args| {
        assert ArgValueError(args[v]).Some?;
      }
    }
  }

  // ---------------------------------------------------------------------------
  // The lines

  function CppType(a: ArgRecord): string
    requires Typed(a)
  {
    ToCppTypes[a.kind.value]
  }

  /** The first four lines of a `signal_` (fn == "signal_") or `signature_` function. */
  function Opening(fn: string, name: string, cls: string): seq<string> {
    ["static void " + fn + name + " ( " + cls + " * self, SignalArgs& node )", "{", "  SignalOptions options( node );", ""]
  }

  function ValueLine(a: ArgRecord): string
    requires Typed(a)
  {
    "  " + CppType(a) + " " + a.name + " = options.value< " + CppType(a) + " >(\"" + a.name + "\");"
  }

  function ValueLines(args: seq<ArgRecord>): (r: seq<string>)
    requires forall i | 0 <= i < |args| :: Typed(args[i])
    ensures |r| == |args| && forall i | 0 <= i < |r| :: r[i] == ValueLine(args[i])
  {
    seq(|args|, i requires 0 <= i < |args| && Typed(args[i]) => ValueLine(args[i]))
  }

  function Names(args: seq<ArgRecord>): (r: seq<string>)
    ensures |r| == |args| && forall i | 0 <= i < |r| :: r[i] == args[i].name
  {
    seq(|args|, i requires 0 <= i < |args| => args[i].name)
  }

  function CallLine(name: string, args: seq<ArgRecord>): string {
    "  self->" + name + "(" + Join(",", Names(args)) + ");"
  }

  function DeclLine(a: ArgRecord): string
    requires Typed(a)
  {
    "  " + CppType(a) + " " + a.name + ";"
  }

  /** `name = literal;` for a scalar default, `name += literal, ...;` for an array default, nothing without one. */
  function DefaultLines(a: ArgRecord): seq<string>
    requires Typed(a) && ArgValueError(a).None?
  {
    match a.value
    case None => []
    case Some(v) =>
      var k := a.kind.value;
      if !IsArrayKind(k) then ["  " + a.name + " = " + QuoteValue(k, v.text) + ";"]
      else ["  " + a.name + " += " + Join(", ", QuotedItems(ElementKind(k), DefaultItems(v))) + ";"]
  }

  function AddLine(a: ArgRecord): string {
    "  options.add(\"" + a.name + "\" , " + a.name + " ).description(\"" + a.desc.GetOr("") + "\");"
  }

  function ArgBlock(a: ArgRecord): seq<string>
    requires Typed(a) && ArgValueError(a).None?
  {
    [DeclLine(a)] + DefaultLines(a) + [AddLine(a), ""]
  }

  function ArgBlocks(args: seq<ArgRecord>): seq<string>
    requires forall i | 0 <= i < |args| :: Typed(args[i]) && ArgValueError(args[i]).None?
  {
    if args == [] then [] else ArgBlocks(args[..|args| - 1]) + ArgBlock(args[|args| - 1])
  }

  function SignalFunction(cls: string, name: string, args: seq<ArgRecord>): seq<string>
    requires forall i | 0 <= i < |args| :: Typed(args[i])
  {
    Opening("signal_", name, cls) + ValueLines(args) + [CallLine(name, args), "}", ""]
  }

  function SignatureFunction(cls: string, name: string, args: seq<ArgRecord>): seq<string>
    requires forall i | 0 <= i < |args| :: Typed(args[i]) && ArgValueError(args[i]).None?
  {
    Opening("signature_", name, cls) + ArgBlocks(args) + ["}", ""]
  }

  function RegistLine(name: string): string {
    "    regist_signal(\"" + name + "\")"
  }

  /** The indentation of the chained calls after `regist_signal`. */
  const Chained: string := "        "

  function RegistBlock(sig: SignalRecord): seq<string> {
    [ RegistLine(sig.name),
      Chained + (".description(\"" + sig.desc.GetOr("") + "\")"),
      Chained + (".pretty_name(\"" + sig.pretty.GetOr("") + "\")"),
      Chained + (".connect( boost::bind ( signal_" + sig.name + ", this, _1 ) )"),
      Chained + (".signature( boost::bind ( signature_" + sig.name + ", this, _1 ) );"),
      "" ]
  }

  function RegistBlocks(sigs: seq<SignalRecord>): seq<string> {
    if sigs == [] then [] else RegistBlocks(sigs[..|sigs| - 1]) + RegistBlock(sigs[|sigs| - 1])
  }

  function RegistrationOpening(cls: string): seq<string> {
    ["void " + cls + "::generate_signals()", "{", ""]
  }

  // ---------------------------------------------------------------------------
  // What is emitted, up to the first error

  datatype Emission = Emission(lines: seq<string>, error: Option<GenError>)

  /** The `signal_` function, up to the first argument without a known type. */
  function SignalFnEmission(cls: string, name: string, args: seq<ArgRecord>): Emission {
    var t := FirstFailing(args, ArgTypeError);
    if t < |args| then Emission(Opening("signal_", name, cls) + ValueLines(args[..t]), ArgTypeError(args[t]))
    else Emission(SignalFunction(cls, name, args), None)
  }

  /** The `signature_` function, up to the first bad default. */
  function SignatureFnEmission(cls: string, name: string, args: seq<ArgRecord>): Emission
    requires forall i | 0 <= i < |args| :: Typed(args[i])
  {
    var v := FirstFailing(args, ArgValueError);
    if v < |args| then
      Emission(Opening("signature_", name, cls) + ArgBlocks(args[..v]) + [DeclLine(args[v])], ArgValueError(args[v]))
    else Emission(SignatureFunction(cls, name, args), None)
  }

  /** The lines written for one signal, and the error that stops them. */
  function SignalEmission(cls: string, sig: SignalRecord): Emission {
    match sig.args
    case None => Emission(Opening("signal_", sig.name, cls), Some(KeyError("args")))
    case Some(args) =>
      var first := SignalFnEmission(cls, sig.name, args);
      if first.error.Some? then first
      else
        var second := SignatureFnEmission(cls, sig.name, args);
        Emission(first.lines + second.lines, second.error)
  }

  /** The signal functions of the signals in order, up to the first error. */
  function SignalsEmission(cls: string, sigs: seq<SignalRecord>): Emission {
    if sigs == [] then Emission([], None)
    else
      var before := SignalsEmission(cls, sigs[..|sigs| - 1]);
      if before.error.Some? then before
      else
        var last := SignalEmission(cls, sigs[|sigs| - 1]);
        Emission(before.lines + last.lines, last.error)
  }

  /** `gen` for one class: the signal functions, then the registration block. */
  function ClassEmission(cls: string, sigs: seq<SignalRecord>): Emission {
    var body := SignalsEmission(cls, sigs);
    if body.error.Some? then body
    else Emission(body.lines + RegistrationOpening(cls) + RegistBlocks(sigs) + ["}"], None)
  }

  // ---------------------------------------------------------------------------
  // The writer

  /** An output stream written line by line; its text is `Render(lines)`. */
  class Buffer {
    var lines: seq<string>

    constructor ()
      ensures lines == []
    {
      lines := [];
    }

    /** `out.write(line + "\n")` */
    method Write(line: string)
      modifies this
      ensures lines == old(lines) + [line]
    {
      lines := lines + [line];
    }
  }

  /** Writes the lines in order. */
  method WriteLines(out: Buffer, lines: seq<string>)
    modifies out
    ensures out.lines == old(out.lines) + lines
  {
    for k := 0 to |lines|
      invariant out.lines == old(out.lines) + lines[..k]
    {
      out.Write(lines[k]);
      assert lines[..k + 1] == lines[..k] + [lines[k]];
    }
    assert lines[..|lines|] == lines;
  }

  /** The `signal_` function: one `options.value` line per argument, then the call. */
  method EmitSignalFn(out: Buffer, cls: string, name: string, args: seq<ArgRecord>) returns (error: Option<GenError>)
    modifies out
    ensures error == SignalFnEmission(cls, name, args).error
    ensures out.lines == old(out.lines) + SignalFnEmission(cls, name, args).lines
  {
    ghost var start := out.lines;
    var opening := Opening("signal_", name, cls);
    WriteLines(out, opening);
    assert opening + ValueLines(args[..0]) == opening;
    var i := 0;
    while i < |args|
      invariant 0 <= i <= |args|
      invariant forall j | 0 <= j < i :: Typed(args[j])
      invariant out.lines == start + (opening + ValueLines(args[..i]))
    {
      var a := args[i];
      if a.kind.None? {
        SignalFnStopsAt(cls, name, args, i);
        return Some(KeyError("type"));
      }
      if a.kind.value !in ToCppTypes {
        SignalFnStopsAt(cls, name, args, i);
        return Some(KeyError(a.kind.value));
      }
      ghost var done := ValueLines(args[..i]);
      out.Write(ValueLine(a));
      ValueLinesSnoc(args, i);
      ConcatAssoc(opening, done, [ValueLine(a)]);
      ConcatAssoc(start, opening + done, [ValueLine(a)]);
      i := i + 1;
    }
    assert args[..i] == args;
    WriteLines(out, [CallLine(name, args), "}", ""]);
    ConcatAssoc(start, opening + ValueLines(args), [CallLine(name, args), "}", ""]);
    SignalFnCompletes(cls, name, args);
    error := None;
  }

  lemma ValueLinesSnoc(args: seq<ArgRecord>, i: nat)
    requires i < |args| && forall j | 0 <= j <= i :: Typed(args[j])
    ensures ValueLines(args[..i + 1]) == ValueLines(args[..i]) + [ValueLine(args[i])]
  {
  }

  lemma SignalFnStopsAt(cls: string, name: string, args: seq<ArgRecord>, i: nat)
    requires i < |args| && !Typed(args[i])
    requires forall j | 0 <= j < i :: Typed(args[j])
    ensures SignalFnEmission(cls, name, args) ==
      Emission(Opening("signal_", name, cls) + ValueLines(args[..i]), ArgTypeError(args[i]))
  {
    assert FirstFailing(args, ArgTypeError) == i;
  }

  lemma SignalFnCompletes(cls: string, name: string, args: seq<ArgRecord>)
    requires forall j | 0 <= j < |args| :: Typed(args[j])
    ensures SignalFnEmission(cls, name, args) == Emission(SignalFunction(cls, name, args), None)
  {
    assert FirstFailing(args, ArgTypeError) == |args|;
  }

  /** The lines after an argument's declaration: its default, if any, and its `options.add` line. */
  method EmitArgRest(out: Buffer, a: ArgRecord) returns (error: Option<GenError>)
    requires Typed(a)
    modifies out
    ensures error == ArgValueError(a)
    ensures error.None? ==> out.lines == old(out.lines) + DefaultLines(a) + [AddLine(a), ""]
    ensures error.Some? ==> out.lines == old(out.lines)
  {
    var kind := a.kind.value;
    var rest: seq<string> := [];
    if a.value.Some? {
      var v := a.value.value;
      if !StartsWith(kind, "array") {
        if v.Items? {
          return Some(ListDefault(a.name));
        }
        rest := ["  " + a.name + " = " + QuoteValue(kind, v.text) + ";"];
      } else {
        var element := ElementKind(kind);
        rest := ["  " + a.name + " += " + Join(", ", QuotedItems(element, DefaultItems(v))) + ";"];
      }
    }
    assert rest == DefaultLines(a);
    WriteLines(out, rest + [AddLine(a), ""]);
    ConcatAssoc(old(out.lines), rest, [AddLine(a), ""]);
    error := None;
  }

  lemma ArgBlocksSnoc(args: seq<ArgRecord>, i: nat)
    requires i < |args| && forall j | 0 <= j <= i :: Typed(args[j]) && ArgValueError(args[j]).None?
    ensures ArgBlocks(args[..i + 1]) == ArgBlocks(args[..i]) + ArgBlock(args[i])
  {
    assert args[..i + 1][..i] == args[..i];
  }

  /** One argument of the `signature_` function: its declaration, then its default and its `options.add` line. */
  method EmitArg(out: Buffer, a: ArgRecord) returns (error: Option<GenError>)
    requires Typed(a)
    modifies out
    ensures error == ArgValueError(a)
    ensures error.None? ==> out.lines == old(out.lines) + ArgBlock(a)
    ensures error.Some? ==> out.lines == old(out.lines) + [DeclLine(a)]
  {
    out.Write(DeclLine(a));
    ghost var declared := out.lines;
    error := EmitArgRest(out, a);
    if error.None? {
      ConcatAssoc(old(out.lines) + [DeclLine(a)], DefaultLines(a), [AddLine(a), ""]);
      ConcatAssoc(old(out.lines), [DeclLine(a)], DefaultLines(a) + [AddLine(a), ""]);
      ConcatAssoc([DeclLine(a)], DefaultLines(a), [AddLine(a), ""]);
    }
  }

  /** The `signature_` function: per argument its declaration, its default if any, and its `options.add` line. */
  method EmitSignatureFn(out: Buffer, cls: string, name: string, args: seq<ArgRecord>) returns (error: Option<GenError>)
    requires forall i | 0 <= i < |args| :: Typed(args[i])
    modifies out
    ensures error == SignatureFnEmission(cls, name, args).error
    ensures out.lines == old(out.lines) + SignatureFnEmission(cls, name, args).lines
  {
    ghost var start := out.lines;
    var opening := Opening("signature_", name, cls);
    WriteLines(out, opening);
    ghost var blocks: seq<string> := [];
    assert opening + blocks == opening;
    var i := 0;
    while i < |args|
      invariant 0 <= i <= |args|
      invariant forall j | 0 <= j < i :: ArgValueError(args[j]).None?
      invariant blocks == ArgBlocks(args[..i])
      invariant out.lines == start + (opening + blocks)
    {
      ghost var done := opening + blocks;
      error := EmitArg(out, args[i]);
      if error.Some? {
        ConcatAssoc(start, done, [DeclLine(args[i])]);
        SignatureFnStopsAt(cls, name, args, i);
        return;
      }
      ArgBlocksSnoc(args, i);
      ConcatAssoc(start, done, ArgBlock(args[i]));
      ConcatAssoc(opening, blocks, ArgBlock(args[i]));
      blocks := blocks + ArgBlock(args[i]);
      i := i + 1;
    }
    assert args[..i] == args;
    WriteLines(out, ["}", ""]);
    ConcatAssoc(start, opening + blocks, ["}", ""]);
    SignatureFnCompletes(cls, name, args);
    error := None;
  }

  lemma SignatureFnStopsAt(cls: string, name: string, args: seq<ArgRecord>, i: nat)
    requires forall j | 0 <= j < |args| :: Typed(args[j])
    requires i < |args| && ArgValueError(args[i]).Some?
    requires forall j | 0 <= j < i :: ArgValueError(args[j]).None?
    ensures SignatureFnEmission(cls, name, args) ==
      Emission(Opening("signature_", name, cls) + ArgBlocks(args[..i]) + [DeclLine(args[i])], ArgValueError(args[i]))
  {
    assert FirstFailing(args, ArgValueError) == i;
  }

  lemma SignatureFnCompletes(cls: string, name: string, args: seq<ArgRecord>)
    requires forall j | 0 <= j < |args| :: Typed(args[j]) && ArgValueError(args[j]).None?
    ensures SignatureFnEmission(cls, name, args) == Emission(SignatureFunction(cls, name, args), None)
  {
    assert FirstFailing(args, ArgValueError) == |args|;
  }

  /** The signal and signature functions of one signal. */
  method EmitSignal(out: Buffer, cls: string, sig: SignalRecord) returns (error: Option<GenError>)
    modifies out
    ensures error == SignalEmission(cls, sig).error
    ensures out.lines == old(out.lines) + SignalEmission(cls, sig).lines
  {
    if sig.args.None? {
      WriteLines(out, Opening("signal_", sig.name, cls));
      return Some(KeyError("args"));
    }
    var args := sig.args.value;
    ghost var start := out.lines;
    ghost var first := SignalFnEmission(cls, sig.name, args);
    error := EmitSignalFn(out, cls, sig.name, args);
    if error.None? {
      ghost var middle := out.lines;
      ghost var second := SignatureFnEmission(cls, sig.name, args);
      error := EmitSignatureFn(out, cls, sig.name, args);
      assert SignalEmission(cls, sig) == Emission(first.lines + second.lines, second.error);
      ConcatAssoc(start, first.lines, second.lines);
    }
  }

  lemma SignalsEmissionSnoc(cls: string, sigs: seq<SignalRecord>, i: nat)
    requires i < |sigs|
    ensures var before := SignalsEmission(cls, sigs[..i]);
      var last := SignalEmission(cls, sigs[i]);
      SignalsEmission(cls, sigs[..i + 1]) ==
        if before.error.Some? then before else Emission(before.lines + last.lines, last.error)
  {
    assert sigs[..i + 1][..i] == sigs[..i];
  }

  /** Once a signal fails, the signals after it change nothing. */
  lemma {:induction false} SignalsEmissionStops(cls: string, sigs: seq<SignalRecord>, n: nat)
    requires n <= |sigs| && SignalsEmission(cls, sigs[..n]).error.Some?
    ensures SignalsEmission(cls, sigs) == SignalsEmission(cls, sigs[..n])
    decreases |sigs| - n
  {
    if n < |sigs| {
      assert sigs[..n + 1][..n] == sigs[..n];
      SignalsEmissionStops(cls, sigs, n + 1);
    } else {
      assert sigs[..n] == sigs;
    }
  }

  /** The `generate_signals()` block: one `regist_signal` block per signal, in order. */
  method EmitRegistration(out: Buffer, cls: string, sigs: seq<SignalRecord>)
    modifies out
    ensures out.lines == old(out.lines) + RegistrationOpening(cls) + RegistBlocks(sigs) + ["}"]
  {
    WriteLines(out, RegistrationOpening(cls));
    var j := 0;
    while j < |sigs|
      invariant 0 <= j <= |sigs|
      invariant out.lines == old(out.lines) + RegistrationOpening(cls) + RegistBlocks(sigs[..j])
    {
      WriteLines(out, RegistBlock(sigs[j]));
      assert sigs[..j + 1][..j] == sigs[..j];
      j := j + 1;
    }
    assert sigs[..j] == sigs;
    out.Write("}");
  }

  /** The loop of `gen` over the signals, which stops at the first exception. */
  method EmitSignals(out: Buffer, cls: string, sigs: seq<SignalRecord>) returns (error: Option<GenError>)
    modifies out
    ensures error == SignalsEmission(cls, sigs).error
    ensures out.lines == old(out.lines) + SignalsEmission(cls, sigs).lines
  {
    var i := 0;
    error := None;
    while i < |sigs|
      invariant 0 <= i <= |sigs| && error.None?
      invariant SignalsEmission(cls, sigs[..i]).error.None?
      invariant out.lines == old(out.lines) + SignalsEmission(cls, sigs[..i]).lines
    {
      error := EmitSignal(out, cls, sigs[i]);
      SignalsEmissionSnoc(cls, sigs, i);
      ConcatAssoc(old(out.lines), SignalsEmission(cls, sigs[..i]).lines, SignalEmission(cls, sigs[i]).lines);
      if error.Some? {
        SignalsEmissionStops(cls, sigs, i + 1);
        return;
      }
      i := i + 1;
    }
    assert sigs[..i] == sigs;
  }

  /** The body of `gen` shared by both generators: the loop over the signals, then the registration block. */
  method EmitClass(out: Buffer, cls: string, sigs: seq<SignalRecord>) returns (error: Option<GenError>)
    modifies out
    ensures error == ClassEmission(cls, sigs).error
    ensures out.lines == old(out.lines) + ClassEmission(cls, sigs).lines
  {
    error := EmitSignals(out, cls, sigs);
    if error.Some? {
      return;
    }
    ghost var body := SignalsEmission(cls, sigs).lines;
    ghost var opening := RegistrationOpening(cls);
    ghost var blocks := RegistBlocks(sigs);
    EmitRegistration(out, cls, sigs);
    ConcatAssoc(old(out.lines), body, opening);
    ConcatAssoc(old(out.lines), body + opening, blocks);
    ConcatAssoc(old(out.lines), body + opening + blocks, ["}"]);
  }

  // ---------------------------------------------------------------------------
  // The error, independently of the lines

  /** A signal's emission stops exactly with the error `SignalError` predicts. */
  lemma SignalEmissionError(cls: string, sig: SignalRecord)
    ensures SignalEmission(cls, sig).error == SignalError(sig)
  {
  }

  /** A class's emission stops with the first signal error, in signal order, or completes. */
  lemma {:induction false} ClassEmissionError(cls: string, sigs: seq<SignalRecord>)
    ensures ClassEmission(cls, sigs).error == FirstError(sigs)
    ensures SignalsEmission(cls, sigs).error == FirstError(sigs)
    decreases |sigs|
  {
    if sigs != [] {
      var n := |sigs| - 1;
      ClassEmissionError(cls, sigs[..n]);
      FirstFailureSnoc(sigs, SignalError);
      SignalEmissionError(cls, sigs[n]);
    }
  }
}
