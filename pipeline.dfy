/**
 * The records tools/sigparse.py builds, read as the generators read them.
 * sigparse.py prints its signals under the placeholder class key
 * `<cpp_class_type>`; the generators take each signal's `desc` (sigparse
 * stores the summary under `brief`), `pretty` and `args`, and each argument's
 * `type`, `desc` and `value` (sigparse always sets `value`, to the empty
 * string when the `@param` line has no default).
 */
module Pipeline {
  import opened Base
  import opened SigTypes
  import opened Emit
  import SP = SigParse
  import SigGen

  /** The class key sigparse.py prints its signals under. */
  const ClassKey: string := "<cpp_class_type>"

  function ToArgRecord(a: SP.ArgJson): ArgRecord {
    ArgRecord(a.name, a.kind, Some(a.desc), Some(Text(a.value)))
  }

  function ToArgRecords(args: seq<SP.ArgJson>): (r: seq<ArgRecord>)
    ensures |r| == |args| && forall i | 0 <= i < |r| :: r[i] == ToArgRecord(args[i])
  {
    seq(|args|, i requires 0 <= i < |args| => ToArgRecord(args[i]))
  }

  /** A signal record with no `desc` key: the summary is under `brief`, which the generators do not read. */
  function ToSignalRecord(j: SP.SignalJson): SignalRecord {
    SignalRecord(j.name.GetOr(""), None, j.pretty,
      match j.args
      case None => None
      case Some(args) => Some(ToArgRecords(args)))
  }

  /** The dictionary sigparse.py prints: one class holding every collected signal. */
  function ToDecoded(signals: seq<SP.SignalJson>): SigGen.Decoded {
    [(ClassKey, seq(|signals|, i requires 0 <= i < |signals| => ToSignalRecord(signals[i])))]
  }

  /**
   * siggen run on sigparse's dictionary: one class under the placeholder key,
   * holding the signals in the order they were collected, and the run fails
   * with the first of them that cannot be generated.
   */
  lemma DecodedGeneration(signals: seq<SP.SignalJson>)
    ensures var d := ToDecoded(signals);
      |d| == 1 && d[0].0 == ClassKey && |d[0].1| == |signals| &&
      (forall i | 0 <= i < |signals| :: d[0].1[i] == ToSignalRecord(signals[i])) &&
      SigGen.Output(d).error == FirstError(d[0].1)
  {
    var d := ToDecoded(signals);
    SigGen.OutputError(d);
    FirstFailureSnoc(d, (c: (string, seq<SignalRecord>)) => FirstError(c.1));
    assert d[..0] == [];
  }

  /** Whatever `@brief` said, the registered description is empty; the pretty name is carried over. */
  lemma DescriptionIsEmpty(j: SP.SignalJson)
    ensures RegistBlock(ToSignalRecord(j))[1] == Chained + ".description(\"\")"
    ensures RegistBlock(ToSignalRecord(j))[2] == Chained + (".pretty_name(\"" + j.pretty.GetOr("") + "\")")
  {
    assert ".description(\"" + "" + "\")" == ".description(\"\")";
  }

  /**
   * A declared block yields a signal the generators can turn into code
   * exactly when it has a `@param` line and its declaration has at least as
   * many recognised types as `@param` lines; otherwise they stop on the
   * missing `args` key or on the first argument without a `type`.
   */
  lemma ParsedSignalError(lines: seq<SP.Line>, pos: nat, name: Option<string>)
    requires pos <= |lines| && SP.ParseBlock(lines, pos, SP.EmptyJson, name).Declared?
    ensures var r := SP.ParseBlock(lines, pos, SP.EmptyJson, name);
      var params := SP.ParamArgs(lines[pos..r.next - 1]);
      var kinds := SP.Recognised(lines[r.next - 1].decl.value.args);
      SignalError(ToSignalRecord(r.json)) ==
        if params == [] then Some(KeyError("args"))
        else if |kinds| < |params| then Some(KeyError("type"))
        else None
  {
    var r := SP.ParseBlock(lines, pos, SP.EmptyJson, name);
    var params := SP.ParamArgs(lines[pos..r.next - 1]);
    SP.BlockHasArgs(lines, pos, SP.EmptyJson, name);
    if params != [] {
      var tokens := lines[r.next - 1].decl.value.args;
      SP.BlockTyped(lines, pos, name);
      SP.RecognisedAreKinds(tokens);
      ArgsError(r.json, SP.Recognised(tokens));
    }
  }

  /**
   * Arguments typed by a prefix of known kinds: generation stops on the
   * first argument past that prefix, and no default is a list.
   */
  lemma ArgsError(j: SP.SignalJson, kinds: seq<string>)
    requires j.args.Some?
    requires forall k | k in kinds :: k in ToCppTypes
    requires forall i | 0 <= i < |j.args.value| :: j.args.value[i].kind == (if i < |kinds| then Some(kinds[i]) else None)
    ensures SignalError(ToSignalRecord(j)) == if |kinds| < |j.args.value| then Some(KeyError("type")) else None
  {
    var recs := ToArgRecords(j.args.value);
    var t := if |kinds| < |recs| then |kinds| else |recs|;
    forall i | 0 <= i < t
      ensures ArgTypeError(recs[i]).None?
    {
      assert kinds[i] in kinds;
    }
    FirstFailureAt(recs, ArgTypeError, t);
    FirstFailureAt(recs, ArgValueError, |recs|);
  }

  /**
   * A `@param` line without a default still gives a scalar argument a default
   * line, because `value` is always set: the quoted empty string, which for
   * a kind other than `uri` and `string` leaves the initialiser empty.
   */
  lemma MissingDefault(a: SP.ArgJson, k: string)
    requires a.value == "" && a.kind == Some(k) && k in ToCppTypes && !IsArrayKind(k)
    ensures DefaultLines(ToArgRecord(a)) == ["  " + a.name + " = " + QuoteValue(k, "") + ";"]
    ensures k != "uri" && k != "string" ==> DefaultLines(ToArgRecord(a)) == ["  " + a.name + " = ;"]
  {
    assert "  " + a.name + " = " + "" + ";" == "  " + a.name + " = ;";
  }

  /**
   * A default for an array kind is the text of the `@param` line, which the
   * generators iterate character by character: one item per character,
   * each quoted as the element kind.
   */
  lemma ArrayDefaultFromText(a: SP.ArgJson, k: string)
    requires a.kind == Some(k) && k in ToCppTypes && IsArrayKind(k)
    ensures var items := DefaultItems(Text(a.value));
      var q := QuotedItems(ElementKind(k), items);
      DefaultLines(ToArgRecord(a)) == ["  " + a.name + " += " + Join(", ", q) + ";"] &&
      Join("", items) == a.value &&
      |q| == |a.value| && forall i | 0 <= i < |q| :: q[i] == QuoteValue(ElementKind(k), [a.value[i]])
  {
    TextItems(a.value);
  }
}
