/**
 * The shape of the generated code for a class whose signals can all be
 * generated: reading the output line by line, the function heads come in
 * `signal_`/`signature_` pairs, one per signal; the `options.add` lines are one
 * per argument; and the `regist_signal` lines are one per signal, all in the
 * order of the input. The call in each `signal_` function passes the argument
 * names back in order, and an array default lists its quoted items.
 */
module Layout {
  import opened Base
  import opened SigTypes
  import opened Emit

  const HeadPrefix: string := "static void "
  const AddPrefix: string := "  options.add(\""
  const RegistPrefix: string := "    regist_signal(\""

  predicate IsHeadLine(l: string) {
    StartsWith(l, HeadPrefix)
  }

  predicate IsAddLine(l: string) {
    StartsWith(l, AddPrefix)
  }

  predicate IsRegistLine(l: string) {
    StartsWith(l, RegistPrefix)
  }

  /** A line of none of the three kinds. */
  predicate Plain(l: string) {
    !IsHeadLine(l) && !IsAddLine(l) && !IsRegistLine(l)
  }

  predicate IdentChar(c: char) {
    'a' <= c <= 'z' || 'A' <= c <= 'Z' || '0' <= c <= '9' || c == '_'
  }

  /** A C++ identifier (the first character is not checked). */
  predicate Identifier(s: string) {
    |s| > 0 && forall i | 0 <= i < |s| :: IdentChar(s[i])
  }

  /** Argument names that are identifiers. */
  predicate NamedArgs(sig: SignalRecord) {
    sig.args.Some? && forall i | 0 <= i < |sig.args.value| :: Identifier(sig.args.value[i].name)
  }

  // ---------------------------------------------------------------------------
  // Classifying single lines

  lemma Differs(l: string, p: string, i: nat)
    requires i < |p| && (i >= |l| || l[i] != p[i])
    ensures !StartsWith(l, p)
  {
    if |p| <= |l| {
      assert l[..|p|][i] == l[i];
    }
  }

  /** An indented line whose third character is neither a space nor `o`. */
  lemma IndentedPlain(l: string)
    requires |l| > 2 && l[0] == ' ' && l[2] != ' ' && l[2] != 'o'
    ensures Plain(l)
  {
    Differs(l, HeadPrefix, 0);
    Differs(l, AddPrefix, 2);
    Differs(l, RegistPrefix, 2);
  }

  /** A line that starts with neither a space nor `s`. */
  lemma UnindentedPlain(l: string)
    requires |l| == 0 || (l[0] != ' ' && l[0] != 's')
    ensures Plain(l)
  {
    Differs(l, HeadPrefix, 0);
    Differs(l, AddPrefix, 0);
    Differs(l, RegistPrefix, 0);
  }

  /** A chained call on a line of its own. */
  lemma ContinuationPlain(rest: string)
    ensures Plain(Chained + rest)
  {
    var l := Chained + rest;
    assert l[0] == ' ' && l[2] == ' ' && l[4] == ' ';
    Differs(l, HeadPrefix, 0);
    Differs(l, AddPrefix, 2);
    Differs(l, RegistPrefix, 4);
  }

  /** `  name = ...` and `  name += ...` are not `options.add` lines, when the name is an identifier. */
  lemma NameLinePlain(name: string, rest: string)
    requires Identifier(name) && |rest| > 0 && rest[0] == ' '
    ensures Plain("  " + name + rest)
  {
    var l := "  " + name + rest;
    assert l[2] == name[0];
    Differs(l, HeadPrefix, 0);
    Differs(l, RegistPrefix, 2);
    if |name| >= 8 {
      assert l[9] == name[7];
      Differs(l, AddPrefix, 9);
    } else {
      assert l[2 + |name|] == ' ';
      assert forall j | 2 <= j <= 9 :: AddPrefix[j] != ' ';
      Differs(l, AddPrefix, 2 + |name|);
    }
  }

  lemma HeadLine(fn: string, name: string, cls: string)
    ensures IsHeadLine(Opening(fn, name, cls)[0]) && !IsAddLine(Opening(fn, name, cls)[0])
    ensures !IsRegistLine(Opening(fn, name, cls)[0])
  {
    var l := Opening(fn, name, cls)[0];
    assert l[..|HeadPrefix|] == HeadPrefix;
    Differs(l, AddPrefix, 0);
    Differs(l, RegistPrefix, 0);
  }

  lemma AddLineKind(a: ArgRecord)
    ensures IsAddLine(AddLine(a)) && !IsHeadLine(AddLine(a)) && !IsRegistLine(AddLine(a))
  {
    var l := AddLine(a);
    assert l[..|AddPrefix|] == AddPrefix;
    Differs(l, HeadPrefix, 0);
    Differs(l, RegistPrefix, 2);
  }

  lemma RegistLineKind(name: string)
    ensures IsRegistLine(RegistLine(name)) && !IsHeadLine(RegistLine(name)) && !IsAddLine(RegistLine(name))
  {
    var l := RegistLine(name);
    assert l[..|RegistPrefix|] == RegistPrefix;
    Differs(l, HeadPrefix, 0);
    Differs(l, AddPrefix, 2);
  }

  // ---------------------------------------------------------------------------
  // What a run of lines contributes to each kind

  /** The head, `options.add` and `regist_signal` lines of `lines`, in order. */
  predicate Contributes(lines: seq<string>, heads: seq<string>, adds: seq<string>, regists: seq<string>) {
    Filter(lines, IsHeadLine) == heads && Filter(lines, IsAddLine) == adds && Filter(lines, IsRegistLine) == regists
  }

  lemma ContributesConcat(a: seq<string>, b: seq<string>,
                          h1: seq<string>, a1: seq<string>, r1: seq<string>,
                          h2: seq<string>, a2: seq<string>, r2: seq<string>)
    requires Contributes(a, h1, a1, r1) && Contributes(b, h2, a2, r2)
    ensures Contributes(a + b, h1 + h2, a1 + a2, r1 + r2)
  {
    FilterConcat(a, b, IsHeadLine);
    FilterConcat(a, b, IsAddLine);
    FilterConcat(a, b, IsRegistLine);
  }

  lemma {:induction false} ContributesNothing(lines: seq<string>)
    requires forall i | 0 <= i < |lines| :: Plain(lines[i])
    ensures Contributes(lines, [], [], [])
  {
    if lines != [] {
      assert Plain(lines[0]);
      ContributesNothing(lines[1..]);
    }
  }

  lemma ContributesOne(l: string)
    ensures Contributes([l], if IsHeadLine(l) then [l] else [], if IsAddLine(l) then [l] else [],
                        if IsRegistLine(l) then [l] else [])
  {
    assert [l][1..] == [];
  }

  lemma ClosingPlain()
    ensures Contributes(["}", ""], [], [], []) && Contributes(["}"], [], [], [])
  {
    UnindentedPlain("}");
    UnindentedPlain("");
    ContributesNothing(["}", ""]);
    ContributesNothing(["}"]);
  }

  /** The three lines after a function head. */
  lemma OpeningTailPlain()
    ensures Contributes(["{", "  SignalOptions options( node );", ""], [], [], [])
  {
    UnindentedPlain("{");
    IndentedPlain("  SignalOptions options( node );");
    UnindentedPlain("");
    ContributesNothing(["{", "  SignalOptions options( node );", ""]);
  }

  lemma OpeningContributes(fn: string, name: string, cls: string)
    ensures Contributes(Opening(fn, name, cls), [Opening(fn, name, cls)[0]], [], [])
  {
    var head := Opening(fn, name, cls)[0];
    var tail := ["{", "  SignalOptions options( node );", ""];
    HeadLine(fn, name, cls);
    ContributesOne(head);
    OpeningTailPlain();
    ContributesConcat([head], tail, [head], [], [], [], [], []);
    assert [head] + tail == Opening(fn, name, cls);
  }

  lemma ValueLinesPlain(args: seq<ArgRecord>)
    requires forall i | 0 <= i < |args| :: Typed(args[i])
    ensures Contributes(ValueLines(args), [], [], [])
  {
    var vs := ValueLines(args);
    CppSpellingsStart();
    forall i | 0 <= i < |vs|
      ensures Plain(vs[i])
    {
      var c := CppType(args[i]);
      assert vs[i][2] == c[0];
      IndentedPlain(vs[i]);
    }
    ContributesNothing(vs);
  }

  /** The heads of a `signal_` and a `signature_` function of the class. */
  function HeadPair(cls: string, name: string): seq<string> {
    [Opening("signal_", name, cls)[0], Opening("signature_", name, cls)[0]]
  }

  lemma SignalFunctionContributes(cls: string, name: string, args: seq<ArgRecord>)
    requires forall i | 0 <= i < |args| :: Typed(args[i])
    ensures Contributes(SignalFunction(cls, name, args), [Opening("signal_", name, cls)[0]], [], [])
  {
    var o := Opening("signal_", name, cls);
    var tail := [CallLine(name, args), "}", ""];
    OpeningContributes("signal_", name, cls);
    ValueLinesPlain(args);
    IndentedPlain(tail[0]);
    UnindentedPlain(tail[1]);
    UnindentedPlain(tail[2]);
    ContributesNothing(tail);
    ContributesConcat(o, ValueLines(args), [o[0]], [], [], [], [], []);
    ContributesConcat(o + ValueLines(args), tail, [o[0]], [], [], [], [], []);
  }

  function AddLines(args: seq<ArgRecord>): (r: seq<string>)
    ensures |r| == |args| && forall i | 0 <= i < |r| :: r[i] == AddLine(args[i])
  {
    seq(|args|, i requires 0 <= i < |args| => AddLine(args[i]))
  }

  lemma AddLinesSnoc(args: seq<ArgRecord>)
    requires args != []
    ensures AddLines(args) == AddLines(args[..|args| - 1]) + [AddLine(args[|args| - 1])]
  {
    var n := |args| - 1;
    var r := AddLines(args[..n]) + [AddLine(args[n])];
    forall i | 0 <= i < |args|
      ensures r[i] == AddLines(args)[i]
    {
      if i < n {
        assert args[..n][i] == args[i];
      }
    }
  }

  /** The default line of an argument starts with its name, which is an identifier. */
  lemma DefaultLinesPlain(a: ArgRecord)
    requires Typed(a) && ArgValueError(a).None? && Identifier(a.name)
    ensures forall i | 0 <= i < |DefaultLines(a)| :: Plain(DefaultLines(a)[i])
  {
    if a.value.Some? {
      var k := a.kind.value;
      if !IsArrayKind(k) {
        NameLinePlain(a.name, " = " + QuoteValue(k, a.value.value.text) + ";");
        assert |DefaultLines(a)| == 1 && DefaultLines(a)[0] == "  " + a.name + (" = " + QuoteValue(k, a.value.value.text) + ";");
      } else {
        var items := " += " + Join(", ", QuotedItems(ElementKind(k), DefaultItems(a.value.value))) + ";";
        NameLinePlain(a.name, items);
        assert |DefaultLines(a)| == 1 && DefaultLines(a)[0] == "  " + a.name + items;
      }
    }
  }

  /** The declaration and default lines of an argument contribute nothing. */
  lemma DeclarationPlain(a: ArgRecord)
    requires Typed(a) && ArgValueError(a).None? && Identifier(a.name)
    ensures Contributes([DeclLine(a)] + DefaultLines(a), [], [], [])
  {
    var d := DeclLine(a);
    CppSpellingsStart();
    assert d[2] == CppType(a)[0];
    IndentedPlain(d);
    DefaultLinesPlain(a);
    var ls := [d] + DefaultLines(a);
    forall i | 0 <= i < |ls|
      ensures Plain(ls[i])
    {
      if i > 0 {
        assert ls[i] == DefaultLines(a)[i - 1];
      }
    }
    ContributesNothing(ls);
  }

  lemma ArgBlockContributes(a: ArgRecord)
    requires Typed(a) && ArgValueError(a).None? && Identifier(a.name)
    ensures Contributes(ArgBlock(a), [], [AddLine(a)], [])
  {
    var front := [DeclLine(a)] + DefaultLines(a);
    DeclarationPlain(a);
    AddLineKind(a);
    ContributesOne(AddLine(a));
    UnindentedPlain("");
    ContributesNothing([""]);
    assert ArgBlock(a) == front + [AddLine(a)] + [""];
    ContributesConcat(front, [AddLine(a)], [], [], [], [], [AddLine(a)], []);
    ContributesConcat(front + [AddLine(a)], [""], [], [AddLine(a)], [], [], [], []);
  }

  lemma {:induction false} ArgBlocksContribute(args: seq<ArgRecord>)
    requires forall i | 0 <= i < |args| :: Typed(args[i]) && ArgValueError(args[i]).None? && Identifier(args[i].name)
    ensures Contributes(ArgBlocks(args), [], AddLines(args), [])
    decreases |args|
  {
    if args == [] {
      ContributesNothing([]);
    } else {
      var n := |args| - 1;
      ArgBlocksContribute(args[..n]);
      ArgBlockContributes(args[n]);
      assert ArgBlocks(args) == ArgBlocks(args[..n]) + ArgBlock(args[n]);
      ContributesConcat(ArgBlocks(args[..n]), ArgBlock(args[n]), [], AddLines(args[..n]), [], [], [AddLine(args[n])], []);
      AddLinesSnoc(args);
    }
  }

  lemma SignatureFunctionContributes(cls: string, name: string, args: seq<ArgRecord>)
    requires forall i | 0 <= i < |args| :: Typed(args[i]) && ArgValueError(args[i]).None? && Identifier(args[i].name)
    ensures Contributes(SignatureFunction(cls, name, args), [Opening("signature_", name, cls)[0]], AddLines(args), [])
  {
    var o := Opening("signature_", name, cls);
    OpeningContributes("signature_", name, cls);
    ArgBlocksContribute(args);
    ClosingPlain();
    ContributesConcat(o, ArgBlocks(args), [o[0]], [], [], [], AddLines(args), []);
    ContributesConcat(o + ArgBlocks(args), ["}", ""], [o[0]], AddLines(args), [], [], [], []);
    assert [] + AddLines(args) == AddLines(args) + [];
  }

  /** The lines of a generated signal, when it is sound. */
  lemma SignalContributes(cls: string, sig: SignalRecord)
    requires Sound(sig) && NamedArgs(sig)
    ensures SignalEmission(cls, sig).error.None?
    ensures Contributes(SignalEmission(cls, sig).lines, HeadPair(cls, sig.name), AddLines(sig.args.value), [])
  {
    var args := sig.args.value;
    SoundIffNoError(sig);
    SignalEmissionError(cls, sig);
    SignalFunctionContributes(cls, sig.name, args);
    SignatureFunctionContributes(cls, sig.name, args);
    ContributesConcat(SignalFunction(cls, sig.name, args), SignatureFunction(cls, sig.name, args),
      [Opening("signal_", sig.name, cls)[0]], [], [], [Opening("signature_", sig.name, cls)[0]], AddLines(args), []);
  }

  /** Every function head, two per signal. */
  function Heads(cls: string, sigs: seq<SignalRecord>): seq<string> {
    if sigs == [] then [] else Heads(cls, sigs[..|sigs| - 1]) + HeadPair(cls, sigs[|sigs| - 1].name)
  }

  /** Every `options.add` line, argument by argument and signal by signal. */
  function AllAdds(sigs: seq<SignalRecord>): seq<string> {
    if sigs == [] then [] else AllAdds(sigs[..|sigs| - 1]) + AddLines(sigs[|sigs| - 1].args.GetOr([]))
  }

  function RegistLines(sigs: seq<SignalRecord>): (r: seq<string>)
    ensures |r| == |sigs| && forall i | 0 <= i < |r| :: r[i] == RegistLine(sigs[i].name)
  {
    seq(|sigs|, i requires 0 <= i < |sigs| => RegistLine(sigs[i].name))
  }

  lemma {:induction false} SignalsContribute(cls: string, sigs: seq<SignalRecord>)
    requires forall i | 0 <= i < |sigs| :: Sound(sigs[i]) && NamedArgs(sigs[i])
    ensures SignalsEmission(cls, sigs).error.None?
    ensures Contributes(SignalsEmission(cls, sigs).lines, Heads(cls, sigs), AllAdds(sigs), [])
    decreases |sigs|
  {
    if sigs == [] {
      ContributesNothing([]);
    } else {
      var n := |sigs| - 1;
      SignalsContribute(cls, sigs[..n]);
      SignalContributes(cls, sigs[n]);
      ContributesConcat(SignalsEmission(cls, sigs[..n]).lines, SignalEmission(cls, sigs[n]).lines,
        Heads(cls, sigs[..n]), AllAdds(sigs[..n]), [], HeadPair(cls, sigs[n].name), AddLines(sigs[n].args.value), []);
    }
  }

  /** The chained calls after a `regist_signal` line, and the blank line. */
  lemma RegistTailPlain(sig: SignalRecord)
    ensures Contributes(RegistBlock(sig)[1..], [], [], [])
  {
    var b := RegistBlock(sig);
    ContinuationPlain(".description(\"" + sig.desc.GetOr("") + "\")");
    ContinuationPlain(".pretty_name(\"" + sig.pretty.GetOr("") + "\")");
    ContinuationPlain(".connect( boost::bind ( signal_" + sig.name + ", this, _1 ) )");
    ContinuationPlain(".signature( boost::bind ( signature_" + sig.name + ", this, _1 ) );");
    UnindentedPlain(b[5]);
    ContributesNothing(b[1..]);
  }

  lemma RegistBlockContributes(sig: SignalRecord)
    ensures Contributes(RegistBlock(sig), [], [], [RegistLine(sig.name)])
  {
    var b := RegistBlock(sig);
    RegistLineKind(sig.name);
    ContributesOne(b[0]);
    RegistTailPlain(sig);
    ContributesConcat([b[0]], b[1..], [], [], [b[0]], [], [], []);
    assert [b[0]] + b[1..] == b;
  }

  lemma {:induction false} RegistBlocksContribute(sigs: seq<SignalRecord>)
    ensures Contributes(RegistBlocks(sigs), [], [], RegistLines(sigs))
    decreases |sigs|
  {
    if sigs == [] {
      ContributesNothing([]);
    } else {
      var n := |sigs| - 1;
      RegistBlocksContribute(sigs[..n]);
      RegistBlockContributes(sigs[n]);
      ContributesConcat(RegistBlocks(sigs[..n]), RegistBlock(sigs[n]), [], [], RegistLines(sigs[..n]), [], [], [RegistLine(sigs[n].name)]);
      assert RegistLines(sigs[..n]) + [RegistLine(sigs[n].name)] == RegistLines(sigs);
    }
  }

  /** The registration function: one `regist_signal` line per signal. */
  lemma RegistrationContributes(cls: string, sigs: seq<SignalRecord>)
    ensures Contributes(RegistrationOpening(cls) + RegistBlocks(sigs) + ["}"], [], [], RegistLines(sigs))
  {
    var reg := RegistrationOpening(cls);
    UnindentedPlain(reg[0]);
    UnindentedPlain(reg[1]);
    UnindentedPlain(reg[2]);
    ContributesNothing(reg);
    RegistBlocksContribute(sigs);
    ClosingPlain();
    ContributesConcat(reg, RegistBlocks(sigs), [], [], [], [], [], RegistLines(sigs));
    ContributesConcat(reg + RegistBlocks(sigs), ["}"], [], [], RegistLines(sigs), [], [], []);
    assert [] + RegistLines(sigs) + [] == RegistLines(sigs);
  }

  /**
   * The generated code of a class whose signals are sound and whose argument
   * names are identifiers: its function heads, `options.add` lines and
   * `regist_signal` lines, in order.
   */
  lemma ClassLayout(cls: string, sigs: seq<SignalRecord>)
    requires forall i | 0 <= i < |sigs| :: Sound(sigs[i]) && NamedArgs(sigs[i])
    ensures ClassEmission(cls, sigs).error.None?
    ensures Contributes(ClassEmission(cls, sigs).lines, Heads(cls, sigs), AllAdds(sigs), RegistLines(sigs))
  {
    var body := SignalsEmission(cls, sigs).lines;
    var rest := RegistrationOpening(cls) + RegistBlocks(sigs) + ["}"];
    SignalsContribute(cls, sigs);
    RegistrationContributes(cls, sigs);
    ContributesConcat(body, rest, Heads(cls, sigs), AllAdds(sigs), [], [], [], RegistLines(sigs));
    ConcatAssoc(body, RegistrationOpening(cls), RegistBlocks(sigs));
    ConcatAssoc(body, RegistrationOpening(cls) + RegistBlocks(sigs), ["}"]);
    assert Heads(cls, sigs) + [] == Heads(cls, sigs);
    assert AllAdds(sigs) + [] == AllAdds(sigs);
  }

  /** The heads alternate: the `signal_` then the `signature_` function of each signal, in order. */
  lemma {:induction false} HeadsAlternate(cls: string, sigs: seq<SignalRecord>)
    ensures |Heads(cls, sigs)| == 2 * |sigs|
    ensures forall i | 0 <= i < |sigs| ::
      Heads(cls, sigs)[2 * i] == HeadPrefix + "signal_" + sigs[i].name + " ( " + cls + " * self, SignalArgs& node )" &&
      Heads(cls, sigs)[2 * i + 1] == HeadPrefix + "signature_" + sigs[i].name + " ( " + cls + " * self, SignalArgs& node )"
    decreases |sigs|
  {
    if sigs != [] {
      var n := |sigs| - 1;
      HeadsAlternate(cls, sigs[..n]);
      var h := Heads(cls, sigs);
      assert h == Heads(cls, sigs[..n]) + HeadPair(cls, sigs[n].name);
      forall i | 0 <= i < |sigs|
        ensures h[2 * i] == HeadPrefix + "signal_" + sigs[i].name + " ( " + cls + " * self, SignalArgs& node )"
        ensures h[2 * i + 1] == HeadPrefix + "signature_" + sigs[i].name + " ( " + cls + " * self, SignalArgs& node )"
      {
        if i < n {
          assert sigs[..n][i] == sigs[i];
        }
      }
    }
  }

  // ---------------------------------------------------------------------------
  // The call and the array defaults read back

  /** The call in a `signal_` function passes the argument names, in order. */
  lemma CallArguments(name: string, args: seq<ArgRecord>)
    requires |args| >= 1 && forall i | 0 <= i < |args| :: Identifier(args[i].name)
    ensures CallLine(name, args) == "  self->" + name + "(" + Join(",", Names(args)) + ");"
    ensures Split(Join(",", Names(args)), ",") == Names(args)
  {
    var ns := Names(args);
    forall k | 0 <= k < |ns|
      ensures Avoids(ns[k], ',')
    {
      assert ns[k] == args[k].name;
    }
    SplitJoin(ns, ",");
  }

  lemma QuoteAvoidsComma(kind: string, v: string)
    requires Avoids(v, ',')
    ensures Avoids(QuoteValue(kind, v), ',')
  {
  }

  /**
   * An array default is written as its items, each quoted as the element
   * kind (itself a scalar kind), separated by `, `; splitting there gives
   * the items back when they contain no comma.
   */
  lemma ArrayDefault(a: ArgRecord)
    requires Typed(a) && IsArrayKind(a.kind.value) && a.value.Some?
    requires |DefaultItems(a.value.value)| >= 1
    requires forall k | 0 <= k < |DefaultItems(a.value.value)| :: Avoids(DefaultItems(a.value.value)[k], ',')
    ensures var element := ElementKind(a.kind.value);
      var quoted := QuotedItems(element, DefaultItems(a.value.value));
      element in ToCppTypes && !IsArrayKind(element) &&
      DefaultLines(a) == ["  " + a.name + " += " + Join(", ", quoted) + ";"] &&
      Split(Join(", ", quoted), ", ") == quoted
  {
    var element := ElementKind(a.kind.value);
    var items := DefaultItems(a.value.value);
    var quoted := QuotedItems(element, items);
    ArrayTypesAreVectors();
    forall k | 0 <= k < |quoted|
      ensures Avoids(quoted[k], ',')
    {
      QuoteAvoidsComma(element, items[k]);
    }
    SplitJoin(quoted, ", ");
  }
}
