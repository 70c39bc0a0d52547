/**
 * tools/sigparse.py after tokenisation.
 *
 * The script reads a C++ header line by line. A doxygen line `/// @signal`
 * opens a signal block; the block's `@param`, `@brief` and `@pretty` lines fill
 * a JSON-shaped record, and the first line that is not a doxygen line is read
 * as the C++ declaration that closes the block. The argument types of that
 * declaration are matched, in order, against the `@param` entries.
 *
 * The grammar itself is a foreign library: each line arrives here already
 * classified (`Line`), carrying exactly the tokens the grammar would return.
 */
module SigParse {
  import opened Base
  import opened SigTypes

  // ---------------------------------------------------------------------------
  // What the grammar returns for a line

  /** A line the doxygen grammar accepts, by the alternative that matched first. */
  datatype DocCmd =
    | SignalCmd(ident: Option<string>)                                  // /// @signal [identifier]
    | ParamCmd(param: string, description: seq<string>, defval: Option<string>)
                                                                        // /// @param x words [@default @code v @endcode]
    | BriefCmd(description: seq<string>)                                // /// @brief words
    | PrettyCmd(description: seq<string>)                               // /// @pretty words
    | Comment(rest: string)                                             // /// anything else
  {
    /** The first token: the command word, or for a plain comment the rest of the line. */
    function Keyword(): string {
      match this
      case SignalCmd(_) => "signal"
      case ParamCmd(_, _, _) => "param"
      case BriefCmd(_) => "brief"
      case PrettyCmd(_) => "pretty"
      case Comment(rest) => rest
    }

    /** The `description` result: the words, or nothing when the command has none. */
    function Description(): seq<string> {
      match this
      case ParamCmd(_, d, _) => d
      case BriefCmd(d) => d
      case PrettyCmd(d) => d
      case _ => []
    }
  }

  /** The tokens before the argument group: the return type's tokens, then the function name. */
  type DeclHead = s: seq<string> | |s| >= 2 witness ["void", "f"]

  /** A parsed C++ declaration; `args` is the flat token list of the parameter group. */
  datatype CppDecl = CppDecl(head: DeclHead, args: seq<string>)

  /**
   * One header line: either accepted by the doxygen grammar, or not, in which
   * case `decl` is what the C++ declaration grammar makes of it (None when it
   * rejects the line too).
   */
  datatype Line = Doc(cmd: DocCmd) | Code(decl: Option<CppDecl>)

  // ---------------------------------------------------------------------------
  // The JSON-shaped records

  /** One `@param` entry; `kind` is the `type` key, set once the declaration is read. */
  datatype ArgJson = ArgJson(name: string, desc: string, value: string, kind: Option<string>)

  /** The record of one signal; a missing key is None. */
  datatype SignalJson = SignalJson(
    args: Option<seq<ArgJson>>,
    brief: Option<string>,
    pretty: Option<string>,
    returnType: Option<string>,
    name: Option<string>)

  const EmptyJson: SignalJson := SignalJson(None, None, None, None, None)

  /** The exceptions that escape the script and end it. */
  datatype Crash = KeyError(key: string) | IndexError

  /** How a signal block ends. */
  datatype BlockEnd =
    | Declared(json: SignalJson, next: nat)   // closed by a declaration; `next` is the line after it
    | Rejected(next: nat)                     // the closing line is not a declaration either: block dropped
    | Exhausted                               // the file ended inside the block
    | Crashed(crash: Crash)

  datatype Outcome = Finished(signals: seq<SignalJson>) | Aborted(crash: Crash)

  // ---------------------------------------------------------------------------
  // Specification of one block

  /** `self.tokens[1]` when the opening line has a second token. */
  function SignalName(opening: DocCmd): Option<string> {
    match opening
    case SignalCmd(id) => id
    case _ => None
  }

  function ArgsOf(json: SignalJson): seq<ArgJson> {
    json.args.GetOr([])
  }

  /** The argument a `@param` line adds; a missing default reads as the empty string. */
  function ParamArg(cmd: DocCmd): ArgJson
    requires cmd.ParamCmd?
  {
    ArgJson(cmd.param, Join(" ", cmd.description), cmd.defval.GetOr(""), None)
  }

  /**
   * The dispatch of a doxygen line inside a block on its first token, by the
   * grammar alternative that produced it: only a plain comment can carry one
   * of the command words as its first token without their other tokens.
   */
  function ApplyDoc(json: SignalJson, cmd: DocCmd): Result<SignalJson, Crash>
  {
    match cmd
    case ParamCmd(_, _, _) => Ok(json.(args := Some(ArgsOf(json) + [ParamArg(cmd)])))
    case BriefCmd(d) => Ok(json.(brief := Some(Join(" ", d))))
    case PrettyCmd(d) => Ok(json.(pretty := Some(Join(" ", d))))
    case SignalCmd(_) => Err(KeyError("signal"))
    case Comment(rest) => ApplyComment(json, rest)
  }

  /** A plain comment line whose text is a command word: `tokens[1]` is missing, the description empty. */
  function ApplyComment(json: SignalJson, rest: string): Result<SignalJson, Crash>
  {
    if rest == "param" then Err(IndexError)
    else if rest == "brief" then Ok(json.(brief := Some("")))
    else if rest == "pretty" then Ok(json.(pretty := Some("")))
    else Err(KeyError(rest))
  }

  /** The signature kinds of the tokens found in `ToSigTypes`, in order. */
  function Recognised(tokens: seq<string>): seq<string>
  {
    if tokens == [] then []
    else
      var t := tokens[|tokens| - 1];
      Recognised(tokens[..|tokens| - 1]) + (if t in ToSigTypes then [ToSigTypes[t]] else [])
  }

  /** The k-th recognised kind types the k-th argument; arguments beyond the kinds keep theirs. */
  function TypedArgs(args: seq<ArgJson>, kinds: seq<string>): (r: seq<ArgJson>)
    ensures |r| == |args|
    ensures forall i | 0 <= i < |r| ::
      r[i].name == args[i].name && r[i].desc == args[i].desc && r[i].value == args[i].value
  {
    seq(|args|, i requires 0 <= i < |args| =>
      if i < |kinds| then args[i].(kind := Some(kinds[i])) else args[i])
  }

  /** The effect of the closing declaration on the record (without the name). */
  function ApplyCpp(json: SignalJson, d: CppDecl): Result<SignalJson, Crash>
  {
    var kinds := Recognised(d.args);
    var j := json.(returnType := Some(d.head[0]));
    if kinds == [] then Ok(j)
    else match json.args
      case None => Err(KeyError("args"))
      case Some(args) => if args == [] then Err(IndexError) else Ok(j.(args := Some(TypedArgs(args, kinds))))
  }

  /** The signal's name: the `@signal` identifier if there is one, else the declared function's. */
  function DeclName(name: Option<string>, d: CppDecl): string {
    if Truthy(name) then name.value else d.head[1]
  }

  /** Where the doxygen lines of a block stop. */
  datatype Scan =
    | Stopped(json: SignalJson, at: nat)   // line `at` is the first line that is not a doxygen line
    | Ended                                // the file ended first
    | Failed(crash: Crash)

  /** The doxygen lines of a block from line `pos` on, applied in order. */
  function ScanDocs(lines: seq<Line>, pos: nat, json: SignalJson): (r: Scan)
    requires pos <= |lines|
    ensures r.Stopped? ==> pos <= r.at < |lines| && lines[r.at].Code?
    decreases |lines| - pos
  {
    if pos == |lines| then Ended
    else if lines[pos].Code? then Stopped(json, pos)
    else
      var step := ApplyDoc(json, lines[pos].cmd);
      if step.Err? then Failed(step.error) else ScanDocs(lines, pos + 1, step.value)
  }

  /**
   * The block that starts at line `pos`: doxygen lines are applied until the
   * first line that is not one, which must be a declaration.
   */
  function ParseBlock(lines: seq<Line>, pos: nat, json: SignalJson, name: Option<string>): (r: BlockEnd)
    requires pos <= |lines|
    ensures r.Declared? ==> pos < r.next <= |lines| && lines[r.next - 1].Code? && lines[r.next - 1].decl.Some?
    ensures r.Rejected? ==> pos < r.next <= |lines| && lines[r.next - 1] == Code(None)
    ensures r.Declared? ==> r.json.name.Some? && r.json.returnType.Some?
  {
    match ScanDocs(lines, pos, json)
    case Ended => Exhausted
    case Failed(c) => Crashed(c)
    case Stopped(j, at) => CloseBlock(j, name, lines[at].decl, at + 1)
  }

  /** The end of a block at the first line that is not a doxygen line; `next` is the line after it. */
  function CloseBlock(json: SignalJson, name: Option<string>, decl: Option<CppDecl>, next: nat): (r: BlockEnd)
    ensures r.Declared? ==> r.next == next && decl.Some? && r.json.name.Some? && r.json.returnType.Some?
    ensures r.Rejected? ==> r.next == next && decl.None?
    ensures !r.Exhausted?
  {
    match decl
    case None => Rejected(next)
    case Some(d) =>
      match ApplyCpp(json, d)
      case Err(c) => Crashed(c)
      case Ok(j) => Declared(j.(name := Some(DeclName(name, d))), next)
  }

  /** A line that opens a signal block. */
  predicate IsSignalLine(l: Line) {
    l.Doc? && (l.cmd.SignalCmd? || (l.cmd.Comment? && l.cmd.rest == "signal"))
  }

  /** The top-level loop from line `pos` on, with the signals `acc` collected so far. */
  function Collect(lines: seq<Line>, pos: nat, acc: seq<SignalJson>): Outcome
    requires pos <= |lines|
    decreases |lines| - pos
  {
    if pos == |lines| then Finished(acc)
    else if !IsSignalLine(lines[pos]) then Collect(lines, pos + 1, acc)
    else match ParseBlock(lines, pos + 1, EmptyJson, SignalName(lines[pos].cmd))
      case Declared(j, next) => Collect(lines, next, acc + [j])
      case Rejected(next) => Collect(lines, next, acc)
      case Exhausted => Finished(acc)
      case Crashed(c) => Aborted(c)
  }

  // ---------------------------------------------------------------------------
  // The script's objects

  /** The open header file, iterated with `next()`. */
  class Header {
    const lines: seq<Line>
    var pos: nat

    ghost predicate Valid()
      reads this
    {
      pos <= |lines|
    }

    constructor (lines: seq<Line>)
      ensures Valid() && this.lines == lines && pos == 0
    {
      this.lines := lines;
      pos := 0;
    }

    /** `header.next()`; None stands for StopIteration. */
    method Next() returns (line: Option<Line>)
      requires Valid()
      modifies this
      ensures Valid()
      ensures old(pos) < |lines| ==> line == Some(lines[old(pos)]) && pos == old(pos) + 1
      ensures old(pos) == |lines| ==> line.None? && pos == old(pos)
    {
      if pos < |lines| {
        line := Some(lines[pos]);
        pos := pos + 1;
      } else {
        line := None;
      }
    }
  }

  /** `class Signal`: the record of one signal block under construction. */
  class Signal {
    const header: Header
    const tokens: DocCmd
    var json: SignalJson
    var name: Option<string>

    constructor (header: Header, tokens: DocCmd)
      ensures this.header == header && this.tokens == tokens
      ensures json == EmptyJson && name == None
    {
      this.header := header;
      this.tokens := tokens;
      json := EmptyJson;
      name := None;
    }

    method ParseParam(cmd: DocCmd)
      requires cmd.ParamCmd?
      modifies this
      ensures json == old(json).(args := Some(ArgsOf(old(json)) + [ParamArg(cmd)]))
      ensures name == old(name)
    {
      var args := if json.args.None? then [] else json.args.value;
      var arg := ArgJson(cmd.param, Join(" ", cmd.description), cmd.defval.GetOr(""), None);
      json := json.(args := Some(args + [arg]));
    }

    method ParseBrief(cmd: DocCmd)
      modifies this
      ensures json == old(json).(brief := Some(Join(" ", cmd.Description()))) && name == old(name)
    {
      json := json.(brief := Some(Join(" ", cmd.Description())));
    }

    method ParsePretty(cmd: DocCmd)
      modifies this
      ensures json == old(json).(pretty := Some(Join(" ", cmd.Description()))) && name == old(name)
    {
      json := json.(pretty := Some(Join(" ", cmd.Description())));
    }

    /**
     * `parse_cpp`: records the return type, takes the function name when the
     * block gave none, and types the arguments positionally, stopping once
     * every argument is typed.
     */
    method ParseCpp(d: CppDecl) returns (crash: Option<Crash>)
      modifies this
      ensures match ApplyCpp(old(json), d)
        case Ok(j) => crash.None? && json == j && name == Some(DeclName(old(name), d))
        case Err(c) => crash == Some(c)
    {
      ghost var j0 := json.(returnType := Some(d.head[0]));
      json := json.(returnType := Some(d.head[0]));
      if !Truthy(name) {
        name := Some(d.head[1]);
      }
      var matched := 0;
      var i := 0;
      while i < |d.args|
        invariant 0 <= i <= |d.args|
        invariant matched == |Recognised(d.args[..i])|
        invariant name == Some(DeclName(old(name), d))
        invariant matched == 0 ==> json == j0
        invariant matched > 0 ==>
          j0.args.Some? && 0 < matched < |j0.args.value| &&
          json == j0.(args := Some(TypedArgs(j0.args.value, Recognised(d.args[..i]))))
      {
        var t := d.args[i];
        RecognisedSnoc(d.args, i);
        RecognisedPrefix(d.args, i + 1);
        if t in ToSigTypes {
          if json.args.None? {
            return Some(KeyError("args"));
          }
          var args := json.args.value;
          if matched >= |args| {
            return Some(IndexError);
          }
          ghost var kinds := Recognised(d.args[..i]);
          TypedArgsSnoc(j0.args.value, kinds, ToSigTypes[t]);
          assert args == TypedArgs(j0.args.value, kinds);
          args := args[matched := args[matched].(kind := Some(ToSigTypes[t]))];
          assert args == TypedArgs(j0.args.value, kinds + [ToSigTypes[t]]);
          json := json.(args := Some(args));
          matched := matched + 1;
          if matched == |args| {
            TypedArgsEnough(j0.args.value, Recognised(d.args[..i + 1]), Recognised(d.args));
            return None;
          }
        }
        i := i + 1;
      }
      assert d.args[..i] == d.args;
      crash := None;
    }

    /**
     * `parse`: applies the block's doxygen lines until the closing line,
     * then stores the name.
     */
    method Parse() returns (end: BlockEnd)
      requires header.Valid()
      modifies this, header
      ensures header.Valid()
      ensures end == ParseBlock(header.lines, old(header.pos), old(json), SignalName(tokens))
      ensures end.Declared? ==> json == end.json && header.pos == end.next
      ensures end.Rejected? ==> header.pos == end.next
      ensures end.Exhausted? ==> header.pos == |header.lines|
    {
      name := SignalName(tokens);
      ghost var lines := header.lines;
      while true
        invariant header.Valid() && name == SignalName(tokens)
        invariant ScanDocs(lines, header.pos, json) == ScanDocs(lines, old(header.pos), old(json))
        decreases |lines| - header.pos
      {
        ghost var before := json;
        var line := header.Next();
        if line.None? {
          return Exhausted;
        }
        match line.value {
          case Doc(cmd) =>
            var keywd := cmd.Keyword();
            if keywd == "param" {
              if !cmd.ParamCmd? {
                return Crashed(IndexError);
              }
              ParseParam(cmd);
            } else if keywd == "brief" {
              ParseBrief(cmd);
            } else if keywd == "pretty" {
              ParsePretty(cmd);
            } else {
              return Crashed(KeyError(keywd));
            }
            assert ApplyDoc(before, cmd) == Ok(json);
          case Code(decl) =>
            if decl.None? {
              return Rejected(header.pos);
            }
            var crash := ParseCpp(decl.value);
            if crash.Some? {
              return Crashed(crash.value);
            }
            json := json.(name := name);
            return Declared(json, header.pos);
        }
      }
    }
  }

  /**
   * The top-level loop: every line whose first token is `signal` opens a
   * block; other lines, and lines the grammar rejects, are skipped.
   */
  method CollectSignals(header: Header) returns (outcome: Outcome)
    requires header.Valid()
    modifies header
    ensures header.Valid()
    ensures outcome == Collect(header.lines, old(header.pos), [])
  {
    var signals: seq<SignalJson> := [];
    while true
      invariant header.Valid()
      invariant Collect(header.lines, header.pos, signals) == Collect(header.lines, old(header.pos), [])
      decreases |header.lines| - header.pos
    {
      var line := header.Next();
      if line.None? {
        return Finished(signals);
      }
      if line.value.Doc? && line.value.cmd.Keyword() == "signal" {
        assert IsSignalLine(line.value);
        var s := new Signal(header, line.value.cmd);
        var end := s.Parse();
        match end {
          case Declared(_, _) =>
            signals := signals + [s.json];
          case Rejected(_) =>
          case Exhausted =>
            return Finished(signals);
          case Crashed(c) =>
            return Aborted(c);
        }
      }
    }
  }

  // ---------------------------------------------------------------------------
  // Lemmas

  /** The kinds recognised in a prefix of the tokens are a prefix of those of all tokens. */
  lemma {:induction false} RecognisedPrefix(tokens: seq<string>, i: nat)
    requires i <= |tokens|
    ensures |Recognised(tokens[..i])| <= |Recognised(tokens)|
    ensures Recognised(tokens)[..|Recognised(tokens[..i])|] == Recognised(tokens[..i])
    decreases |tokens| - i
  {
    if i < |tokens| {
      RecognisedPrefix(tokens, i + 1);
      assert tokens[..i + 1][..i] == tokens[..i];
    } else {
      assert tokens[..i] == tokens;
    }
  }

  /** One more token adds its kind when it is a known alias, and nothing otherwise. */
  lemma RecognisedSnoc(tokens: seq<string>, i: nat)
    requires i < |tokens|
    ensures tokens[i] in ToSigTypes ==> Recognised(tokens[..i + 1]) == Recognised(tokens[..i]) + [ToSigTypes[tokens[i]]]
    ensures tokens[i] !in ToSigTypes ==> Recognised(tokens[..i + 1]) == Recognised(tokens[..i])
  {
    assert tokens[..i + 1][..i] == tokens[..i];
  }

  /** Typing one more argument extends the kinds by one. */
  lemma TypedArgsSnoc(args: seq<ArgJson>, kinds: seq<string>, k: string)
    requires |kinds| < |args|
    ensures kinds == [] ==> TypedArgs(args, kinds) == args
    ensures TypedArgs(args, kinds)[|kinds| := args[|kinds|].(kind := Some(k))] == TypedArgs(args, kinds + [k])
  {
  }

  /** Kinds beyond the number of arguments do not matter. */
  lemma TypedArgsEnough(args: seq<ArgJson>, kinds: seq<string>, more: seq<string>)
    requires |kinds| == |args| && |kinds| <= |more| && more[..|kinds|] == kinds
    ensures TypedArgs(args, more) == TypedArgs(args, kinds)
  {
    forall i | 0 <= i < |args| ensures TypedArgs(args, more)[i] == TypedArgs(args, kinds)[i] {
      assert more[i] == more[..|kinds|][i];
    }
  }

  /** The arguments the `@param` lines among `lines` add, in order. */
  function ParamArgs(lines: seq<Line>): seq<ArgJson> {
    if lines == [] then []
    else (if lines[0].Doc? && lines[0].cmd.ParamCmd? then [ParamArg(lines[0].cmd)] else []) + ParamArgs(lines[1..])
  }

  /** The arguments with their `type` keys removed. */
  function Untyped(args: seq<ArgJson>): seq<ArgJson> {
    seq(|args|, i requires 0 <= i < |args| => args[i].(kind := None))
  }

  predicate AllUntyped(args: seq<ArgJson>) {
    forall i | 0 <= i < |args| :: args[i].kind.None?
  }

  lemma UntypedConcat(a: seq<ArgJson>, b: seq<ArgJson>)
    ensures Untyped(a + b) == Untyped(a) + Untyped(b)
  {
  }

  lemma ConcatChain<T>(total: seq<T>, mid: seq<T>, before: seq<T>, added: seq<T>, later: seq<T>, block: seq<T>)
    requires total == mid + later && mid == before + added && block == added + later
    ensures total == before + block
  {
  }

  /** One doxygen line adds at most its own `@param` argument. */
  lemma DocArguments(json: SignalJson, cmd: DocCmd)
    requires ApplyDoc(json, cmd).Ok?
    ensures var j := ApplyDoc(json, cmd).value;
      Untyped(ArgsOf(j)) == Untyped(ArgsOf(json)) + ParamArgs([Doc(cmd)]) &&
      (j.args.None? <==> json.args.None? && ParamArgs([Doc(cmd)]) == [])
  {
    assert ParamArgs([Doc(cmd)]) == (if cmd.ParamCmd? then [ParamArg(cmd)] else []) + ParamArgs([]);
    if cmd.ParamCmd? {
      UntypedConcat(ArgsOf(json), [ParamArg(cmd)]);
    }
  }

  /** Typing changes no argument but its `type`. */
  lemma CppArguments(json: SignalJson, d: CppDecl)
    requires ApplyCpp(json, d).Ok?
    ensures var j := ApplyCpp(json, d).value;
      Untyped(ArgsOf(j)) == Untyped(ArgsOf(json)) && (j.args.None? <==> json.args.None?)
  {
  }

  lemma ParamArgsCons(block: seq<Line>)
    requires block != []
    ensures ParamArgs(block) == ParamArgs([block[0]]) + ParamArgs(block[1..])
  {
    assert [block[0]][1..] == [];
  }

  /**
   * The doxygen lines of a block add one argument per `@param` line, in line
   * order, and create the `args` key exactly when there is one.
   */
  lemma {:induction false} ScanArguments(lines: seq<Line>, pos: nat, json: SignalJson)
    requires pos <= |lines|
    ensures var r := ScanDocs(lines, pos, json);
      r.Stopped? ==>
        Untyped(ArgsOf(r.json)) == Untyped(ArgsOf(json)) + ParamArgs(lines[pos..r.at]) &&
        (r.json.args.Some? <==> json.args.Some? || ParamArgs(lines[pos..r.at]) != [])
    decreases |lines| - pos
  {
    if pos < |lines| && lines[pos].Doc? {
      var cmd := lines[pos].cmd;
      var step := ApplyDoc(json, cmd);
      if step.Ok? {
        var j := step.value;
        assert ScanDocs(lines, pos, json) == ScanDocs(lines, pos + 1, j);
        ScanArguments(lines, pos + 1, j);
        var r := ScanDocs(lines, pos + 1, j);
        if r.Stopped? {
          DocArguments(json, cmd);
          var block := lines[pos..r.at];
          var rest := lines[pos + 1..r.at];
          assert block[0] == lines[pos] && block[1..] == rest;
          ParamArgsCons(block);
          ConcatChain(Untyped(ArgsOf(r.json)), Untyped(ArgsOf(j)), Untyped(ArgsOf(json)),
                      ParamArgs([lines[pos]]), ParamArgs(rest), ParamArgs(block));
        }
      }
    } else if pos < |lines| {
      assert lines[pos..pos] == [];
    }
  }

  /** The doxygen part of a block is a run of doxygen lines, up to the end of the file when no other line comes. */
  lemma {:induction false} ScanShape(lines: seq<Line>, pos: nat, json: SignalJson)
    requires pos <= |lines|
    ensures var r := ScanDocs(lines, pos, json);
      (r.Stopped? ==> forall i | pos <= i < r.at :: lines[i].Doc?) &&
      (r.Ended? ==> forall i | pos <= i < |lines| :: lines[i].Doc?)
    decreases |lines| - pos
  {
    if pos < |lines| && lines[pos].Doc? {
      var step := ApplyDoc(json, lines[pos].cmd);
      if step.Ok? {
        assert ScanDocs(lines, pos, json) == ScanDocs(lines, pos + 1, step.value);
        ScanShape(lines, pos + 1, step.value);
      }
    }
  }

  /** Doxygen lines never set an argument's `type`. */
  lemma {:induction false} ScanUntyped(lines: seq<Line>, pos: nat, json: SignalJson)
    requires pos <= |lines| && AllUntyped(ArgsOf(json))
    ensures var r := ScanDocs(lines, pos, json);
      r.Stopped? ==> AllUntyped(ArgsOf(r.json))
    decreases |lines| - pos
  {
    if pos < |lines| && lines[pos].Doc? {
      var step := ApplyDoc(json, lines[pos].cmd);
      if step.Ok? {
        assert AllUntyped(ArgsOf(step.value));
        assert ScanDocs(lines, pos, json) == ScanDocs(lines, pos + 1, step.value);
        ScanUntyped(lines, pos + 1, step.value);
      }
    }
  }

  /**
   * A declared block holds one argument per `@param` line, in the order of
   * the lines, after the arguments it started with.
   */
  lemma BlockArguments(lines: seq<Line>, pos: nat, json: SignalJson, name: Option<string>)
    requires pos <= |lines| && ParseBlock(lines, pos, json, name).Declared?
    ensures var r := ParseBlock(lines, pos, json, name);
      Untyped(ArgsOf(r.json)) == Untyped(ArgsOf(json)) + ParamArgs(lines[pos..r.next - 1])
  {
    var sc := ScanDocs(lines, pos, json);
    ScanArguments(lines, pos, json);
    CppArguments(sc.json, lines[sc.at].decl.value);
  }

  /**
   * A block is a run of doxygen lines closed by the first other line; one
   * that ends with the file holds only doxygen lines.
   */
  lemma BlockShape(lines: seq<Line>, pos: nat, json: SignalJson, name: Option<string>)
    requires pos <= |lines|
    ensures var r := ParseBlock(lines, pos, json, name);
      (r.Declared? || r.Rejected? ==> forall i | pos <= i < r.next - 1 :: lines[i].Doc?) &&
      (r.Exhausted? ==> forall i | pos <= i < |lines| :: lines[i].Doc?)
  {
    ScanShape(lines, pos, json);
  }

  /** A declared block's record has an `args` key exactly when it started with one or has a `@param` line. */
  lemma BlockHasArgs(lines: seq<Line>, pos: nat, json: SignalJson, name: Option<string>)
    requires pos <= |lines| && ParseBlock(lines, pos, json, name).Declared?
    ensures var r := ParseBlock(lines, pos, json, name);
      r.json.args.Some? <==> json.args.Some? || ParamArgs(lines[pos..r.next - 1]) != []
  {
    var sc := ScanDocs(lines, pos, json);
    ScanArguments(lines, pos, json);
    CppArguments(sc.json, lines[sc.at].decl.value);
  }

  /**
   * What the closing declaration puts in a declared block's record: its
   * return type, the name rule, and the k-th recognised type of the argument
   * list as the `type` of the k-th argument (later arguments stay untyped).
   */
  lemma BlockDeclaration(lines: seq<Line>, pos: nat, json: SignalJson, name: Option<string>)
    requires pos <= |lines| && ParseBlock(lines, pos, json, name).Declared?
    requires AllUntyped(ArgsOf(json))
    ensures var r := ParseBlock(lines, pos, json, name);
      var d := lines[r.next - 1].decl.value;
      var kinds := Recognised(d.args);
      r.json.returnType == Some(d.head[0]) &&
      r.json.name == Some(if Truthy(name) then name.value else d.head[1]) &&
      forall i | 0 <= i < |ArgsOf(r.json)| ::
        ArgsOf(r.json)[i].kind == (if i < |kinds| then Some(kinds[i]) else None)
  {
    ScanUntyped(lines, pos, json);
  }

  /**
   * A fresh block: one argument per `@param` line, typed in order by the
   * declaration's recognised types and untyped past them.
   */
  lemma BlockTyped(lines: seq<Line>, pos: nat, name: Option<string>)
    requires pos <= |lines| && ParseBlock(lines, pos, EmptyJson, name).Declared?
    ensures var r := ParseBlock(lines, pos, EmptyJson, name);
      var kinds := Recognised(lines[r.next - 1].decl.value.args);
      |ArgsOf(r.json)| == |ParamArgs(lines[pos..r.next - 1])| &&
      forall i | 0 <= i < |ArgsOf(r.json)| :: ArgsOf(r.json)[i].kind == (if i < |kinds| then Some(kinds[i]) else None)
  {
    BlockArguments(lines, pos, EmptyJson, name);
    assert Untyped([]) == [];
    BlockDeclaration(lines, pos, EmptyJson, name);
  }

  /** Every recognised type names a kind the generators know. */
  lemma {:induction false} RecognisedAreKinds(tokens: seq<string>)
    ensures forall k | k in Recognised(tokens) :: k in ToCppTypes
  {
    if tokens != [] {
      RecognisedAreKinds(tokens[..|tokens| - 1]);
      AliasesAreKinds();
    }
  }

  /** A file without a `signal` line yields no signal and never fails. */
  lemma {:induction false} CollectWithoutSignals(lines: seq<Line>, pos: nat, acc: seq<SignalJson>)
    requires pos <= |lines| && Filter(lines[pos..], IsSignalLine) == []
    ensures Collect(lines, pos, acc) == Finished(acc)
    decreases |lines| - pos
  {
    if pos < |lines| {
      assert lines[pos..][0] == lines[pos] && lines[pos..][1..] == lines[pos + 1..];
      CollectWithoutSignals(lines, pos + 1, acc);
    }
  }

  /** The collected signals extend those already collected, at most one per `signal` line. */
  lemma {:induction false} CollectBound(lines: seq<Line>, pos: nat, acc: seq<SignalJson>)
    requires pos <= |lines|
    ensures Collect(lines, pos, acc).Finished? ==>
      var sigs := Collect(lines, pos, acc).signals;
      acc <= sigs && |sigs| <= |acc| + |Filter(lines[pos..], IsSignalLine)|
    decreases |lines| - pos
  {
    if pos < |lines| {
      assert lines[pos..][0] == lines[pos] && lines[pos..][1..] == lines[pos + 1..];
      if !IsSignalLine(lines[pos]) {
        CollectBound(lines, pos + 1, acc);
      } else {
        var count := |Filter(lines[pos..], IsSignalLine)|;
        assert count == 1 + |Filter(lines[pos + 1..], IsSignalLine)|;
        match ParseBlock(lines, pos + 1, EmptyJson, SignalName(lines[pos].cmd))
        case Declared(j, next) =>
          assert lines[pos + 1..] == lines[pos + 1..next] + lines[next..];
          FilterConcat(lines[pos + 1..next], lines[next..], IsSignalLine);
          CollectBound(lines, next, acc + [j]);
        case Rejected(next) =>
          assert lines[pos + 1..] == lines[pos + 1..next] + lines[next..];
          FilterConcat(lines[pos + 1..next], lines[next..], IsSignalLine);
          CollectBound(lines, next, acc);
        case Exhausted =>
        case Crashed(_) =>
      }
    }
  }

  /** Every signal collected has a name and a return type. */
  lemma {:induction false} CollectNamed(lines: seq<Line>, pos: nat, acc: seq<SignalJson>)
    requires pos <= |lines|
    ensures Collect(lines, pos, acc).Finished? ==>
      var sigs := Collect(lines, pos, acc).signals;
      forall i | |acc| <= i < |sigs| :: sigs[i].name.Some? && sigs[i].returnType.Some?
    decreases |lines| - pos
  {
    if pos < |lines| {
      if !IsSignalLine(lines[pos]) {
        CollectNamed(lines, pos + 1, acc);
        assert Collect(lines, pos, acc) == Collect(lines, pos + 1, acc);
      } else {
        match ParseBlock(lines, pos + 1, EmptyJson, SignalName(lines[pos].cmd))
        case Declared(j, next) =>
          CollectNamed(lines, next, acc + [j]);
          CollectBound(lines, next, acc + [j]);
          var out := Collect(lines, next, acc + [j]);
          assert Collect(lines, pos, acc) == out;
          if out.Finished? {
            assert out.signals[|acc|] == j;
          }
        case Rejected(next) =>
          CollectNamed(lines, next, acc);
          assert Collect(lines, pos, acc) == Collect(lines, next, acc);
        case Exhausted =>
        case Crashed(_) =>
      }
    }
  }

  // ---------------------------------------------------------------------------
  // Where a block crashes

  /**
   * The exception a doxygen line raises inside a block, whatever the record
   * holds: a first word outside the dispatch table is a `KeyError` on that
   * word (a nested `@signal` among them), and a bare `param` has no
   * `tokens[1]`.
   */
  function DocCrash(cmd: DocCmd): Option<Crash> {
    var w := cmd.Keyword();
    if w != "param" && w != "brief" && w != "pretty" then Some(KeyError(w))
    else if cmd.Comment? && w == "param" then Some(IndexError)
    else None
  }

  /** A doxygen line fails exactly as `DocCrash` says, and otherwise applies. */
  lemma ApplyDocCrash(json: SignalJson, cmd: DocCmd)
    ensures ApplyDoc(json, cmd).Err? <==> DocCrash(cmd).Some?
    ensures ApplyDoc(json, cmd).Err? ==> ApplyDoc(json, cmd).error == DocCrash(cmd).value
  {
  }

  /** Lines `pos` up to `k` are doxygen lines that raise nothing. */
  predicate DocRun(lines: seq<Line>, pos: nat, k: nat) {
    pos <= k <= |lines| && forall i | pos <= i < k :: lines[i].Doc? && DocCrash(lines[i].cmd).None?
  }

  /** A run of harmless doxygen lines is read through; the line after it ends the scan. */
  lemma {:induction false} ScanThrough(lines: seq<Line>, pos: nat, json: SignalJson, k: nat)
    requires DocRun(lines, pos, k) && k < |lines|
    ensures lines[k].Code? ==> ScanDocs(lines, pos, json).Stopped? && ScanDocs(lines, pos, json).at == k
    ensures lines[k].Doc? && DocCrash(lines[k].cmd).Some? ==>
      ScanDocs(lines, pos, json) == Failed(DocCrash(lines[k].cmd).value)
    decreases k - pos
  {
    if lines[pos].Doc? {
      ApplyDocCrash(json, lines[pos].cmd);
    }
    if pos < k {
      var step := ApplyDoc(json, lines[pos].cmd);
      assert DocRun(lines, pos + 1, k);
      ScanThrough(lines, pos + 1, step.value, k);
    }
  }

  /** The scan ends after a run of harmless doxygen lines: at a code line, a crashing line or the end of the file. */
  lemma {:induction false} ScanEnds(lines: seq<Line>, pos: nat, json: SignalJson)
    requires pos <= |lines|
    ensures var r := ScanDocs(lines, pos, json);
      (r.Stopped? ==> DocRun(lines, pos, r.at)) &&
      (r.Ended? ==> DocRun(lines, pos, |lines|)) &&
      (r.Failed? ==> exists k | pos <= k < |lines| ::
         DocRun(lines, pos, k) && lines[k].Doc? && DocCrash(lines[k].cmd) == Some(r.crash))
    decreases |lines| - pos
  {
    if pos < |lines| && lines[pos].Doc? {
      var step := ApplyDoc(json, lines[pos].cmd);
      ApplyDocCrash(json, lines[pos].cmd);
      if step.Ok? {
        ScanEnds(lines, pos + 1, step.value);
        var r := ScanDocs(lines, pos + 1, step.value);
        assert ScanDocs(lines, pos, json) == r;
        if r.Failed? {
          var k :| pos + 1 <= k < |lines| && DocRun(lines, pos + 1, k) && lines[k].Doc? && DocCrash(lines[k].cmd) == Some(r.crash);
          assert DocRun(lines, pos, k);
        }
      } else {
        assert DocRun(lines, pos, pos);
      }
    }
  }

  /** The line that crashes a fresh block read from `pos`, after the harmless run up to it. */
  predicate CrashLine(lines: seq<Line>, pos: nat, k: nat)
    requires pos <= k < |lines|
  {
    match lines[k]
    case Doc(cmd) => DocCrash(cmd).Some?
    case Code(decl) => decl.Some? && Recognised(decl.value.args) != [] && ParamArgs(lines[pos..k]) == []
  }

  /**
   * After a run of harmless doxygen lines, ended by a code line or a crashing
   * one, a fresh block crashes on a line
   * outside the dispatch table with that line's exception, and on a
   * declaration with a recognised type but no `@param` before it with
   * `KeyError('args')`.
   */
  lemma BlockCrashesAt(lines: seq<Line>, pos: nat, name: Option<string>, k: nat)
    requires DocRun(lines, pos, k) && k < |lines|
    requires lines[k].Code? || DocCrash(lines[k].cmd).Some?
    ensures ParseBlock(lines, pos, EmptyJson, name).Crashed? <==> CrashLine(lines, pos, k)
    ensures lines[k].Doc? && CrashLine(lines, pos, k) ==>
      ParseBlock(lines, pos, EmptyJson, name) == Crashed(DocCrash(lines[k].cmd).value)
    ensures lines[k].Code? && CrashLine(lines, pos, k) ==>
      ParseBlock(lines, pos, EmptyJson, name) == Crashed(KeyError("args"))
  {
    ScanThrough(lines, pos, EmptyJson, k);
    if lines[k].Code? {
      ScanArguments(lines, pos, EmptyJson);
      var sc := ScanDocs(lines, pos, EmptyJson);
      assert |ArgsOf(sc.json)| == |Untyped(ArgsOf(sc.json))| == |ParamArgs(lines[pos..k])|;
    }
  }

  /** A fresh block crashes exactly when a crashing line follows a run of harmless doxygen lines. */
  lemma BlockCrash(lines: seq<Line>, pos: nat, name: Option<string>)
    requires pos <= |lines|
    ensures ParseBlock(lines, pos, EmptyJson, name).Crashed? <==>
      exists k | pos <= k < |lines| :: DocRun(lines, pos, k) && CrashLine(lines, pos, k)
  {
    ScanEnds(lines, pos, EmptyJson);
    var sc := ScanDocs(lines, pos, EmptyJson);
    if sc.Stopped? {
      BlockCrashesAt(lines, pos, name, sc.at);
    } else if sc.Failed? {
      var k :| pos <= k < |lines| && DocRun(lines, pos, k) && lines[k].Doc? && DocCrash(lines[k].cmd) == Some(sc.crash);
      assert CrashLine(lines, pos, k);
    }
    if exists k | pos <= k < |lines| :: DocRun(lines, pos, k) && CrashLine(lines, pos, k) {
      var k :| pos <= k < |lines| && DocRun(lines, pos, k) && CrashLine(lines, pos, k);
      BlockCrashesAt(lines, pos, name, k);
    }
  }

  /** The loop aborts with the crash of the first `signal` block it reaches. */
  lemma {:induction false} CollectAbortsAt(lines: seq<Line>, pos: nat, p: nat, acc: seq<SignalJson>)
    requires pos <= p < |lines| && IsSignalLine(lines[p])
    requires forall i | pos <= i < p :: !IsSignalLine(lines[i])
    requires ParseBlock(lines, p + 1, EmptyJson, SignalName(lines[p].cmd)).Crashed?
    ensures Collect(lines, pos, acc) == Aborted(ParseBlock(lines, p + 1, EmptyJson, SignalName(lines[p].cmd)).crash)
    decreases p - pos
  {
    if pos < p {
      CollectAbortsAt(lines, pos + 1, p, acc);
    }
  }

  /** An aborted run crashed in the block of a `signal` line. */
  lemma {:induction false} CollectAborted(lines: seq<Line>, pos: nat, acc: seq<SignalJson>)
    requires pos <= |lines|
    ensures Collect(lines, pos, acc).Aborted? ==>
      exists p | pos <= p < |lines| :: IsSignalLine(lines[p]) &&
        ParseBlock(lines, p + 1, EmptyJson, SignalName(lines[p].cmd)) == Crashed(Collect(lines, pos, acc).crash)
    decreases |lines| - pos
  {
    if pos < |lines| {
      if !IsSignalLine(lines[pos]) {
        CollectAborted(lines, pos + 1, acc);
        assert Collect(lines, pos, acc) == Collect(lines, pos + 1, acc);
      } else {
        match ParseBlock(lines, pos + 1, EmptyJson, SignalName(lines[pos].cmd))
        case Declared(j, next) =>
          CollectAborted(lines, next, acc + [j]);
          assert Collect(lines, pos, acc) == Collect(lines, next, acc + [j]);
        case Rejected(next) =>
          CollectAborted(lines, next, acc);
          assert Collect(lines, pos, acc) == Collect(lines, next, acc);
        case Exhausted =>
        case Crashed(_) =>
      }
    }
  }
}
