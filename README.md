# Signal-signature code generation, modelled in Dafny

The framework's components expose "signals": named operations that can be invoked remotely, with typed and documented arguments. Three Python tools generate the C++ glue for those signals.

- `tools/sigparse.py` reads a C++ header. A doxygen block opens with `/// @signal`, carries `@param`, `@brief` and `@pretty` lines, and is closed by the C++ declaration. The tool builds a JSON-shaped record per signal: name, brief, pretty name, return type, and arguments with name, description, default and signature kind. The kind of each argument is found by matching the declaration's parameter types, in order, against a table of C++ spellings.
- `tools/siggen.py` turns a decoded JSON file of classes and signals into one `.cpp` file. For each signal it writes two functions: a `signal_<name>` function that unpacks the arguments and calls the member function, and a `signature_<name>` function that declares the arguments with their defaults. For each class it then writes a `generate_signals()` block that registers every signal. The file is rewritten only when the new text differs from the old.
- `tools/sgen.py` is the earlier variant. Its input path is fixed and its output file is reopened for every class.

The Dafny modules follow the tools:

| module | file | what it holds |
|---|---|---|
| `Base` | base.dfy | Option/Result; Python's `join`, `split`, `startswith` and `os.path.splitext`; filtering; the first failure of a pass; text written line by line; the file system as a map from paths to texts |
| `SigTypes` | sigtypes.dfy | the kind/C++ translation tables. They are shared by all three tools: `totypes` is the same table as `to_cpp_types` |
| `SigParse` | sigparse.dfy | sigparse.py after tokenisation: the `Header` iterator and `Signal` classes, the top-level collection loop, and the block specification they are proved against |
| `Emit` | emit.dfy | the per-class text that siggen.py and sgen.py both write (`gen`): line builders, a specification of what is written up to the first exception, and the writing methods proved against it |
| `SigGen` | siggen.dfy | `namespace`, `header_file`, siggen's `gen`, and `main`'s prelude, loop, output path and write-if-changed decision |
| `SGen` | sgen.dfy | `output_file`, sgen's `gen` on a file reopened for writing, and the list-or-object dispatch |
| `Layout` | layout.dfy | line-level properties of the generated text |
| `Pipeline` | pipeline.dfy | sigparse's records as the generators read them |

The generated text is a sequence of lines; `Render` gives the file text. A Python exception that ends a tool becomes an error value: `KeyError`, `IndexError`, or `NameError`. A list default for a scalar kind is one more error value, `ListDefault`: Python raises a `TypeError` there for the `uri` and `string` kinds, and raises nothing for the other kinds (see Left out). Lines already written when the exception is raised stay written.

## Model

| member | source | states |
|---|---|---|
| SigTypes.TablesRoundTrip | tools/sigparse.py:8-68 | for every key `k` of `to_cpp_types`, `to_sig_types[to_cpp_types[k]] == k` |
| SigTypes.AliasesAreKinds | tools/sigparse.py:26-68 | every value of `to_sig_types` is a key of `to_cpp_types`: each accepted C++ alias maps to a kind the generators know |
| SigTypes.KindsAreTheCppKeys | tools/sigparse.py:8-24 | the keys of `to_cpp_types` are exactly the fifteen signature kinds |
| SigTypes.ArrayKeys | tools/siggen.py:17-22 | the keys starting with `array` are exactly the six `array[...]` kinds |
| SigTypes.ArrayTypesAreVectors | tools/siggen.py:7-23 | for every array key `array[X]`, `X` is a scalar key and the value is `std::vector<` + `totypes[X]` + `>` |
| SigTypes.ElementKindOfArray | tools/siggen.py:101 | `tp[6:-1]` of `array[X]` is `X` |
| SigTypes.CppSpellingsStart | tools/sgen.py:6-22 | every C++ spelling is non-empty and starts with one of `i c u s b` |
| SigParse.Header.Next | tools/sigparse.py:196 | `header.next()` returns the next line and advances, or reports the end of the file without moving |
| SigParse.Signal.constructor | tools/sigparse.py:182-186 | a new signal has an empty record and no name |
| SigParse.Signal.ParseParam | tools/sigparse.py:219-227 | the first `@param` creates `args`; each `@param` appends one argument: its name, its description words joined by single spaces, and its default or `""`. Nothing else changes |
| SigParse.Signal.ParseBrief | tools/sigparse.py:229-230 | `brief` becomes the description words joined by single spaces |
| SigParse.Signal.ParsePretty | tools/sigparse.py:232-233 | `pretty` becomes the description words joined by single spaces |
| SigParse.Signal.ParseCpp | tools/sigparse.py:235-251 | the loop with its `match` counter ends as `ApplyCpp`. It records the return type and takes the function name when the block gave none. The k-th recognised type goes to the k-th argument, stopping once all are typed. With a recognised type but no `@param` it fails with `KeyError('args')` |
| SigParse.Signal.Parse | tools/sigparse.py:189-216 | the block read from the header's position ends as `ParseBlock` says. A declared block leaves the header after the declaration line and the record completed with its name |
| SigParse.CollectSignals | tools/sigparse.py:254-265 | the top-level loop ends as `Collect` says: it stops at the end of the file or at an uncaught exception |
| SigParse.TypedArgs | tools/sigparse.py:248 | typing arguments keeps their number and every argument's name, description and default |
| SigParse.ParseBlock | tools/sigparse.py:195-214 | a declared block ends at a declaration line after its opening line. A dropped block ends at a line that neither grammar accepts |
| SigParse.CloseBlock | tools/sigparse.py:210-214 | the first non-doxygen line closes the block. A declaration declares it; any other line drops it |
| SigParse.RecognisedPrefix | tools/sigparse.py:244-251 | the kinds recognised in a prefix of the parameter tokens are a prefix of all recognised kinds, so matching is positional |
| SigParse.TypedArgsEnough | tools/sigparse.py:250-251 | once every argument is typed, further recognised kinds change nothing (the early `break`) |
| SigParse.BlockArguments | tools/sigparse.py:219-227 | a declared block holds one argument per `@param` line, in line order, after the arguments it started with |
| SigParse.ScanArguments | tools/sigparse.py:195-227 | the doxygen lines of a block add one untyped argument per `@param` line, in order, and `args` exists afterwards exactly when it did before or a `@param` line was read |
| SigParse.ScanShape | tools/sigparse.py:195-209 | the lines read before the block closes, or before the file ends, are all doxygen lines |
| SigParse.ScanUntyped | tools/sigparse.py:219-227 | doxygen lines never give an argument a type |
| SigParse.BlockTyped | tools/sigparse.py:219-251 | a fresh declared block has one argument per `@param` line, typed in order by the recognised types and untyped past them |
| SigParse.BlockHasArgs | tools/sigparse.py:220-221 | a declared block's record has `args` exactly when it started with one or contains a `@param` line |
| SigParse.BlockShape | tools/sigparse.py:195-216 | a block is a run of doxygen lines closed by the first other line. A block cut off by the end of the file holds only doxygen lines |
| SigParse.BlockDeclaration | tools/sigparse.py:235-251 | the return type is the first token. The name is the `@signal` identifier when it is non-empty, else the second token. Argument i has the i-th recognised kind when there is one and no type otherwise, so typing never indexes past the argument list |
| SigParse.RecognisedAreKinds | tools/sigparse.py:246-248 | every type recorded for an argument is a key of `to_cpp_types` |
| SigParse.CollectWithoutSignals | tools/sigparse.py:255-265 | a file with no `signal` line yields no signal and never fails |
| SigParse.CollectBound | tools/sigparse.py:254-265 | the collected signals extend the initial list, at most one per `signal` line |
| SigParse.ApplyDocCrash | tools/sigparse.py:202-207 | a doxygen line inside a block fails exactly as `DocCrash` says, whatever the record: a first word other than `param`, `brief` and `pretty` (a nested `@signal` among them) is a `KeyError` on that word, and a bare `param` is an `IndexError` |
| SigParse.ScanThrough | tools/sigparse.py:195-214 | a run of doxygen lines that raise nothing is read through; a code line after it stops the scan there, and a crashing line after it fails the scan with that line's exception |
| SigParse.ScanEnds | tools/sigparse.py:195-214 | every scan ends after a run of doxygen lines that raise nothing: at a code line, at a crashing line with its exception, or at the end of the file |
| SigParse.BlockCrashesAt | tools/sigparse.py:195-251 | after that run, a fresh block crashes exactly when the line ending it crashes, or it is a declaration with a recognised type and no `@param` line before it, which raises `KeyError('args')` |
| SigParse.BlockCrash | tools/sigparse.py:195-251 | a fresh block crashes if and only if such a crashing line follows a run of doxygen lines that raise nothing |
| SigParse.CollectAbortsAt | tools/sigparse.py:254-265 | the loop aborts with the crash of the first `signal` block it reaches |
| SigParse.CollectAborted | tools/sigparse.py:254-265 | a loop that aborts does so with the crash of the block of some `signal` line |
| SigParse.CollectNamed | tools/sigparse.py:254-265 | every signal the loop collects has a name and a return type |
| Emit.QuoteUnquote | tools/siggen.py:31-36 | `quote_value` wraps a `uri` in `cf3::common::URI("…")`, a `string` in double quotes, and leaves other kinds alone. Reading the literal back for the same kind gives the value |
| Emit.UnquoteQuote | tools/sgen.py:27-32 | sgen's identical `quote_value`: every literal read back for a kind is exactly what `quote_value` produces from the value read |
| Emit.TextItems | tools/siggen.py:102 | a string default for an array kind is iterated as items of one character each which, joined in order, give the string back |
| Emit.SoundIffNoError | tools/siggen.py:72-105 | a signal is generated without exception exactly when it has `args`, every argument has a known `type`, and no scalar argument has a list default |
| Emit.EmitSignalFn | tools/siggen.py:76-85 | writes the `signal_` function, stopping at the first argument without a known type with that argument's `KeyError` |
| Emit.EmitArg | tools/siggen.py:93-105 | one argument of the `signature_` function: its declaration, then, unless it has a list default for a scalar kind, its default line, `options.add` line and blank line |
| Emit.EmitArgRest | tools/siggen.py:97-105 | a default line is written only when the argument has a `value`: `+=` with the quoted items joined by `, ` for an array kind, `=` otherwise. Then comes the `options.add` line with the description or `""` |
| Emit.EmitSignatureFn | tools/siggen.py:89-108 | writes the `signature_` function argument by argument, stopping at the first bad default |
| Emit.EmitSignal | tools/siggen.py:72-108 | the `signal_` function, then the `signature_` function; a signal without `args` stops after the `signal_` head with `KeyError('args')` |
| Emit.EmitSignals | tools/sgen.py:47-83 | the loop over the signals, in order, stopping at the first exception |
| Emit.EmitRegistration | tools/siggen.py:112-122 | `generate_signals()` with one `regist_signal` block per signal, in order; a missing `desc` or `pretty` is written as `""` |
| Emit.EmitClass | tools/sgen.py:47-97 | `gen`'s body: the signal functions, then the registration block |
| Emit.SignalEmissionError | tools/siggen.py:72-108 | a signal's generation stops with exactly the error `SignalError` predicts from the record |
| Emit.ClassEmissionError | tools/sgen.py:47-97 | a class's generation stops with the first signal error, in signal order, or completes |
| SigGen.NamespaceOfQualified | tools/siggen.py:45-48 | `namespace()` of `a::…::y::C`, whose segments are free of `:`, drops the last segment and rejoins the rest with `::` |
| SigGen.NamespaceOfPlain | tools/siggen.py:45-48 | a class name free of `:` (as a C++ name without `::` is) has the empty namespace |
| SigGen.HeaderFile | tools/siggen.py:50-59 | the loop builds the `::` segments joined by `/`, plus `.hpp`: every segment but the last becomes a directory |
| SigGen.HeaderOfQualified | tools/siggen.py:50-59 | `header_file` of `a::b::C` is `a/b/C.hpp` |
| SigGen.Gen | tools/siggen.py:61-124 | the include line and `using` line for the class, then the shared class text, and a blank line when the class completes |
| SigGen.WritePrelude | tools/siggen.py:174-182 | the banner, the four includes and the five `using` directives, each followed by a blank line |
| SigGen.Generate | tools/siggen.py:172-186 | the buffer text is the prelude followed by every class's text; it fails exactly as the class loop fails |
| SigGen.GenClasses | tools/siggen.py:184-186 | the classes are generated in dictionary order into one buffer, stopping at the first exception |
| SigGen.Run | tools/siggen.py:193-208 | after an exception nothing is written. Otherwise the output path is written iff it is missing or its text differs, and the run is not dry |
| SigGen.WriteIfChanged | tools/siggen.py:193-208 | the output path is written iff it is missing or holds a different text, and the run is not dry; no other file changes |
| SigGen.OutputError | tools/siggen.py:184-186 | the run fails with the first failing signal in class order, or not at all |
| SigGen.DefaultOutputPath | tools/siggen.py:163-164 | without `-o`, `X.json` is generated into `X.cpp` |
| SigGen.WrittenHoldsText | tools/siggen.py:205-208 | after a run that is not dry, the output file holds the generated text |
| SigGen.WrittenIdempotent | tools/siggen.py:193-208 | a second identical run writes nothing, and no run touches any other file |
| SGen.OutputFileOfInput | tools/sgen.py:38-39 | `output_file` of the fixed input `…/Mesh.s.json` is `…/Mesh.s.cpp` |
| SGen.Gen | tools/sgen.py:41-97 | the output file is truncated, then holds the class's text up to the first exception |
| SGen.Run | tools/sgen.py:103-110 | a list is generated class by class, stopping at the first exception; a single object is generated as one class |
| SGen.LastClassWins | tools/sgen.py:44 | each class reopens the file with `'w'`, so once the earlier classes succeed the file holds the last class's text alone |
| SGen.OnlyOutputChanges | tools/sgen.py:104-107 | a run changes at most the output file |
| SGen.RunListError | tools/sgen.py:103-107 | a list run fails with the first failing signal in class order, or not at all |
| SGen.AsWrittenAgreesOnLists | tools/sgen.py:104-107 | in the list branch the module-level `cls` is the class being generated, so the code as written behaves as intended |
| SGen.SingleObjectNameError | tools/sgen.py:51 | as written, a single class object with one signal leaves the output file empty and ends with a `NameError` |
| SGen.SingleObjectGenerates | tools/sgen.py:108-110 | a single class object whose signals are sound is generated whole into the output file |
| Layout.ClassLayout | tools/siggen.py:112-122 | in a class whose signals are sound and whose argument names are identifiers (as sigparse's are), the `regist_signal` lines are exactly one per signal, in order. The function heads and the `options.add` lines are as `Heads` and `AllAdds` list them |
| Layout.SignalsContribute | tools/sgen.py:47-83 | for signals whose argument names are identifiers (as sigparse's are), per signal, in order: its `signal_` head and its `signature_` head, and one `options.add` line per argument |
| Layout.HeadsAlternate | tools/sgen.py:51-64 | the heads alternate: head 2i is `signal_<name i>` and head 2i+1 is `signature_<name i>` |
| Layout.ArgBlocksContribute | tools/sgen.py:78-79 | for arguments whose names are identifiers (as sigparse's are), the `signature_` body has exactly one `options.add` line per argument, in order |
| Layout.RegistBlocksContribute | tools/siggen.py:115-121 | the registration block has exactly one `regist_signal` line per signal, in order |
| Layout.CallArguments | tools/siggen.py:82 | splitting the call's argument list at `,` gives back the argument names in declaration order |
| Layout.ArrayDefault | tools/siggen.py:97-102 | an array default is one `+=` line. Its items are quoted with the element kind, which is a scalar kind, and splitting at `, ` gives them back |
| Pipeline.DescriptionIsEmpty | tools/sigparse.py:230 | the summary is stored under `brief`, which the generators never read, so every registered description is `""`; the pretty name is carried over |
| Pipeline.ParsedSignalError | tools/sigparse.py:219-251 | a parsed signal can be generated exactly when it has a `@param` and enough recognised types. Without a `@param` generation fails with `KeyError('args')`; with too few recognised types it fails with `KeyError('type')` |
| Pipeline.ArgsError | tools/siggen.py:93-104 | arguments typed by a prefix of known kinds fail with `KeyError('type')` at the first untyped one, and never on a default |
| Pipeline.MissingDefault | tools/sigparse.py:225 | for every scalar argument from a `@param` without a default, the default line is still written, with the quoted empty string, because `value` is always set; for a kind other than `uri` and `string` it is `name = ;` |
| Pipeline.ArrayDefaultFromText | tools/siggen.py:102 | for every argument of an array kind from sigparse, the default line is `+=` with one quoted item per character of the default text, in order |
| Pipeline.DecodedGeneration | tools/sigparse.py:267-270 | sigparse's dictionary read by siggen is one class under `<cpp_class_type>` holding the collected signals in order, and the run fails with the first of them that cannot be generated |

## Left out

- The pyparsing grammars (tools/sigparse.py:121-174) are a foreign library. A header line arrives already classified (`SigParse.Line`) with the tokens the grammar would return, and a line the grammar rejects is `Code(None)`.
- File and console I/O is not modelled: `getopt`, `print`, `--dump`, `StringIO`, `json.load` and the input files. Decoded JSON is given as records. A key that siggen or sgen read unconditionally is assumed present: a class's `signals`, sgen's class `type` (tools/sgen.py:51, 64, 87), and a signal's or an argument's `name`. The files are a map from paths to texts.
- `SigGen.Run`: the sha1 digests are compared as texts. A digest collision is not modelled.
- The iteration order of a decoded JSON object is the order of the given sequence.
- `Emit.ArgValueError`, `Emit.SoundIffNoError`: a list default for a scalar kind is one `ListDefault` error. Python raises `TypeError` for `uri` and `string` kinds, and writes the list's `repr` for the other kinds; that text is not modelled.
- Defaults are strings or lists of strings; other JSON values are not modelled.
- Strings are assumed ASCII. In Python 2 `json.load` (tools/siggen.py:170, tools/sgen.py:101) returns `unicode` strings. The byte-string templates' `.format` (tools/siggen.py:76-120, tools/sgen.py:51-95) then raises `UnicodeEncodeError` at the first line that formats a name, description, pretty name or default holding a non-ASCII character, which ends either tool. That exception is not modelled.
- sigparse.py's own output path (`.s.cpp`, tools/sigparse.py:108-109) is not modelled, because the tool never writes to it. `Pipeline.ToDecoded` is the dictionary it prints as the generators read it, not the dictionary itself: it drops `brief` and `return_type`, which the generators never read, and has no `desc`. sigparse prints the dictionary with `print js` (tools/sigparse.py:271), as a Python `repr` with single quotes and after its own debug prints (tools/sigparse.py:185, 260), so handing it to the generators needs a conversion step that the tools do not contain.
- The moment Python flushes a file is not modelled: a file holds everything written to it before the tool stops.
- `SGen.Gen`: the signal heads take the class type from the class being generated, not from the module-level `cls` (see Findings). The code as written is modelled beside it by `SGen.RunAsWritten`.

## Findings

| source | as written | input that shows it | evidently intended | confidence | as-written member | corrected member |
|---|---|---|---|---|---|---|
| tools/sgen.py:51 | the `signal_` and `signature_` heads read the class type from the module-level `cls`, which only the list branch binds | a JSON file holding a single class object with one signal: the output file is truncated to empty, then a `NameError` ends the script | the class type of the class being generated, `self.cls['type']`, as the registration block at line 87 uses | high, not executed | SGen.SingleObjectNameError | SGen.SingleObjectGenerates |
