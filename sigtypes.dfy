/**
 * The translation tables between signature kinds (the names a signal's
 * arguments are declared with) and their C++ spellings.
 *
 * `ToCppTypes` is `to_cpp_types` of tools/sigparse.py and, verbatim, the
 * `totypes` table of tools/siggen.py and tools/sgen.py, so it is defined once.
 * `ToSigTypes` is `to_sig_types`: every C++ spelling the parser accepts,
 * including the unqualified aliases (`Uint`, `Real`, `URI`, ...).
 */
module SigTypes {
  import opened Base

  const ToCppTypes: map<string, string> := map[
    "integer" := "int",
    "unsigned" := "cf3::Uint",
    "unsigned_long" := "unsigned long",
    "unsigned_long_long" := "unsigned long long",
    "string" := "std::string",
    "bool" := "bool",
    "real" := "cf3::Real",
    "uri" := "cf3::common::URI",
    "uucount" := "cf3::common::UUCount",
    "array[integer]" := "std::vector<int>",
    "array[unsigned]" := "std::vector<cf3::Uint>",
    "array[string]" := "std::vector<std::string>",
    "array[bool]" := "std::vector<bool>",
    "array[real]" := "std::vector<cf3::Real>",
    "array[uri]" := "std::vector<cf3::common::URI>"
  ]

  const ToSigTypes: map<string, string> := map[
    "int" := "integer",
    "cf3::Uint" := "unsigned",
    "Uint" := "unsigned",
    "unsigned long" := "unsigned_long",
    "unsigned long long" := "unsigned_long_long",
    "std::string" := "string",
    "bool" := "bool",
    "cf3::Real" := "real",
    "Real" := "real",
    "cf3::common::URI" := "uri",
    "common::URI" := "uri",
    "URI" := "uri",
    "cf3::common::UUCount" := "uucount",
    "common::UUCount" := "uucount",
    "UUCount" := "uucount",
    "std::vector<int>" := "array[integer]",
    "std::vector<cf3::Uint>" := "array[unsigned]",
    "std::vector<Uint>" := "array[unsigned]",
    "std::vector<std::string>" := "array[string]",
    "std::vector<bool>" := "array[bool]",
    "std::vector<cf3::Real>" := "array[real]",
    "std::vector<Real>" := "array[real]",
    "std::vector<cf3::common::URI>" := "array[uri]",
    "std::vector<common::URI>" := "array[uri]",
    "std::vector<URI>" := "array[uri]"
  ]

  /** The signature kinds, in the order the tables list them. */
  const Kinds: seq<string> := [
    "integer", "unsigned", "unsigned_long", "unsigned_long_long", "string",
    "bool", "real", "uri", "uucount", "array[integer]", "array[unsigned]",
    "array[string]", "array[bool]", "array[real]", "array[uri]"
  ]

  /** `tp.startswith('array')` */
  predicate IsArrayKind(kind: string) {
    StartsWith(kind, "array")
  }

  /**
   * `tp[6:-1]` with Python's slice clamping: what lies between `array[` and
   * the closing `]`.
   */
  function ElementKind(kind: string): string {
    if |kind| > 6 then kind[6..|kind| - 1] else ""
  }

  lemma ElementKindOfArray(x: string)
    ensures ElementKind("array[" + x + "]") == x
  {
    var k := "array[" + x + "]";
    assert k[6..|k| - 1] == x;
  }

  lemma KindsAreTheCppKeys()
    ensures forall k :: k in ToCppTypes <==> k in Kinds
  {
  }

  /**
   * The tables round-trip: the C++ spelling of every kind is read back as
   * that kind.
   */
  lemma TablesRoundTrip()
    ensures forall k | k in ToCppTypes :: ToCppTypes[k] in ToSigTypes && ToSigTypes[ToCppTypes[k]] == k
  {
  }

  /** Every C++ spelling the parser accepts names a kind the generators know. */
  lemma AliasesAreKinds()
    ensures forall t | t in ToSigTypes :: ToSigTypes[t] in ToCppTypes
  {
    KindsAreTheCppKeys();
  }

  /** The array kinds are the last six keys. */
  lemma ArrayKeys()
    ensures forall k | k in ToCppTypes && IsArrayKind(k) ::
      k == "array[integer]" || k == "array[unsigned]" || k == "array[string]" ||
      k == "array[bool]" || k == "array[real]" || k == "array[uri]"
  {
    forall k | k in ToCppTypes && IsArrayKind(k)
      ensures k == "array[integer]" || k == "array[unsigned]" || k == "array[string]" ||
              k == "array[bool]" || k == "array[real]" || k == "array[uri]"
    {
      assert k[0] == 'a';
      assert "integer"[0] != 'a';
      assert "unsigned"[0] != 'a';
      assert "unsigned_long"[0] != 'a';
      assert "unsigned_long_long"[0] != 'a';
      assert "string"[0] != 'a';
      assert "bool"[0] != 'a';
      assert "real"[0] != 'a';
      assert "uri"[0] != 'a';
      assert "uucount"[0] != 'a';
    }
  }

  lemma ArrayIntegerVector()
    ensures ElementKind("array[integer]") == "integer"
    ensures ToCppTypes["array[integer]"] == "std::vector<" + ToCppTypes["integer"] + ">"
    ensures "integer" in ToCppTypes && !IsArrayKind("integer")
  {
    assert "array[integer]"[6..13] == "integer";
    assert ToCppTypes["integer"] == "int";
    assert ToCppTypes["array[integer]"] == "std::vector<" + "int" + ">";
    assert "integer"[0] != 'a';
  }

  lemma ArrayUnsignedVector()
    ensures ElementKind("array[unsigned]") == "unsigned"
    ensures ToCppTypes["array[unsigned]"] == "std::vector<" + ToCppTypes["unsigned"] + ">"
    ensures "unsigned" in ToCppTypes && !IsArrayKind("unsigned")
  {
    assert "array[unsigned]"[6..14] == "unsigned";
    assert ToCppTypes["unsigned"] == "cf3::Uint";
    assert ToCppTypes["array[unsigned]"] == "std::vector<" + "cf3::Uint" + ">";
    assert "unsigned"[0] != 'a';
  }

  lemma ArrayStringVector()
    ensures ElementKind("array[string]") == "string"
    ensures ToCppTypes["array[string]"] == "std::vector<" + ToCppTypes["string"] + ">"
    ensures "string" in ToCppTypes && !IsArrayKind("string")
  {
    assert "array[string]"[6..12] == "string";
    assert ToCppTypes["string"] == "std::string";
    assert ToCppTypes["array[string]"] == "std::vector<" + "std::string" + ">";
    assert "string"[0] != 'a';
  }

  lemma ArrayBoolVector()
    ensures ElementKind("array[bool]") == "bool"
    ensures ToCppTypes["array[bool]"] == "std::vector<" + ToCppTypes["bool"] + ">"
    ensures "bool" in ToCppTypes && !IsArrayKind("bool")
  {
    assert "array[bool]"[6..10] == "bool";
    assert ToCppTypes["bool"] == "bool";
    assert ToCppTypes["array[bool]"] == "std::vector<" + "bool" + ">";
    assert "bool"[0] != 'a';
  }

  lemma ArrayRealVector()
    ensures ElementKind("array[real]") == "real"
    ensures ToCppTypes["array[real]"] == "std::vector<" + ToCppTypes["real"] + ">"
    ensures "real" in ToCppTypes && !IsArrayKind("real")
  {
    assert "array[real]"[6..10] == "real";
    assert ToCppTypes["real"] == "cf3::Real";
    assert ToCppTypes["array[real]"] == "std::vector<" + "cf3::Real" + ">";
    assert "real"[0] != 'a';
  }

  lemma ArrayUriVector()
    ensures ElementKind("array[uri]") == "uri"
    ensures ToCppTypes["array[uri]"] == "std::vector<" + ToCppTypes["uri"] + ">"
    ensures "uri" in ToCppTypes && !IsArrayKind("uri")
  {
    assert "array[uri]"[6..9] == "uri";
    assert ToCppTypes["uri"] == "cf3::common::URI";
    assert ToCppTypes["array[uri]"] == "std::vector<" + "cf3::common::URI" + ">";
    assert "uri"[0] != 'a';
  }

  /**
   * Each array kind `array[X]` is spelt as the vector of X's spelling, so the
   * element kind the generators cut out of it is itself a scalar kind.
   */
  lemma ArrayTypesAreVectors()
    ensures forall k | k in ToCppTypes && IsArrayKind(k) ::
      ElementKind(k) in ToCppTypes && !IsArrayKind(ElementKind(k)) &&
      ToCppTypes[k] == "std::vector<" + ToCppTypes[ElementKind(k)] + ">"
  {
    ArrayKeys();
    ArrayIntegerVector();
    ArrayUnsignedVector();
    ArrayStringVector();
    ArrayBoolVector();
    ArrayRealVector();
    ArrayUriVector();
  }

  /** No C++ spelling starts with `o`, so a declaration line never looks like an `options.` call. */
  lemma CppSpellingsStart()
    ensures forall k | k in ToCppTypes :: |ToCppTypes[k]| > 0 && ToCppTypes[k][0] in "icusb"
  {
    KindsAreTheCppKeys();
  }
}
