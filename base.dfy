/**
 * Shared vocabulary of the code-generation tools: optional values and results
 * (Python's missing keys and raised exceptions), and the few Python string and
 * path operations the tools rely on (`str.join`, `str.split`, `str.startswith`,
 * `os.path.splitext`).
 */
module Base {

  datatype Option<+T> = None | Some(value: T) {
    /** `d.get(key, default)` once the lookup has been made. */
    function GetOr(default: T): T {
      match this
      case Some(v) => v
      case None => default
    }
  }

  datatype Result<+T, +E> = Ok(value: T) | Err(error: E)

  /** `s.startswith(p)` */
  predicate StartsWith(s: string, p: string) {
    |p| <= |s| && s[..|p|] == p
  }

  /** Python truthiness of an optional string: `None` and `''` are false. */
  predicate Truthy(s: Option<string>) {
    s.Some? && s.value != ""
  }

  /** Regrouping a concatenation; stated once so long proofs need not rediscover it. */
  lemma ConcatAssoc<T>(a: seq<T>, b: seq<T>, c: seq<T>)
    ensures (a + b) + c == a + (b + c)
  {
  }

  /** A prefix one longer: the shorter prefix and the next element. */
  lemma PrefixSnoc<T>(s: seq<T>, i: nat)
    requires i < |s|
    ensures s[..i + 1] == s[..i] + [s[i]]
  {
  }

  // ---------------------------------------------------------------------------
  // sep.join(parts) and s.split(sep)

  /** `sep.join(parts)` */
  function Join(sep: string, parts: seq<string>): string
  {
    if |parts| == 0 then ""
    else if |parts| == 1 then parts[0]
    else parts[0] + sep + Join(sep, parts[1..])
  }

  /** Joining one more part on the right adds the separator and the part. */
  lemma {:induction false} JoinSnoc(sep: string, parts: seq<string>, x: string)
    requires |parts| >= 1
    ensures Join(sep, parts + [x]) == Join(sep, parts) + sep + x
  {
    if |parts| == 1 {
      assert parts + [x] == [parts[0], x];
      assert [parts[0], x][1..] == [x];
    } else {
      calc {
        Join(sep, parts + [x]);
        { assert (parts + [x])[1..] == parts[1..] + [x]; }
        parts[0] + sep + Join(sep, parts[1..] + [x]);
        { JoinSnoc(sep, parts[1..], x); }
        parts[0] + sep + (Join(sep, parts[1..]) + sep + x);
      }
    }
  }

  /**
   * `s.split(sep)`: the text between the non-overlapping occurrences of `sep`,
   * found from left to right. There is always at least one part.
   */
  function Split(s: string, sep: string): (r: seq<string>)
    requires |sep| > 0
    ensures |r| >= 1
    decreases |s|
  {
    if |s| < |sep| then [s]
    else if s[..|sep|] == sep then [""] + Split(s[|sep|..], sep)
    else
      var rest := Split(s[1..], sep);
      [[s[0]] + rest[0]] + rest[1..]
  }

  /** Joining the parts of a split with the same separator gives back the text. */
  lemma {:induction false} JoinSplit(s: string, sep: string)
    requires |sep| > 0
    ensures Join(sep, Split(s, sep)) == s
    decreases |s|
  {
    if |s| < |sep| {
    } else if s[..|sep|] == sep {
      JoinSplitAtSeparator(s, sep);
    } else {
      JoinSplitAtChar(s, sep);
    }
  }

  lemma {:induction false} JoinSplitAtSeparator(s: string, sep: string)
    requires |sep| > 0 && |s| >= |sep| && s[..|sep|] == sep
    ensures Join(sep, Split(s, sep)) == s
    decreases |s|, 0
  {
    var rest := Split(s[|sep|..], sep);
    assert Split(s, sep) == [""] + rest;
    JoinSplit(s[|sep|..], sep);
    assert ([""] + rest)[1..] == rest;
    assert Join(sep, [""] + rest) == "" + sep + Join(sep, rest);
    assert s == s[..|sep|] + s[|sep|..];
  }

  lemma {:induction false} JoinSplitAtChar(s: string, sep: string)
    requires |sep| > 0 && |s| >= |sep| && s[..|sep|] != sep
    ensures Join(sep, Split(s, sep)) == s
    decreases |s|, 0
  {
    var rest := Split(s[1..], sep);
    var r := [[s[0]] + rest[0]] + rest[1..];
    assert Split(s, sep) == r;
    JoinSplit(s[1..], sep);
    assert s == [s[0]] + s[1..];
    if |rest| == 1 {
      assert r == [[s[0]] + rest[0]];
    } else {
      assert r[0] == [s[0]] + rest[0];
      assert r[1..] == rest[1..];
      assert Join(sep, r) == r[0] + sep + Join(sep, r[1..]);
      assert Join(sep, rest) == rest[0] + sep + Join(sep, rest[1..]);
    }
  }

  /** `c` does not occur in `s`. */
  predicate Avoids(s: string, c: char) {
    forall i | 0 <= i < |s| :: s[i] != c
  }

  /** A text free of the separator's first character is a single part. */
  lemma {:induction false} SplitWhole(p: string, sep: string)
    requires |sep| > 0 && Avoids(p, sep[0])
    ensures Split(p, sep) == [p]
    decreases |p|
  {
    if |p| >= |sep| {
      assert p[..|sep|][0] != sep[0];
      SplitWhole(p[1..], sep);
      assert [p[0]] + p[1..] == p;
    }
  }

  /** A part free of the separator's first character ends at the next separator. */
  lemma {:induction false} SplitFirstPart(p: string, x: string, sep: string)
    requires |sep| > 0 && Avoids(p, sep[0]) && StartsWith(x, sep)
    ensures Split(p + x, sep) == [p] + Split(x[|sep|..], sep)
    decreases |p|
  {
    if p == [] {
      assert p + x == x;
    } else {
      var s := p + x;
      assert s[..|sep|][0] == p[0] != sep[0];
      assert s[1..] == p[1..] + x;
      SplitFirstPart(p[1..], x, sep);
      assert [p[0]] + p[1..] == p;
    }
  }

  /**
   * Splitting a join gives back the parts, provided no part contains the
   * separator's first character.
   */
  lemma {:induction false} SplitJoin(parts: seq<string>, sep: string)
    requires |sep| > 0 && |parts| >= 1
    requires forall k | 0 <= k < |parts| :: Avoids(parts[k], sep[0])
    ensures Split(Join(sep, parts), sep) == parts
  {
    if |parts| == 1 {
      SplitWhole(parts[0], sep);
    } else {
      var tail := Join(sep, parts[1..]);
      assert Join(sep, parts) == parts[0] + (sep + tail);
      assert (sep + tail)[..|sep|] == sep;
      SplitFirstPart(parts[0], sep + tail, sep);
      assert (sep + tail)[|sep|..] == tail;
      SplitJoin(parts[1..], sep);
      assert [parts[0]] + parts[1..] == parts;
    }
  }

  // ---------------------------------------------------------------------------
  // Filtering lines and finding the first failure

  /** `[x for x in xs if keep(x)]` */
  function Filter<T>(xs: seq<T>, keep: T -> bool): (r: seq<T>)
    ensures |r| <= |xs|
  {
    if xs == [] then [] else (if keep(xs[0]) then [xs[0]] else []) + Filter(xs[1..], keep)
  }

  lemma {:induction false} FilterConcat<T>(a: seq<T>, b: seq<T>, keep: T -> bool)
    ensures Filter(a + b, keep) == Filter(a, keep) + Filter(b, keep)
  {
    if a == [] {
      assert a + b == b;
    } else {
      var head := if keep(a[0]) then [a[0]] else [];
      assert (a + b)[0] == a[0];
      assert (a + b)[1..] == a[1..] + b;
      calc {
        Filter(a + b, keep);
        head + Filter(a[1..] + b, keep);
        { FilterConcat(a[1..], b, keep); }
        head + (Filter(a[1..], keep) + Filter(b, keep));
        (head + Filter(a[1..], keep)) + Filter(b, keep);
      }
    }
  }

  /**
   * Where a left-to-right pass that stops at the first element `f` rejects
   * comes to a halt: the index of that element, or `|xs|` when there is none.
   */
  function FirstFailing<T, E>(xs: seq<T>, f: T -> Option<E>): (k: nat)
    ensures k <= |xs|
    ensures forall j | 0 <= j < k :: f(xs[j]).None?
    ensures k < |xs| ==> f(xs[k]).Some?
  {
    if xs == [] then 0
    else if f(xs[0]).Some? then 0
    else 1 + FirstFailing(xs[1..], f)
  }

  /** The failure that stops such a pass, if any. */
  function FirstFailure<T, E>(xs: seq<T>, f: T -> Option<E>): Option<E>
  {
    var k := FirstFailing(xs, f);
    if k < |xs| then f(xs[k]) else None
  }

  /** The pass stops at the first element `f` rejects, wherever that is shown to be. */
  lemma FirstFailureAt<T, E>(xs: seq<T>, f: T -> Option<E>, k: nat)
    requires k <= |xs| && forall j | 0 <= j < k :: f(xs[j]).None?
    requires k < |xs| ==> f(xs[k]).Some?
    ensures FirstFailure(xs, f) == if k < |xs| then f(xs[k]) else None
  {
    var m := FirstFailing(xs, f);
    assert m <= k;
    assert m >= k;
  }

  /** The pass over one more element stops where the shorter pass stopped, or at that element. */
  lemma FirstFailureSnoc<T, E>(xs: seq<T>, f: T -> Option<E>)
    requires xs != []
    ensures var before := FirstFailure(xs[..|xs| - 1], f);
      FirstFailure(xs, f) == if before.Some? then before else f(xs[|xs| - 1])
  {
    var init := xs[..|xs| - 1];
    var k := FirstFailing(xs, f);
    var k' := FirstFailing(init, f);
    assert forall j | 0 <= j < |init| :: init[j] == xs[j];
    if k' < |init| {
      assert k <= k';
      assert k >= k';
    }
  }

  // ---------------------------------------------------------------------------
  // os.path.splitext

  /** `s.rfind(c)`: the last index of `c` in `s`, or -1. */
  function RFind(s: string, c: char): (r: int)
    ensures -1 <= r < |s|
    ensures r == -1 <==> c !in s
    ensures r >= 0 ==> s[r] == c
    ensures forall i | r < i < |s| :: s[i] != c
  {
    if s == [] then -1
    else if s[|s| - 1] == c then |s| - 1
    else
      var r := RFind(s[..|s| - 1], c);
      assert forall i | 0 <= i < |s| - 1 :: s[..|s| - 1][i] == s[i];
      r
  }

  /**
   * `os.path.splitext(p)[0]` for POSIX paths: the extension starts at the last
   * dot of the last path component, unless everything before that dot in the
   * component is dots (a hidden file has no extension).
   */
  function StripExtension(p: string): string
  {
    var sepIndex := RFind(p, '/');
    var dotIndex := RFind(p, '.');
    if dotIndex > sepIndex && exists i | sepIndex + 1 <= i < dotIndex :: p[i] != '.'
    then p[..dotIndex]
    else p
  }

  /**
   * Replacing the extension: a stem whose last character is neither a dot nor
   * a slash keeps everything up to the extension `.ext` that follows it.
   */
  lemma StripExtensionOf(stem: string, ext: string)
    requires |stem| > 0 && stem[|stem| - 1] != '.' && stem[|stem| - 1] != '/'
    requires '.' !in ext && '/' !in ext
    ensures StripExtension(stem + "." + ext) == stem
  {
    var p := stem + "." + ext;
    var d := RFind(p, '.');
    var s := RFind(p, '/');
    assert p[|stem|] == '.';
    assert forall i | |stem| < i < |p| :: p[i] == ext[i - |stem| - 1];
    assert d == |stem|;
    assert p[|stem| - 1] == stem[|stem| - 1];
    assert s < |stem| - 1;
    assert p[..d] == stem;
  }

  // ---------------------------------------------------------------------------
  // Text written line by line

  /** The text of a file written with one `write(line + "\n")` per line. */
  function Render(lines: seq<string>): string
  {
    if lines == [] then "" else Render(lines[..|lines| - 1]) + lines[|lines| - 1] + "\n"
  }

  // ---------------------------------------------------------------------------
  // The file system

  /** The files the tools read and write, by path. */
  class Disk {
    var files: map<string, string>

    constructor (files: map<string, string>)
      ensures this.files == files
    {
      this.files := files;
    }

    /** Opens `path` for writing (creating or truncating it), writes `text` and closes it. */
    method Write(path: string, text: string)
      modifies this
      ensures files == old(files)[path := text]
    {
      files := files[path := text];
    }
  }
}
