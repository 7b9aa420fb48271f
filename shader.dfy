/** `preprocessShader` and `preprocessShaderFromPath`: one level of textual
    inclusion. Every directive `#include_shader("path")` or
    `#include_shader('path')`, optionally followed by `;`, is replaced by the
    loaded text of `path` between two marker comments; the inserted text is
    not scanned again. */
module ShaderPreprocessor {
  import opened Wrappers

  /** `ShaderLoader`: maps a path to its source text, or to nothing
      (`undefined`). */
  type ShaderLoader = string -> Option<string>

  /** The fixed start of a directive, up to the opening quote. */
  const OPENING: string := "#include_shader("

  predicate IsQuote(c: char) {
    c == '"' || c == '\''
  }

  /** A path the directive pattern accepts between quotes `q`: non-empty and
      free of `q` (the other quote character and newlines are allowed). */
  predicate ValidPath(q: char, path: string) {
    IsQuote(q) && |path| > 0 && q !in path
  }

  /** The directive for `path` quoted with `q`, without the optional `;`. */
  function Spelling(q: char, path: string): string {
    OPENING + [q] + path + [q, ')']
  }

  /** What the pattern consumes after a directive: one `;` if present. */
  function AfterSemicolon(rest: string): string {
    if |rest| > 0 && rest[0] == ';' then rest[1..] else rest
  }

  /** A directive found at the start of a text: the unquoted path and the
      number of characters the match spans. */
  datatype Directive = Directive(path: string, length: nat)

  /** The first `q` in `s` at or after `from`. */
  function FindQuote(s: string, from: nat, q: char): (r: Option<nat>)
    requires from <= |s|
    ensures r.Some? ==> from <= r.value < |s| && s[r.value] == q && q !in s[from..r.value]
    ensures r.None? ==> q !in s[from..]
    decreases |s| - from
  {
    if from == |s| then None
    else if s[from] == q then Some(from)
    else
      var r := FindQuote(s, from + 1, q);
      assert r.Some? ==> s[from..r.value] == [s[from]] + s[from + 1..r.value];
      assert r.None? ==> s[from..] == [s[from]] + s[from + 1..];
      r
  }

  /** The directive pattern tried at the start of `s`. The quoted part runs to
      the first matching quote, which must be followed by `)`; a `;` right
      after is consumed too. */
  function MatchAt(s: string): (r: Option<Directive>)
    ensures r.Some? ==> |s| > |OPENING|
    ensures r.Some? ==>
      var q := s[|OPENING|];
      var n := |Spelling(q, r.value.path)|;
      ValidPath(q, r.value.path) && n <= r.value.length <= |s| && s[..n] == Spelling(q, r.value.path) &&
      s[r.value.length..] == AfterSemicolon(s[n..])
  {
    var n := |OPENING|;
    if |s| <= n || s[..n] != OPENING || !IsQuote(s[n]) then None
    else
      var q := s[n];
      match FindQuote(s, n + 1, q)
      case None => None
      case Some(j) =>
        if j == n + 1 || j + 1 >= |s| || s[j + 1] != ')' then None
        else
          var path := s[n + 1..j];
          assert s[..j + 2] == Spelling(q, path) by {
            assert s[..j + 2] == s[..n] + [q] + s[n + 1..j] + [s[j], s[j + 1]];
          }
          var end := if j + 2 < |s| && s[j + 2] == ';' then j + 3 else j + 2;
          Some(Directive(path, end))
  }

  /** Every text that starts with a well-formed directive is matched, with
      that directive's path. */
  lemma MatchAtComplete(q: char, path: string, rest: string)
    requires ValidPath(q, path)
    ensures MatchAt(Spelling(q, path) + rest) ==
      Some(Directive(path, |Spelling(q, path)| + |rest| - |AfterSemicolon(rest)|))
  {
    var s := Spelling(q, path) + rest;
    var n := |OPENING|;
    assert s[..n] == OPENING;
    assert s[n] == q;
    assert s[n + 1..n + 1 + |path|] == path;
    assert s[n + 1 + |path|] == q;
    assert s[n + 2 + |path|] == ')';
    assert FindQuote(s, n + 1, q) == Some(n + 1 + |path|);
    if |rest| > 0 {
      assert s[n + 3 + |path|] == rest[0];
    }
  }

  /** A quote pair with nothing between it is not a directive. */
  lemma EmptyPathNotMatched(q: char, rest: string)
    requires IsQuote(q)
    ensures MatchAt(OPENING + [q, q, ')'] + rest) == None
  {
    var s := OPENING + [q, q, ')'] + rest;
    var n := |OPENING|;
    assert s[n] == q && s[n + 1] == q;
    assert s[n + 1..n + 1] == [];
  }

  /** The text that replaces one directive: the loaded content between begin
      and end marker comments naming the path. */
  function Block(path: string, content: string): string {
    "\n// ---- begin include " + path + " ----\n" + content + "\n// ---- end include " + path + " ----\n"
  }

  /** The message thrown for a path the loader has nothing for. */
  function IncludeError(path: string): string {
    "Shader include not found: " + path
  }

  /** The message thrown for a missing entry file. */
  function EntryError(entryPath: string): string {
    "Shader entry not found: " + entryPath
  }

  /** `p` in front of a successful result; a failure passes through. */
  function Prepend(p: string, r: Result<string>): Result<string> {
    if r.Ok? then Ok(p + r.value) else r
  }

  /** `preprocessShader(entrySource, loader)`: directives are replaced left to
      right and never overlap; the first directive whose path the loader
      lacks aborts the whole replacement with its error. */
  function Preprocess(source: string, loader: ShaderLoader): (r: Result<string>)
    ensures r.Err? ==> exists path :: loader(path).None? && r.message == IncludeError(path)
    decreases |source|
  {
    if source == [] then Ok([])
    else
      match MatchAt(source)
      case Some(d) =>
        if loader(d.path).None? then Err(IncludeError(d.path))
        else Prepend(Block(d.path, loader(d.path).value), Preprocess(source[d.length..], loader))
      case None =>
        Prepend([source[0]], Preprocess(source[1..], loader))
  }

  /** A directive opening starts at index `i` of `s`. */
  predicate OpensAt(s: string, i: nat) {
    i + |OPENING| <= |s| && s[i..i + |OPENING|] == OPENING
  }

  /** Text containing no directive opening is returned unchanged. */
  lemma {:induction false} NoDirectiveUnchanged(source: string, loader: ShaderLoader)
    requires forall i: nat :: !OpensAt(source, i)
    ensures Preprocess(source, loader) == Ok(source)
    decreases |source|
  {
    if source != [] {
      assert !OpensAt(source, 0);
      assert MatchAt(source) == None by {
        if |source| > |OPENING| {
          assert source[0..|OPENING|] == source[..|OPENING|];
        }
      }
      forall i: nat
        ensures !OpensAt(source[1..], i)
      {
        assert !OpensAt(source, i + 1);
        if i + |OPENING| <= |source[1..]| {
          assert source[1..][i..i + |OPENING|] == source[i + 1..i + 1 + |OPENING|];
        }
      }
      NoDirectiveUnchanged(source[1..], loader);
      assert [source[0]] + source[1..] == source;
    }
  }

  /** No directive starts at a character other than `#`. */
  lemma NoMatchWithoutHash(s: string)
    requires |s| > 0 && s[0] != '#'
    ensures MatchAt(s) == None
  {
    if |s| > |OPENING| {
      assert s[..|OPENING|][0] == s[0];
    }
  }

  /** Prepending twice is prepending the concatenation. */
  lemma PrependPrepend(a: string, b: string, r: Result<string>)
    ensures Prepend(a, Prepend(b, r)) == Prepend(a + b, r)
  {
    if r.Ok? {
      assert a + (b + r.value) == (a + b) + r.value;
    }
  }

  /** Text before the first `#` is copied through as it is. */
  lemma {:induction false} PlainPrefixCopied(text: string, source: string, loader: ShaderLoader)
    requires '#' !in text
    ensures Preprocess(text + source, loader) == Prepend(text, Preprocess(source, loader))
    decreases |text|
  {
    var r := Preprocess(source, loader);
    if text != [] {
      var s := text + source;
      assert s[0] == text[0] && text[0] in text;
      NoMatchWithoutHash(s);
      assert s[1..] == text[1..] + source;
      assert Preprocess(s, loader) == Prepend([s[0]], Preprocess(s[1..], loader));
      PlainPrefixCopied(text[1..], source, loader);
      PrependPrepend([text[0]], text[1..], r);
      assert [text[0]] + text[1..] == text;
    } else {
      assert text + source == source;
      if r.Ok? {
        assert text + r.value == r.value;
      }
    }
  }

  /** A directive whose file is found becomes that file's block, and the
      rest of the text, past an optional `;`, is processed after it. */
  lemma IncludeFound(q: char, path: string, rest: string, loader: ShaderLoader)
    requires ValidPath(q, path) && loader(path).Some?
    ensures Preprocess(Spelling(q, path) + rest, loader) ==
      Prepend(Block(path, loader(path).value), Preprocess(AfterSemicolon(rest), loader))
  {
    var s := Spelling(q, path) + rest;
    MatchAtComplete(q, path, rest);
    var d := MatchAt(s).value;
    assert s[d.length..] == AfterSemicolon(rest);
  }

  /** A directive whose file is missing fails with that path's message,
      whatever follows it. */
  lemma IncludeMissing(q: char, path: string, rest: string, loader: ShaderLoader)
    requires ValidPath(q, path) && loader(path).None?
    ensures Preprocess(Spelling(q, path) + rest, loader) == Err(IncludeError(path))
  {
    MatchAtComplete(q, path, rest);
  }

  /** One level only: a lone directive becomes exactly its file's block, the
      loaded text inserted verbatim even when it holds directives itself. */
  lemma SingleInclude(q: char, path: string, loader: ShaderLoader)
    requires ValidPath(q, path) && loader(path).Some?
    ensures Preprocess(Spelling(q, path), loader) == Ok(Block(path, loader(path).value))
  {
    IncludeFound(q, path, [], loader);
    assert Spelling(q, path) + [] == Spelling(q, path);
    assert Block(path, loader(path).value) + [] == Block(path, loader(path).value);
  }

  /** `preprocessShaderFromPath(entryPath, loader)`: the entry is loaded with
      the same loader and then preprocessed. */
  function PreprocessFromPath(entryPath: string, loader: ShaderLoader): (r: Result<string>)
    ensures loader(entryPath).None? ==> r == Err(EntryError(entryPath))
    ensures loader(entryPath).Some? ==> r == Preprocess(loader(entryPath).value, loader)
    ensures r.Err? ==>
      (r.message == EntryError(entryPath) || exists path :: loader(path).None? && r.message == IncludeError(path))
  {
    if loader(entryPath).None? then Err(EntryError(entryPath))
    else Preprocess(loader(entryPath).value, loader)
  }
}
