/**
 * `UriRegex` (src/config/url_regex.rs): a compiled path pattern whose
 * identity, for equality and hashing, is its source text.
 */
module UrlRegex {
  import opened Wrappers
  import ConfigErrors

  /**
   * The regex crate, which is not part of this model: which pattern texts
   * compile, and whether a compiled pattern finds a match in a string.
   */
  datatype RegexEngine = RegexEngine(compiles: string -> bool, isMatch: (string, string) -> bool)

  /** A pattern, kept as the text it was compiled from (`Regex::as_str`). */
  datatype UriRegex = UriRegex(source: string)

  /** `UriRegex::from_str`: compile `rg`, or fail with `InvalidRegexRule`. */
  function FromStr(engine: RegexEngine, rg: string): (r: Result<UriRegex, ConfigErrors.ConfigParseError>)
    ensures r.Ok? <==> engine.compiles(rg)
    ensures r.Ok? ==> r.value.source == rg
    ensures r.Err? ==> r.error == ConfigErrors.InvalidRegexRule
  {
    if engine.compiles(rg) then Ok(UriRegex(rg)) else Err(ConfigErrors.InvalidRegexRule)
  }

  /** `UriRegex::match_url`: whether the pattern matches somewhere in `uri`. */
  function MatchUrl(engine: RegexEngine, r: UriRegex, uri: string): bool {
    engine.isMatch(r.source, uri)
  }

  /** `PartialEq for UriRegex`: compares the patterns' source texts. */
  function Eq(a: UriRegex, b: UriRegex): (r: bool)
    ensures r <==> a == b
  {
    a.source == b.source
  }

  /** `Hash for UriRegex`: the hasher is fed the source text and nothing else. */
  function Hash<H>(hasher: string -> H, r: UriRegex): H {
    hasher(r.source)
  }

  /** `impl Eq for UriRegex` is sound: the equality is an equivalence relation. */
  lemma EqIsEquivalence(a: UriRegex, b: UriRegex, c: UriRegex)
    ensures Eq(a, a)
    ensures Eq(a, b) == Eq(b, a)
    ensures Eq(a, b) && Eq(b, c) ==> Eq(a, c)
  {
  }

  /** Equal patterns hash equally, whatever the hasher. */
  lemma HashAgreesWithEq<H>(hasher: string -> H, a: UriRegex, b: UriRegex)
    requires Eq(a, b)
    ensures Hash(hasher, a) == Hash(hasher, b)
  {
  }

  /** Patterns that compare equal match the same URIs, so a table keyed by them is well defined. */
  lemma EqualPatternsMatchAlike(engine: RegexEngine, a: UriRegex, b: UriRegex, uri: string)
    requires Eq(a, b)
    ensures MatchUrl(engine, a, uri) == MatchUrl(engine, b, uri)
  {
  }

  /** Compiling the text of a compiled pattern gives back an equal pattern. */
  lemma FromStrRoundTrip(engine: RegexEngine, rg: string)
    requires engine.compiles(rg)
    ensures FromStr(engine, rg).Ok?
    ensures FromStr(engine, FromStr(engine, rg).value.source) == FromStr(engine, rg)
  {
  }
}
