/** Errors raised while loading the configuration (src/config/errors.rs) and their messages. */
module ConfigErrors {
  import opened Wrappers
  import opened ExternalErrors
  import Decimal

  datatype ConfigParseError =
    | ReadError(io: IoError)
    | InvalidSyntax(yaml: YamlError)
    | InvalidRegexRule

  const READ_ERROR_PREFIX := "The following error occured while reading config file: "
  const INVALID_REGEX_RULE := "Invalid regex rule"
  const LINE_PREFIX := "Invalid syntax at line: "

  /** The message of a syntax error that reports where it happened. */
  function LocatedSyntaxMessage(loc: Location, text: string): string {
    LINE_PREFIX + Decimal.NatToString(loc.line)
      + " col: " + Decimal.NatToString(loc.column)
      + " with error: " + text
  }

  /** `Display for ConfigParseError`; it is defined for every variant. */
  function Display(e: ConfigParseError): string {
    match e
    case ReadError(io) => READ_ERROR_PREFIX + io.text
    case InvalidSyntax(yaml) =>
      (match yaml.location
       case None => yaml.text
       case Some(loc) => LocatedSyntaxMessage(loc, yaml.text))
    case InvalidRegexRule => INVALID_REGEX_RULE
  }

  /** The message of each variant. */
  lemma DisplayMessages(io: IoError, text: string, line: nat, column: nat)
    ensures Display(InvalidRegexRule) == "Invalid regex rule"
    ensures Display(ReadError(io))
         == "The following error occured while reading config file: " + io.text
    ensures Display(InvalidSyntax(YamlError(text, None))) == text
    ensures Display(InvalidSyntax(YamlError(text, Some(Location(line, column)))))
         == "Invalid syntax at line: " + Decimal.NatToString(line)
          + " col: " + Decimal.NatToString(column) + " with error: " + text
  {
  }

  /** The line a located syntax error reports can be read back from its message. */
  lemma {:induction false} LocatedMessageShowsLine(line: nat, column: nat, text: string)
    ensures var msg := Display(InvalidSyntax(YamlError(text, Some(Location(line, column)))));
            var digits := Decimal.NatToString(line);
            |msg| >= |LINE_PREFIX| + |digits|
            && Decimal.ParseDecimal(msg[|LINE_PREFIX|..|LINE_PREFIX| + |digits|]) == line
  {
    var msg := Display(InvalidSyntax(YamlError(text, Some(Location(line, column)))));
    var digits := Decimal.NatToString(line);
    assert msg == LINE_PREFIX + digits + (" col: " + Decimal.NatToString(column) + " with error: " + text);
    assert msg[|LINE_PREFIX|..|LINE_PREFIX| + |digits|] == digits;
    Decimal.ParseNatToString(line);
  }

  /**
   * A syntax error without a location shows only the parser's text, so its
   * message can coincide with that of another variant.
   */
  lemma DisplayNotInjective()
    ensures InvalidSyntax(YamlError(INVALID_REGEX_RULE, None)) != InvalidRegexRule
    ensures Display(InvalidSyntax(YamlError(INVALID_REGEX_RULE, None))) == Display(InvalidRegexRule)
  {
  }
}
