/** Python's `re` module, left abstract. A pattern is its source text
    and two flags; the engine is the function `re.findall`, given as a
    parameter, so nothing here depends on how regular expressions match. */
module Regex {
  import Text

  datatype Pattern = Pattern(source: string, ignoreCase: bool, multiLine: bool)

  /** A pattern compiled without flags. */
  function Plain(source: string): Pattern {
    Pattern(source, false, false)
  }

  /** `re.findall`: the matches (or the first group of each match) found
      left to right without overlap. */
  datatype Engine = Engine(findall: (Pattern, string) -> seq<string>)

  /** `len(re.findall(p, s))`. */
  function CountMatches(e: Engine, p: Pattern, s: string): nat {
    |e.findall(p, s)|
  }

  /** `re.search(p, s)` is truthy: the pattern matches somewhere, which is
      the same as `re.findall(p, s)` being non-empty. */
  predicate Search(e: Engine, p: Pattern, s: string) {
    CountMatches(e, p, s) > 0
  }

  /** The engine treats `p` as the literal text `lit` (true of patterns
      such as `eval\(`, whose only special character is escaped). */
  ghost predicate FindsLiteral(e: Engine, p: Pattern, lit: string) {
    forall s :: Search(e, p, s) <==> Text.Contains(s, lit)
  }
}
