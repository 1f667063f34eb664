/** Go's regexp package, kept abstract: whether a pattern compiles and
    whether a compiled pattern matches a string are supplied from outside,
    so nothing in the model depends on RE2 syntax or matching semantics. */
module Regexp {

  /** The two decisions the regexp package makes. */
  datatype Engine = Engine(compiles: string -> bool, matches: (string, string) -> bool)

  /** A compiled regular expression (*regexp.Regexp). */
  datatype Pattern = Pattern(expr: string)

  datatype Compiled = Invalid | Valid(pattern: Pattern)

  /** regexp.Compile: fails exactly on the patterns the engine rejects and
      otherwise keeps the source text. */
  function Compile(engine: Engine, expr: string): (r: Compiled)
    ensures r.Valid? <==> engine.compiles(expr)
    ensures r.Valid? ==> r.pattern.expr == expr
  {
    if engine.compiles(expr) then Valid(Pattern(expr)) else Invalid
  }

  /** (*regexp.Regexp).MatchString. */
  function MatchString(engine: Engine, re: Pattern, s: string): bool {
    engine.matches(re.expr, s)
  }
}
