/**
 * Log levels (`LogLevel::Level`) and their display names (`LogLevel::ToString`).
 *
 * The C++ enumeration has no fixed underlying type; a level is an integer and
 * the gate `level >= threshold` is integer comparison, so the model uses `int`
 * with one constant per enumerator.
 */
module Levels {

  type Level = int

  const DEBUG: Level := 1
  const INFO: Level := 2
  const WARN: Level := 3
  const ERROR: Level := 4
  const FATAL: Level := 5

  /** The five enumerators of `LogLevel::Level`. */
  predicate IsNamed(level: Level) {
    DEBUG <= level <= FATAL
  }

  /** The enumerator names; anything else, including casts of other integers, is "UNKNOW". */
  function ToString(level: Level): (s: string)
    ensures IsNamed(level) <==> s != "UNKNOW"
    ensures s in {"DEBUG", "INFO", "WARN", "ERROR", "FATAL", "UNKNOW"}
  {
    if level == DEBUG then "DEBUG"
    else if level == INFO then "INFO"
    else if level == WARN then "WARN"
    else if level == ERROR then "ERROR"
    else if level == FATAL then "FATAL"
    else "UNKNOW"
  }

  /** Distinct enumerators have distinct names, so a rendered name identifies its level. */
  lemma ToStringInjective(a: Level, b: Level)
    requires IsNamed(a) && IsNamed(b)
    requires ToString(a) == ToString(b)
    ensures a == b
  {
  }
}
