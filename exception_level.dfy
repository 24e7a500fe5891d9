/** `ExceptionLevel`: the six severities of a reported exception, each with its
    string and numeric priority. */
module ExceptionLevels {
  import opened Wrappers

  datatype ExceptionLevel = TRACE | DEBUG | INFO | WARN | ERROR | FATAL

  /** `getPriority()`: 0 for TRACE up to 5 for FATAL, in declaration order. */
  function Priority(l: ExceptionLevel): (p: nat)
    ensures p <= 5
  {
    match l
    case TRACE => 0
    case DEBUG => 1
    case INFO => 2
    case WARN => 3
    case ERROR => 4
    case FATAL => 5
  }

  /** The level with a given priority; the inverse of `Priority`. */
  function LevelOfPriority(p: nat): (l: ExceptionLevel)
    requires p <= 5
    ensures Priority(l) == p
  {
    if p == 0 then TRACE
    else if p == 1 then DEBUG
    else if p == 2 then INFO
    else if p == 3 then WARN
    else if p == 4 then ERROR
    else FATAL
  }

  /** Priorities identify levels: `Priority` is a bijection onto 0..5. */
  lemma PriorityIsBijective(a: ExceptionLevel, b: ExceptionLevel)
    ensures LevelOfPriority(Priority(a)) == a
    ensures Priority(a) == Priority(b) ==> a == b
  {
  }

  /** `getLevel()` / `toString()`: the level's string. */
  function LevelName(l: ExceptionLevel): string
  {
    match l
    case TRACE => "TRACE"
    case DEBUG => "DEBUG"
    case INFO => "INFO"
    case WARN => "WARN"
    case ERROR => "ERROR"
    case FATAL => "FATAL"
  }

  /** Enum lookup by constant name, as JSON deserialization of a level does. */
  function LevelByConstantName(s: string): Option<ExceptionLevel>
  {
    if s == "TRACE" then Some(TRACE)
    else if s == "DEBUG" then Some(DEBUG)
    else if s == "INFO" then Some(INFO)
    else if s == "WARN" then Some(WARN)
    else if s == "ERROR" then Some(ERROR)
    else if s == "FATAL" then Some(FATAL)
    else None
  }

  /** The level string equals the constant's name for every level, so looking the
      string up by name gives the level back, and only its own name does. */
  lemma LevelNameIsConstantName(l: ExceptionLevel, s: string)
    ensures LevelByConstantName(LevelName(l)) == Some(l)
    ensures LevelByConstantName(s) == Some(l) ==> s == LevelName(l)
  {
  }

  /** `isCritical()`. */
  predicate IsCritical(l: ExceptionLevel)
  {
    l == ERROR || l == FATAL
  }

  /** `requiresImmediateAlert()`. */
  predicate RequiresImmediateAlert(l: ExceptionLevel)
  {
    l == FATAL
  }

  /** Critical levels are exactly those of priority at least 4; an immediate alert
      is required exactly at the top priority, and only for critical levels. */
  lemma CriticalByPriority(l: ExceptionLevel)
    ensures IsCritical(l) <==> Priority(l) >= 4
    ensures RequiresImmediateAlert(l) <==> Priority(l) == 5
    ensures RequiresImmediateAlert(l) ==> IsCritical(l)
  {
  }
}
