/**
 * Severity levels of the logger, the order that filters messages, and the two
 * per-level lookups used when a line is composed: the fixed-width label and
 * the console colour.
 *
 * The lookups in the C++ source are `switch` statements over the enum's
 * underlying integer with a `default:` arm; they are modelled here over that
 * integer (`LabelOfCode`, `ColorOfCode`), so the default arm is part of the
 * model, and the per-level functions apply them to `Ordinal(level)`.
 */
module Levels {
  import Decimal

  datatype LogLevel = TRACE | DEBUG | INFO | WARNING | ERROR | CRITICAL

  /** The enumerator's underlying value: declaration order, starting at zero. */
  function Ordinal(level: LogLevel): (n: nat)
    ensures n < 6
  {
    match level
    case TRACE => 0
    case DEBUG => 1
    case INFO => 2
    case WARNING => 3
    case ERROR => 4
    case CRITICAL => 5
  }

  /** `a <= b` on the scoped enum: comparison of the underlying values. */
  predicate AtMost(a: LogLevel, b: LogLevel)
    ensures a == b || a == TRACE || b == CRITICAL ==> AtMost(a, b)
  {
    Ordinal(a) <= Ordinal(b)
  }

  /** Distinct levels have distinct underlying values. */
  lemma OrdinalInjective(a: LogLevel, b: LogLevel)
    ensures Ordinal(a) == Ordinal(b) <==> a == b
  {
  }

  /** `AtMost` is a total order on the six levels. */
  lemma AtMostIsTotalOrder(a: LogLevel, b: LogLevel, c: LogLevel)
    ensures AtMost(a, a)
    ensures AtMost(a, b) && AtMost(b, a) ==> a == b
    ensures AtMost(a, b) && AtMost(b, c) ==> AtMost(a, c)
    ensures AtMost(a, b) || AtMost(b, a)
  {
    OrdinalInjective(a, b);
  }

  /** TRACE is the least level and CRITICAL the greatest: the order is TRACE < DEBUG < INFO < WARNING < ERROR < CRITICAL. */
  lemma AtMostBounds(level: LogLevel)
    ensures AtMost(TRACE, level) && AtMost(level, CRITICAL)
    ensures AtMost(level, TRACE) ==> level == TRACE
    ensures AtMost(CRITICAL, level) ==> level == CRITICAL
    ensures AtMost(TRACE, DEBUG) && AtMost(DEBUG, INFO) && AtMost(INFO, WARNING)
    ensures AtMost(WARNING, ERROR) && AtMost(ERROR, CRITICAL)
  {
  }

  // ---------------------------------------------------------------- labels

  /** The label printed between brackets, padded to nine characters. */
  function LabelOfCode(code: int): (s: string)
    ensures |s| == 9
    ensures s == " UNKNOWN " <==> code < 0 || 5 < code
  {
    if code == 0 then "  TRACE  "
    else if code == 1 then "  DEBUG  "
    else if code == 2 then "   INFO  "
    else if code == 3 then " WARNING "
    else if code == 4 then "  ERROR  "
    else if code == 5 then "CRITICAL "
    else " UNKNOWN "
  }

  function Label(level: LogLevel): (s: string)
    ensures |s| == 9 && s != " UNKNOWN "
  {
    LabelOfCode(Ordinal(level))
  }

  /** Every label, the default one included, is exactly nine characters wide. */
  lemma LabelWidth(code: int)
    ensures |LabelOfCode(code)| == 9
  {
  }

  /** The six labels are pairwise distinct, and none of them is the default label. */
  lemma LabelsDistinct(a: LogLevel, b: LogLevel, code: int)
    ensures Label(a) == Label(b) <==> a == b
    ensures (code < 0 || 5 < code) ==> Label(a) != LabelOfCode(code)
  {
  }

  // ---------------------------------------------------------------- colours

  /** The escape character that starts a control sequence. */
  const ESC: char := 27 as char

  /**
   * A Select Graphic Rendition control sequence with one parameter
   * (ECMA-48, section 8.3.117): ESC, '[', the parameter in decimal, 'm'.
   */
  function Sgr(parameter: nat): (s: string)
    ensures |s| >= 3 && s[0] == ESC && s[1] == '[' && s[|s| - 1] == 'm'
  {
    [ESC, '['] + Decimal.NatDigits(parameter) + "m"
  }

  // SGR parameters of ECMA-48, section 8.3.117; 90 is the common bright-black extension.
  const SGR_RESET: nat := 0
  const SGR_BLACK: nat := 30
  const SGR_RED: nat := 31
  const SGR_GREEN: nat := 32
  const SGR_YELLOW: nat := 33
  const SGR_BLUE: nat := 34
  const SGR_MAGENTA: nat := 35
  const SGR_BRIGHT_BLACK: nat := 90

  /** The colour switched on before the label, as it appears in the source. */
  function ColorOfCode(code: int): (s: string)
    ensures |s| == 5 && s[0] == ESC && s[1] == '[' && s[4] == 'm'
  {
    if code == 0 then "\U{1B}[90m"
    else if code == 1 then "\U{1B}[34m"
    else if code == 2 then "\U{1B}[32m"
    else if code == 3 then "\U{1B}[33m"
    else if code == 4 then "\U{1B}[31m"
    else if code == 5 then "\U{1B}[35m"
    else "\U{1B}[30m"
  }

  function Color(level: LogLevel): (s: string)
    ensures |s| == 5 && s[0] == ESC && s[1] == '[' && s[4] == 'm'
  {
    ColorOfCode(Ordinal(level))
  }

  /** The sequence that ends the coloured part of a line. */
  function ResetColor(): (s: string)
    ensures s == Sgr(SGR_RESET)
  {
    assert Decimal.NatDigits(SGR_RESET) == "0";
    "\U{1B}[0m"
  }

  /** The SGR parameter each level is meant to select. */
  function IntendedColorParameter(level: LogLevel): nat {
    match level
    case TRACE => SGR_BRIGHT_BLACK
    case DEBUG => SGR_BLUE
    case INFO => SGR_GREEN
    case WARNING => SGR_YELLOW
    case ERROR => SGR_RED
    case CRITICAL => SGR_MAGENTA
  }

  lemma {:induction false} TwoDigitSgr(p: nat)
    requires 10 <= p < 100
    ensures Sgr(p) == [ESC, '[', Decimal.DigitChar(p / 10), Decimal.DigitChar(p % 10), 'm']
  {
    assert Decimal.NatDigits(p / 10) == [Decimal.DigitChar(p / 10)];
  }

  /**
   * Each colour string is the SGR sequence for its level's intended colour
   * (bright black, blue, green, yellow, red, magenta), the default arm selects
   * black, and the reset string is SGR 0.
   */
  lemma ColorsAreSgr(level: LogLevel, code: int)
    ensures Color(level) == Sgr(IntendedColorParameter(level))
    ensures (code < 0 || 5 < code) ==> ColorOfCode(code) == Sgr(SGR_BLACK)
    ensures ResetColor() == Sgr(SGR_RESET)
  {
    TwoDigitSgr(IntendedColorParameter(level));
    TwoDigitSgr(SGR_BLACK);
    assert Decimal.NatDigits(SGR_RESET) == "0";
  }

  /** Every colour string is five characters long, and the reset string four. */
  lemma ColorWidth(code: int)
    ensures |ColorOfCode(code)| == 5
    ensures |ResetColor()| == 4
  {
  }

  /** The six colours are pairwise distinct. */
  lemma ColorsDistinct(a: LogLevel, b: LogLevel)
    ensures Color(a) == Color(b) <==> a == b
  {
  }
}
