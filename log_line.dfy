/**
 * The line the logger writes for one emitted message:
 *
 *   <timestamp><colour> [<label>]: <message><reset>\n
 *
 * The same line goes to the console and, when mirroring is on, to the file.
 */
module LogLine {
  import opened Levels

  function ComposeLine(timestamp: string, level: LogLevel, message: string): (line: string)
    ensures |line| == |timestamp| + |message| + FRAME_WIDTH
    ensures line[..|timestamp|] == timestamp && line[|line| - 1] == '\n'
  {
    timestamp + Color(level) + " [" + Label(level) + "]: " + message + ResetColor() + "\n"
  }

  /** Number of characters the line adds around the timestamp and the message. */
  const FRAME_WIDTH: nat := 24

  /**
   * Where each part of the line sits: the colour right after the timestamp,
   * the nine-character label between fixed brackets, the message after it,
   * and the reset sequence and newline at the end.
   */
  lemma ComposeLineLayout(timestamp: string, level: LogLevel, message: string)
    ensures var line := ComposeLine(timestamp, level, message);
      var t := |timestamp|;
      |line| == t + |message| + FRAME_WIDTH &&
      line[..t] == timestamp &&
      line[t..t + 5] == Color(level) &&
      line[t + 5..t + 7] == " [" &&
      line[t + 7..t + 16] == Label(level) &&
      line[t + 16..t + 19] == "]: " &&
      line[t + 19..t + 19 + |message|] == message &&
      line[|line| - 5..] == ResetColor() + "\n"
  {
    LabelWidth(Ordinal(level));
    ColorWidth(Ordinal(level));
  }

  /**
   * The line is exactly one line: it ends in a newline and holds no other,
   * as long as the timestamp and the message hold none.
   */
  lemma ComposeLineIsOneLine(timestamp: string, level: LogLevel, message: string)
    requires '\n' !in timestamp && '\n' !in message
    ensures var line := ComposeLine(timestamp, level, message);
      |line| >= 1 && line[|line| - 1] == '\n' && '\n' !in line[..|line| - 1]
  {
    var line := ComposeLine(timestamp, level, message);
    var frame := Color(level) + " [" + Label(level) + "]: ";
    LabelWidth(Ordinal(level));
    ColorWidth(Ordinal(level));
    assert '\n' !in frame;
    assert '\n' !in ResetColor();
    assert line[..|line| - 1] == timestamp + frame + message + ResetColor();
  }

  /**
   * For a given timestamp, the line determines the level and the message:
   * two emissions with a different level or a different message never
   * produce the same line.
   */
  lemma {:induction false} ComposeLineInjective(timestamp: string, l1: LogLevel, m1: string, l2: LogLevel, m2: string)
    requires ComposeLine(timestamp, l1, m1) == ComposeLine(timestamp, l2, m2)
    ensures l1 == l2 && m1 == m2
  {
    var line := ComposeLine(timestamp, l1, m1);
    var t := |timestamp|;
    ComposeLineLayout(timestamp, l1, m1);
    ComposeLineLayout(timestamp, l2, m2);
    ColorsDistinct(l1, l2);
    assert Color(l1) == line[t..t + 5] == Color(l2);
    assert |m1| == |m2|;
    assert m1 == line[t + 19..t + 19 + |m1|] == m2;
  }
}
