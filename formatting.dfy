/**
 * The placeholder formatter and the two message builders.
 *
 * A template is scanned for the leftmost two-character marker `{}`; it is
 * replaced by the first argument and formatting continues on the text after
 * the marker with the remaining arguments. Arguments are modelled already
 * rendered to text (what `operator<<` would write for them).
 */
module Formatting {
  import Decimal

  /** Result of `std::string::find`: a position, or `npos`. */
  datatype Position = NotFound | At(index: nat)

  /** A marker `{}` starts at index `i` of `s`. */
  predicate MarkerAt(s: string, i: int) {
    0 <= i && i + 1 < |s| && s[i] == '{' && s[i + 1] == '}'
  }

  predicate HasMarker(s: string) {
    exists i | 0 <= i < |s| :: MarkerAt(s, i)
  }

  /** The leftmost marker of `s`, as `s.find("{}")` returns it. */
  function FindMarker(s: string): (r: Position)
    ensures r.At? ==> r.index + 2 <= |s|
    decreases |s|
  {
    if |s| < 2 then NotFound
    else if s[0] == '{' && s[1] == '}' then At(0)
    else match FindMarker(s[1..])
      case NotFound => NotFound
      case At(i) => At(i + 1)
  }

  /**
   * `FindMarker` finds a marker exactly when there is one, and the one it
   * finds is the leftmost.
   */
  lemma {:induction false} FindMarkerLeftmost(s: string)
    ensures FindMarker(s).At? ==> MarkerAt(s, FindMarker(s).index)
    ensures FindMarker(s).At? ==> forall j :: 0 <= j < FindMarker(s).index ==> !MarkerAt(s, j)
    ensures FindMarker(s).NotFound? <==> !HasMarker(s)
    decreases |s|
  {
    if |s| < 2 {
    } else if s[0] == '{' && s[1] == '}' {
      assert MarkerAt(s, 0);
    } else {
      var rest := s[1..];
      FindMarkerLeftmost(rest);
      assert forall j {:trigger MarkerAt(s, j)} :: 1 <= j ==> (MarkerAt(s, j) <==> MarkerAt(rest, j - 1));
      if FindMarker(rest).At? {
        assert MarkerAt(s, FindMarker(rest).index + 1);
      }
    }
  }

  /**
   * Replaces the leftmost marker by the first argument, then formats the
   * text after that marker with the remaining arguments. With no arguments
   * left, or no marker left, the text is returned as it is.
   */
  function Format(template: string, args: seq<string>): (r: string)
    ensures |template| <= |r| + 2 * |args|
    decreases |args|
  {
    if |args| == 0 then template
    else match FindMarker(template)
      case NotFound => template
      case At(i) => template[..i] + args[0] + Format(template[i + 2..], args[1..])
  }

  /** Number of markers a left-to-right scan finds, never rescanning a replaced marker. */
  function MarkerCount(s: string): nat
    decreases |s|
  {
    match FindMarker(s)
    case NotFound => 0
    case At(i) => 1 + MarkerCount(s[i + 2..])
  }

  function Min(a: nat, b: nat): nat {
    if a <= b then a else b
  }

  /** How many markers `Format` replaces: one per argument, as long as markers last. */
  function Replaced(template: string, args: seq<string>): nat {
    Min(MarkerCount(template), |args|)
  }

  function TotalLength(ss: seq<string>): nat {
    if ss == [] then 0 else |ss[0]| + TotalLength(ss[1..])
  }

  // ---------------------------------------------------------------- lemmas

  /** With no arguments the template comes back unchanged, markers included. */
  lemma FormatNoArguments(template: string)
    ensures Format(template, []) == template
  {
  }

  /** A template without a marker comes back unchanged and every argument is dropped. */
  lemma FormatWithoutMarker(template: string, args: seq<string>)
    requires !HasMarker(template)
    ensures Format(template, args) == template
    ensures MarkerCount(template) == 0
  {
    FindMarkerLeftmost(template);
  }

  /** A prefix without a marker, followed by a marker, puts the leftmost marker right after the prefix. */
  lemma {:induction false} LeftmostMarkerAfterPlainPrefix(p: string, rest: string)
    requires !HasMarker(p)
    ensures FindMarker(p + "{}" + rest) == At(|p|)
  {
    var t := p + "{}" + rest;
    assert MarkerAt(t, |p|);
    FindMarkerLeftmost(t);
    forall j | 0 <= j < |p|
      ensures !MarkerAt(t, j)
    {
      if j + 1 < |p| {
        assert !MarkerAt(p, j);
      } else {
        assert t[j + 1] == '{';
      }
    }
  }

  /**
   * One step of formatting: with `p` free of markers, the marker after `p`
   * receives the first argument and only `r` is formatted further.
   */
  lemma {:induction false} FormatUnfold(p: string, r: string, a: string, rest: seq<string>)
    requires !HasMarker(p)
    ensures Format(p + "{}" + r, [a] + rest) == p + a + Format(r, rest)
  {
    var t := p + "{}" + r;
    LeftmostMarkerAfterPlainPrefix(p, r);
    assert t[..|p|] == p;
    assert t[|p| + 2..] == r;
    assert ([a] + rest)[1..] == rest;
  }

  /**
   * Substituted text is never scanned again: an argument that itself holds a
   * marker appears verbatim, even when further arguments could have filled it.
   */
  lemma SubstitutedTextNotRescanned(a: string, rest: seq<string>)
    ensures Format("{}", [a] + rest) == a
    ensures Format("{}", ["{}", "x"]) == "{}"
  {
    assert !HasMarker("");
    FormatUnfold("", "", a, rest);
    FormatUnfold("", "", "{}", ["x"]);
  }

  /**
   * Exactly `Replaced(template, args)` markers are replaced: the result is
   * the template less two characters per replaced marker plus the text of
   * the arguments that filled them.
   */
  lemma {:induction false} FormatLength(template: string, args: seq<string>)
    ensures var k := Replaced(template, args);
      |Format(template, args)| == |template| - 2 * k + TotalLength(args[..k])
    decreases |args|
  {
    var k := Replaced(template, args);
    if |args| == 0 {
    } else {
      match FindMarker(template)
      case NotFound =>
      case At(i) =>
        var tail := template[i + 2..];
        FormatLength(tail, args[1..]);
        var k' := Replaced(tail, args[1..]);
        assert k == k' + 1;
        assert args[..k][1..] == args[1..][..k'];
    }
  }

  /** Arguments beyond the markers are dropped: only the first `MarkerCount` ones matter. */
  lemma {:induction false} SurplusArgumentsDropped(template: string, args: seq<string>)
    requires MarkerCount(template) <= |args|
    ensures Format(template, args) == Format(template, args[..MarkerCount(template)])
    decreases |args|
  {
    var n := MarkerCount(template);
    match FindMarker(template)
    case NotFound =>
    case At(i) =>
      var tail := template[i + 2..];
      SurplusArgumentsDropped(tail, args[1..]);
      assert args[..n][0] == args[0];
      assert args[..n][1..] == args[1..][..MarkerCount(tail)];
  }

  /** The text after the `n`-th leftmost marker, or after the last one when there are fewer. */
  function Tail(s: string, n: nat): string
    decreases n
  {
    if n == 0 then s
    else match FindMarker(s)
      case NotFound => s
      case At(i) => Tail(s[i + 2..], n - 1)
  }

  predicate EndsWith(s: string, suffix: string) {
    |suffix| <= |s| && s[|s| - |suffix|..] == suffix
  }

  /**
   * The template's text after the last replaced marker comes back verbatim
   * at the end of the result, so every marker left over stays literal:
   * that text holds exactly the markers no argument was left to fill.
   */
  lemma {:induction false} FormatKeepsUnconsumedTail(template: string, args: seq<string>)
    ensures EndsWith(Format(template, args), Tail(template, |args|))
    ensures MarkerCount(Tail(template, |args|)) == MarkerCount(template) - Replaced(template, args)
    decreases |args|
  {
    if |args| == 0 {
    } else {
      match FindMarker(template)
      case NotFound =>
      case At(i) =>
        var tail := template[i + 2..];
        FormatKeepsUnconsumedTail(tail, args[1..]);
        var rest := Format(tail, args[1..]);
        var t := Tail(tail, |args| - 1);
        var prefix := template[..i] + args[0];
        assert Tail(template, |args|) == t;
        assert MarkerCount(template) == 1 + MarkerCount(tail);
        assert Replaced(template, args) == 1 + Replaced(tail, args[1..]);
        assert Format(template, args) == prefix + rest;
        EndsWithAfterPrefix(prefix, rest, t);
    }
  }

  lemma EndsWithAfterPrefix(prefix: string, s: string, suffix: string)
    requires EndsWith(s, suffix)
    ensures EndsWith(prefix + s, suffix)
  {
    assert (prefix + s)[|prefix + s| - |suffix|..] == s[|s| - |suffix|..];
  }

  lemma HasMarkerInSuffix(prefix: string, s: string)
    requires HasMarker(s)
    ensures HasMarker(prefix + s)
  {
    var i :| 0 <= i < |s| && MarkerAt(s, i);
    var t := prefix + s;
    assert t[|prefix| + i] == s[i] && t[|prefix| + i + 1] == s[i + 1];
    assert MarkerAt(t, |prefix| + i);
  }

  /**
   * With fewer arguments than markers, the markers left over stay in the
   * result as literal text: the result ends with the template's unconsumed
   * tail, which holds exactly `MarkerCount(template) - |args|` markers.
   */
  lemma {:induction false} SurplusMarkersStayLiteral(template: string, args: seq<string>)
    requires |args| < MarkerCount(template)
    ensures HasMarker(Format(template, args))
    ensures EndsWith(Format(template, args), Tail(template, |args|))
    ensures MarkerCount(Tail(template, |args|)) == MarkerCount(template) - |args|
    decreases |args|
  {
    FormatKeepsUnconsumedTail(template, args);
    if |args| == 0 {
      FindMarkerLeftmost(template);
    } else {
      match FindMarker(template)
      case At(i) =>
        SurplusMarkersStayLiteral(template[i + 2..], args[1..]);
        HasMarkerInSuffix(template[..i] + args[0], Format(template[i + 2..], args[1..]));
    }
  }

  /**
   * Two markers, two arguments: the markers are filled in order, e.g.
   * "value: {} and {}" with "5" and "x" gives "value: 5 and x".
   */
  lemma FormatTwoMarkers(p1: string, p2: string, a: string, b: string)
    requires !HasMarker(p1) && !HasMarker(p2)
    ensures Format(p1 + "{}" + p2 + "{}", [a, b]) == p1 + a + p2 + b
  {
    var q := p2 + "{}";
    assert Format(q, [b]) == p2 + b by {
      FormatUnfold(p2, "", b, []);
      assert q + "" == q;
      assert [b] + [] == [b];
    }
    FormatUnfold(p1, q, a, [b]);
    assert p1 + "{}" + p2 + "{}" == p1 + "{}" + q;
    assert [a] + [b] == [a, b];
  }

  /** The game's lifecycle message uses `%`, which is not a marker: the argument is dropped. */
  lemma FormatPercentIsNotMarker()
    ensures !HasMarker("Game constructed %") && !HasMarker("Game destructed %")
    ensures Format("Game constructed %", ["1"]) == "Game constructed %"
    ensures Format("Game destructed %", ["1"]) == "Game destructed %"
  {
    assert !HasMarker("Game constructed %") by {
      forall j | 0 <= j < 18 ensures !MarkerAt("Game constructed %", j) { }
    }
    assert !HasMarker("Game destructed %") by {
      forall j | 0 <= j < 17 ensures !MarkerAt("Game destructed %", j) { }
    }
    FormatWithoutMarker("Game constructed %", ["1"]);
    FormatWithoutMarker("Game destructed %", ["1"]);
  }

  // ---------------------------------------------------------------- message builders

  /** The message `logDefaultMessage` hands on: the formatted template. */
  function DefaultMessage(template: string, args: seq<string>): (m: string)
    ensures |template| <= |m| + 2 * |args|
  {
    Format(template, args)
  }

  /** The message `logContextMessage` hands on: the formatted template, then the call site. */
  function ContextMessage(fileName: string, line: Decimal.Int32, template: string, args: seq<string>): (m: string)
    ensures |m| >= |Format(template, args)| + |fileName| + 10
    ensures m[..|Format(template, args)|] == Format(template, args) && m[|m| - 2..] == ")-"
  {
    Format(template, args) + " at (" + fileName + ": " + Decimal.IntDecimal(line) + ")-"
  }

  /**
   * The context message is the default message followed by a suffix from
   * which the file name and the line number can be read back.
   */
  lemma ContextMessageSuffix(fileName: string, line: Decimal.Int32, template: string, args: seq<string>)
    ensures var m := ContextMessage(fileName, line, template, args);
      var d := DefaultMessage(template, args);
      var digits := Decimal.IntDecimal(line);
      |m| == |d| + |fileName| + |digits| + 9 &&
      m[..|d|] == d &&
      m[|d|..|d| + 5] == " at (" &&
      m[|d| + 5..|d| + 5 + |fileName|] == fileName &&
      m[|d| + 5 + |fileName|..|d| + 7 + |fileName|] == ": " &&
      m[|m| - |digits| - 2..|m| - 2] == digits &&
      m[|m| - 2..] == ")-" &&
      Decimal.ParseDecimal(m[|m| - |digits| - 2..|m| - 2]) == line
  {
    var d := DefaultMessage(template, args);
    var digits := Decimal.IntDecimal(line);
    Decimal.IntDecimalRoundTrip(line);
    CallSiteLayout(d, fileName, digits);
    assert ContextMessage(fileName, line, template, args) == d + " at (" + fileName + ": " + digits + ")-";
  }

  /** Where each part of "<d> at (<fileName>: <digits>)-" sits. */
  lemma CallSiteLayout(d: string, fileName: string, digits: string)
    ensures var m := d + " at (" + fileName + ": " + digits + ")-";
      |m| == |d| + |fileName| + |digits| + 9 &&
      m[..|d|] == d &&
      m[|d|..|d| + 5] == " at (" &&
      m[|d| + 5..|d| + 5 + |fileName|] == fileName &&
      m[|d| + 5 + |fileName|..|d| + 7 + |fileName|] == ": " &&
      m[|m| - |digits| - 2..|m| - 2] == digits &&
      m[|m| - 2..] == ")-"
  {
    SixPartSlices(d, " at (", fileName, ": ", digits, ")-");
  }

  /** Where each of six concatenated parts sits in the whole. */
  lemma SixPartSlices(p1: string, p2: string, p3: string, p4: string, p5: string, p6: string)
    ensures var m := p1 + p2 + p3 + p4 + p5 + p6;
      var i2 := |p1|;
      var i3 := i2 + |p2|;
      var i4 := i3 + |p3|;
      var i5 := i4 + |p4|;
      var i6 := i5 + |p5|;
      && |m| == i6 + |p6|
      && m[..i2] == p1 && m[i2..i3] == p2 && m[i3..i4] == p3
      && m[i4..i5] == p4 && m[i5..i6] == p5 && m[i6..] == p6
  {
  }
}
