/** The results file: the two lines `write_final_data` writes when a workout ends, and the
    parser of the server's `/stop` handler that reads the count and the success rate back.
    The success rate is carried as the text `{success_rate:.2f}` produces; its formatting and
    its `float()` conversion are not part of this model. */
module Report {
  import opened Common

  /** What the parser extracts: the count and, when a "Success Rate:" line was seen, the rate
      text with its '%' removed (None: the default 0.0 stands). */
  datatype Summary = Summary(count: int, rate: Option<string>)

  /** The outcome of the parse loop: a summary, or the line whose count `int()` refused. */
  datatype Parse = Done(summary: Summary) | BadCount(line: string)

  // ---------------------------------------------------------------------------------------
  // Decimal numerals

  predicate IsDigit(c: char) { '0' <= c <= '9' }

  predicate AllDigits(s: string) { forall i :: 0 <= i < |s| ==> IsDigit(s[i]) }

  function DigitChar(d: nat): (c: char)
    requires d < 10
    ensures IsDigit(c) && c as int - '0' as int == d
  {
    ('0' as int + d) as char
  }

  /** `str(n)` for a non-negative integer: its decimal numeral. */
  function NatToString(n: nat): (s: string)
    ensures |s| > 0 && AllDigits(s)
    ensures |s| > 1 ==> s[0] != '0'
  {
    if n < 10 then [DigitChar(n)] else NatToString(n / 10) + [DigitChar(n % 10)]
  }

  /** The value of a string of decimal digits, leading zeros allowed. */
  function DigitsValue(s: string): nat
    requires AllDigits(s)
  {
    if s == [] then 0
    else DigitsValue(s[..|s| - 1]) * 10 + (s[|s| - 1] as int - '0' as int)
  }

  /** What `int()` accepts once the text is stripped: an optional sign, then one or more digits. */
  predicate IntLiteral(s: string) {
    (|s| > 0 && AllDigits(s)) || (|s| > 1 && (s[0] == '+' || s[0] == '-') && AllDigits(s[1..]))
  }

  /** `int(s)` on an already stripped string: an optional sign and at least one decimal
      digit; anything else raises ValueError, modelled as None. */
  function ParseInt(s: string): (r: Option<int>)
    ensures r.Some? <==> IntLiteral(s)
    ensures r.Some? ==> IsDigit(s[|s| - 1])
    // the digits give the magnitude and the sign the direction
    ensures r.Some? && IsDigit(s[0]) ==> r.value == DigitsValue(s)
    ensures r.Some? && s[0] == '+' ==> r.value == DigitsValue(s[1..])
    ensures r.Some? && s[0] == '-' ==> r.value + DigitsValue(s[1..]) == 0
  {
    if |s| > 1 && (s[0] == '+' || s[0] == '-') && AllDigits(s[1..]) then
      var v: int := DigitsValue(s[1..]);
      Some(if s[0] == '-' then -v else v)
    else if |s| > 0 && AllDigits(s) then Some(DigitsValue(s))
    else None
  }

  /** Reading a written count back gives the count. */
  lemma {:induction false} DigitsRoundTrip(n: nat)
    ensures DigitsValue(NatToString(n)) == n
  {
    if n >= 10 {
      var s := NatToString(n);
      assert s[..|s| - 1] == NatToString(n / 10);
      DigitsRoundTrip(n / 10);
    }
  }

  /** `int(str(n)) == n`. */
  lemma {:induction false} ParseIntRoundTrip(n: nat)
    ensures ParseInt(NatToString(n)) == Some(n)
  {
    DigitsRoundTrip(n);
  }

  /** `int()` refuses the empty string and a lone sign. */
  lemma ParseIntRefuses(s: string)
    requires s == [] || s == "+" || s == "-" || (|s| > 0 && !IsDigit(s[|s| - 1]))
    ensures ParseInt(s) == None
  {
  }

  // ---------------------------------------------------------------------------------------
  // Text helpers: `in`, `strip()`, `split(":")[1]`, `replace('%', '')`, `readlines()`

  /** `pat in s`: `pat` occurs somewhere in `s`. */
  predicate Contains(s: string, pat: string) {
    exists i :: 0 <= i <= |s| - |pat| && OccursAt(s, pat, i)
  }

  /** `pat` occurs in `s` starting at position `i`. */
  predicate OccursAt(s: string, pat: string, i: int)
    requires 0 <= i <= |s| - |pat|
  {
    s[i..i + |pat|] == pat
  }

  /** The characters Python's `str.strip()` removes. */
  predicate IsSpace(c: char) {
    ('\t' <= c <= '\r') || ((28 as char) <= c <= (32 as char)) || c == (133 as char) || c == (160 as char) ||
    c == (5760 as char) || ((8192 as char) <= c <= (8202 as char)) || c == (8232 as char) ||
    c == (8233 as char) || c == (8239 as char) || c == (8287 as char) || c == (12288 as char)
  }

  predicate AllSpace(s: string) { forall i :: 0 <= i < |s| ==> IsSpace(s[i]) }

  function TrimStart(s: string): (r: string)
    ensures |r| <= |s| && r == s[|s| - |r|..]
    ensures r == [] || !IsSpace(r[0])
  {
    if s != [] && IsSpace(s[0]) then TrimStart(s[1..]) else s
  }

  function TrimEnd(s: string): (r: string)
    ensures |r| <= |s| && r == s[..|r|]
    ensures r == [] || !IsSpace(r[|r| - 1])
  {
    if s != [] && IsSpace(s[|s| - 1]) then TrimEnd(s[..|s| - 1]) else s
  }

  /** `s.strip()`: a slice of `s` with no whitespace at either end. */
  function Strip(s: string): (r: string)
    ensures exists i, j :: 0 <= i <= j <= |s| && r == s[i..j]
    ensures r == [] || (!IsSpace(r[0]) && !IsSpace(r[|r| - 1]))
  {
    var t := TrimStart(s);
    var r := TrimEnd(t);
    assert r == s[|s| - |t|..|s| - |t| + |r|];
    r
  }

  /** Leading whitespace goes and the rest stays. */
  lemma {:induction false} TrimStartPadded(pre: string, rest: string)
    requires AllSpace(pre)
    requires rest == [] || !IsSpace(rest[0])
    ensures TrimStart(pre + rest) == rest
    decreases |pre|
  {
    if pre != [] {
      assert (pre + rest)[1..] == pre[1..] + rest;
      TrimStartPadded(pre[1..], rest);
    }
  }

  /** Trailing whitespace goes and the rest stays. */
  lemma {:induction false} TrimEndPadded(rest: string, post: string)
    requires AllSpace(post)
    requires rest == [] || !IsSpace(rest[|rest| - 1])
    ensures TrimEnd(rest + post) == rest
    decreases |post|
  {
    if post != [] {
      assert (rest + post)[..|rest + post| - 1] == rest + post[..|post| - 1];
      TrimEndPadded(rest, post[..|post| - 1]);
    }
  }

  /** Stripping a padded core gives the core. */
  lemma {:induction false} StripPadded(pre: string, core: string, post: string)
    requires AllSpace(pre) && AllSpace(post)
    requires core != [] && !IsSpace(core[0]) && !IsSpace(core[|core| - 1])
    ensures Strip(pre + core + post) == core
  {
    assert pre + core + post == pre + (core + post);
    TrimStartPadded(pre, core + post);
    TrimEndPadded(core, post);
  }

  /** `s.find(c)`, with `|s|` for "not found": the position of the first `c` in `s`. */
  function IndexOf(s: string, c: char): (k: nat)
    ensures k <= |s|
    ensures k < |s| ==> s[k] == c
    ensures forall i :: 0 <= i < k ==> s[i] != c
  {
    if s == [] || s[0] == c then 0 else 1 + IndexOf(s[1..], c)
  }

  /** A prefix without `c` is skipped over. */
  lemma {:induction false} IndexOfAfter(a: string, b: string, c: char)
    requires forall i :: 0 <= i < |a| ==> a[i] != c
    ensures IndexOf(a + b, c) == |a| + IndexOf(b, c)
    decreases |a|
  {
    if a != [] {
      assert (a + b)[0] == a[0];
      assert (a + b)[1..] == a[1..] + b;
      IndexOfAfter(a[1..], b, c);
    } else {
      assert a + b == b;
    }
  }

  /** `line.split(":")[1]`: the text between the first colon and the next one (or the end).
      The parser applies it only to lines holding "Count:" or "Success Rate:", which have a
      colon; on a line without one the result is empty. */
  function SecondField(line: string): (r: string)
    ensures ':' !in r
  {
    var i := IndexOf(line, ':');
    var rest := if i < |line| then line[i + 1..] else [];
    var j := IndexOf(rest, ':');
    assert forall k :: 0 <= k < j ==> rest[..j][k] == rest[k];
    rest[..j]
  }

  /** The second field of `key:value` is `value` when neither part holds a colon. */
  lemma {:induction false} FieldOf(key: string, value: string)
    requires ':' !in key && ':' !in value
    ensures SecondField(key + ":" + value) == value
  {
    var line := key + ":" + value;
    assert line == key + (":" + value);
    NoColon(key);
    IndexOfAfter(key, ":" + value, ':');
    assert line[|key| + 1..] == value;
    NoColon(value);
    IndexOfAfter(value, [], ':');
    assert value + [] == value;
  }

  lemma NoColon(s: string)
    requires ':' !in s
    ensures forall i :: 0 <= i < |s| ==> s[i] != ':'
  {
    forall i | 0 <= i < |s| ensures s[i] != ':' {
      assert s[i] in s;
    }
  }

  /** A line starting with `pat` contains it. */
  lemma ContainsAtStart(pat: string, rest: string)
    ensures Contains(pat + rest, pat)
  {
    assert OccursAt(pat + rest, pat, 0);
  }

  /** `s.replace('%', '')`. */
  function RemovePercent(s: string): (r: string)
    ensures '%' !in r
    ensures '%' !in s ==> r == s
    ensures |r| <= |s|
  {
    if s == [] then []
    else (if s[0] == '%' then [] else [s[0]]) + RemovePercent(s[1..])
  }

  lemma {:induction false} RemovePercentAppend(a: string, b: string)
    ensures RemovePercent(a + b) == RemovePercent(a) + RemovePercent(b)
    decreases |a|
  {
    if a != [] {
      assert (a + b)[0] == a[0];
      assert (a + b)[1..] == a[1..] + b;
      RemovePercentAppend(a[1..], b);
    } else {
      assert a + b == b;
    }
  }

  /** Concatenation of a list of lines. */
  function Join(lines: seq<string>): string {
    if lines == [] then [] else lines[0] + Join(lines[1..])
  }

  /** `f.readlines()`: the text cut after each newline, each line keeping its newline. */
  function Lines(text: string): (r: seq<string>)
    ensures Join(r) == text
    ensures forall k :: 0 <= k < |r| ==> r[k] != []
    decreases |text|
  {
    if text == [] then []
    else
      var i := IndexOf(text, '\n');
      if i == |text| then [text]
      else
        var r := [text[..i + 1]] + Lines(text[i + 1..]);
        assert r[1..] == Lines(text[i + 1..]);
        assert text == text[..i + 1] + text[i + 1..];
        r
  }

  /** A line that ends in its first newline is cut off as the first line. */
  lemma {:induction false} LinesFirst(x: string, rest: string)
    requires '\n' !in x
    ensures Lines(x + "\n" + rest) == [x + "\n"] + Lines(rest)
  {
    var t := x + "\n" + rest;
    assert t == x + ("\n" + rest);
    forall i | 0 <= i < |x| ensures x[i] != '\n' {
      assert x[i] in x;
    }
    IndexOfAfter(x, "\n" + rest, '\n');
    assert IndexOf(t, '\n') == |x|;
    assert t[..|x| + 1] == x + "\n";
    assert t[|x| + 1..] == rest;
  }

  // ---------------------------------------------------------------------------------------
  // Writing and reading the results file

  /** The text `write_final_data` writes, given the count and the formatted rate. */
  function WriteReport(count: nat, rateText: string): (text: string)
    ensures text == CountLine(count) + RateLine(rateText)
  {
    "Count: " + NatToString(count) + "\n" + "Success Rate: " + rateText + "%\n"
  }

  function CountLine(count: nat): string {
    "Count: " + NatToString(count) + "\n"
  }

  function RateLine(rateText: string): string {
    "Success Rate: " + rateText + "%\n"
  }

  /** What `{success_rate:.2f}` produces: digits with a decimal point, never empty. */
  predicate FormattedRate(t: string) {
    |t| > 0 && forall i :: 0 <= i < |t| ==> IsDigit(t[i]) || t[i] == '.'
  }

  /** One pass of the parse loop. "Count:" is checked first; "Success Rate:" only otherwise. */
  function ParseLine(s: Summary, line: string): (r: Parse)
    ensures Contains(line, "Count:") && ParseInt(Strip(SecondField(line))).None? ==> r == BadCount(line)
    ensures Contains(line, "Count:") && ParseInt(Strip(SecondField(line))).Some? ==>
              r == Done(s.(count := ParseInt(Strip(SecondField(line))).value))
    ensures !Contains(line, "Count:") ==> r.Done? && r.summary.count == s.count
    ensures !Contains(line, "Count:") && Contains(line, "Success Rate:") ==>
              r == Done(s.(rate := Some(RemovePercent(Strip(SecondField(line))))))
    ensures !Contains(line, "Count:") && !Contains(line, "Success Rate:") ==> r == Done(s)
  {
    if Contains(line, "Count:") then
      match ParseInt(Strip(SecondField(line)))
      case None => BadCount(line)
      case Some(n) => Done(s.(count := n))
    else if Contains(line, "Success Rate:") then
      Done(s.(rate := Some(RemovePercent(Strip(SecondField(line))))))
    else Done(s)
  }

  /** The parse loop over the lines read, from the defaults `count = 0` and
      `success_rate = 0.0`; the first refused count ends it. */
  function ParseLines(lines: seq<string>): (r: Parse)
    // a refused count is the count text of one of the lines read
    ensures r.BadCount? ==>
              r.line in lines && Contains(r.line, "Count:") && ParseInt(Strip(SecondField(r.line))).None?
    decreases |lines|
  {
    if lines == [] then Done(Summary(0, None))
    else
      match ParseLines(lines[..|lines| - 1])
      case BadCount(l) => BadCount(l)
      case Done(s) => ParseLine(s, lines[|lines| - 1])
  }

  /** A count other than the default 0 was read from a count line. */
  lemma {:induction false} CountFromLine(lines: seq<string>)
    ensures ParseLines(lines).Done? && ParseLines(lines).summary.count != 0 ==>
              exists k :: 0 <= k < |lines| && Contains(lines[k], "Count:") &&
                          ParseInt(Strip(SecondField(lines[k]))) == Some(ParseLines(lines).summary.count)
    decreases |lines|
  {
    if lines != [] {
      var init, last := lines[..|lines| - 1], lines[|lines| - 1];
      var r := ParseLines(lines);
      match ParseLines(init)
      case BadCount(_) =>
      case Done(s) =>
        assert r == ParseLine(s, last);
        if Contains(last, "Count:") {
          assert 0 <= |lines| - 1 < |lines| && lines[|lines| - 1] == last;
        } else if r.summary.count != 0 {
          CountFromLine(init);
          var k :| 0 <= k < |init| && Contains(init[k], "Count:") &&
                   ParseInt(Strip(SecondField(init[k]))) == Some(s.count);
          assert lines[k] == init[k];
        }
    }
  }

  /** A rate was read from a rate line, with its '%' removed. */
  lemma {:induction false} RateFromLine(lines: seq<string>)
    ensures ParseLines(lines).Done? && ParseLines(lines).summary.rate.Some? ==>
              exists k :: 0 <= k < |lines| && Contains(lines[k], "Success Rate:") &&
                          ParseLines(lines).summary.rate.value == RemovePercent(Strip(SecondField(lines[k])))
    decreases |lines|
  {
    if lines != [] {
      var init, last := lines[..|lines| - 1], lines[|lines| - 1];
      var r := ParseLines(lines);
      match ParseLines(init)
      case BadCount(_) =>
      case Done(s) =>
        assert r == ParseLine(s, last);
        if !Contains(last, "Count:") && Contains(last, "Success Rate:") {
          assert 0 <= |lines| - 1 < |lines| && lines[|lines| - 1] == last;
        } else if r.Done? && r.summary.rate.Some? {
          assert r.summary.rate == s.rate;
          RateFromLine(init);
          var k :| 0 <= k < |init| && Contains(init[k], "Success Rate:") &&
                   s.rate.value == RemovePercent(Strip(SecondField(init[k])));
          assert lines[k] == init[k];
        }
    }
  }

  /** The parse loop of the `/stop` handler. */
  method ParseReport(lines: seq<string>) returns (r: Parse)
    ensures r == ParseLines(lines)
  {
    var summary := Summary(0, None);
    var i := 0;
    while i < |lines|
      invariant 0 <= i <= |lines|
      invariant ParseLines(lines[..i]) == Done(summary)
    {
      ParseStep(lines, i, summary);
      var step := ParseOne(summary, lines[i]);
      if step.BadCount? {
        BadCountSticks(lines, i + 1);
        return step;
      }
      summary := step.summary;
      i := i + 1;
    }
    assert lines[..i] == lines;
    return Done(summary);
  }

  /** The body of the parse loop for one line: `count` and `success_rate` as they stand, updated. */
  method ParseOne(s: Summary, line: string) returns (r: Parse)
    ensures r == ParseLine(s, line)
  {
    var count, rate := s.count, s.rate;
    if Contains(line, "Count:") {
      var v := ParseInt(Strip(SecondField(line)));
      if v.None? {
        return BadCount(line);
      }
      count := v.value;
    } else if Contains(line, "Success Rate:") {
      rate := Some(RemovePercent(Strip(SecondField(line))));
    }
    return Done(Summary(count, rate));
  }

  /** One pass of the loop extends the lines read by one. */
  lemma ParseStep(lines: seq<string>, i: nat, s: Summary)
    requires i < |lines| && ParseLines(lines[..i]) == Done(s)
    ensures ParseLines(lines[..i + 1]) == ParseLine(s, lines[i])
  {
    assert lines[..i + 1][..i] == lines[..i];
  }

  /** Once a count is refused, later lines are never read. */
  lemma {:induction false} BadCountSticks(lines: seq<string>, k: nat)
    requires k <= |lines| && ParseLines(lines[..k]).BadCount?
    ensures ParseLines(lines) == ParseLines(lines[..k])
    decreases |lines|
  {
    if k < |lines| {
      var init := lines[..|lines| - 1];
      assert init[..k] == lines[..k];
      BadCountSticks(init, k);
    } else {
      assert lines[..k] == lines;
    }
  }

  /** With no line naming a count or a rate, the defaults stand. */
  lemma {:induction false} DefaultsStand(lines: seq<string>)
    requires forall k :: 0 <= k < |lines| ==> !Contains(lines[k], "Count:") && !Contains(lines[k], "Success Rate:")
    ensures ParseLines(lines) == Done(Summary(0, None))
    decreases |lines|
  {
    if lines != [] {
      DefaultsStand(lines[..|lines| - 1]);
    }
  }

  /** A later count line overrides every earlier one, whatever lies in between. */
  lemma {:induction false} LastCountWins(lines: seq<string>, line: string, rest: seq<string>, n: int)
    requires Contains(line, "Count:") && ParseInt(Strip(SecondField(line))) == Some(n)
    requires ParseLines(lines).Done?
    requires forall k :: 0 <= k < |rest| ==> !Contains(rest[k], "Count:")
    ensures ParseLines(lines + [line] + rest).Done?
    ensures ParseLines(lines + [line] + rest).summary.count == n
  {
    ParseLinesSnoc(lines, line);
    KeepsCount(lines + [line], rest);
  }

  /** Lines that do not name a count leave the count as it was. */
  lemma {:induction false} KeepsCount(lines: seq<string>, rest: seq<string>)
    requires ParseLines(lines).Done?
    requires forall k :: 0 <= k < |rest| ==> !Contains(rest[k], "Count:")
    ensures ParseLines(lines + rest).Done?
    ensures ParseLines(lines + rest).summary.count == ParseLines(lines).summary.count
    decreases |rest|
  {
    if rest == [] {
      assert lines + rest == lines;
    } else {
      var init, last := rest[..|rest| - 1], rest[|rest| - 1];
      assert lines + rest == (lines + init) + [last];
      KeepsCount(lines, init);
      ParseLinesSnoc(lines + init, last);
      ParseLineKeeps(ParseLines(lines + init).summary, last);
    }
  }

  lemma ParseLineKeeps(s: Summary, line: string)
    requires !Contains(line, "Count:")
    ensures ParseLine(s, line).Done? && ParseLine(s, line).summary.count == s.count
  {
  }

  /** One more line is one more pass of the loop, unless a count was already refused. */
  lemma ParseLinesSnoc(lines: seq<string>, line: string)
    ensures ParseLines(lines + [line]) ==
              (if ParseLines(lines).BadCount? then ParseLines(lines) else ParseLine(ParseLines(lines).summary, line))
  {
    assert (lines + [line])[..|lines|] == lines;
  }

  /** The only colon of a written rate line is the one after "Success Rate". */
  lemma {:induction false} RateLineColon(t: string, k: int)
    requires FormattedRate(t)
    requires 0 <= k < |RateLine(t)| && RateLine(t)[k] == ':'
    ensures k == 12
  {
    RateLineShape(t);
  }

  /** Where the rate text sits in the written rate line. */
  lemma RateLineShape(t: string)
    ensures |RateLine(t)| == |t| + 16
    ensures forall k :: 14 <= k < 14 + |t| ==> RateLine(t)[k] == t[k - 14]
    ensures RateLine(t)[..14] == "Success Rate: "
    ensures RateLine(t)[14 + |t|..] == "%\n"
  {
  }

  /** The written rate line does not name a count. */
  lemma {:induction false} RateLineHasNoCount(t: string)
    requires FormattedRate(t)
    ensures !Contains(RateLine(t), "Count:")
  {
    var line := RateLine(t);
    forall i | 0 <= i <= |line| - 6 ensures !OccursAt(line, "Count:", i) {
      assert OccursAt(line, "Count:", i) ==> line[i + 5] == ':' && line[i] == 'C' by {
        if OccursAt(line, "Count:", i) {
          assert line[i..i + 6] == "Count:";
          assert line[i + 5] == line[i..i + 6][5];
        }
      }
      if line[i + 5] == ':' {
        RateLineColon(t, i + 5);
        assert line[i] == ' ';
      }
    }
  }

  /** `readlines()` on what `write_final_data` wrote gives back its two lines. */
  lemma {:induction false} ReportLines(count: nat, t: string)
    requires FormattedRate(t)
    ensures Lines(WriteReport(count, t)) == [CountLine(count), RateLine(t)]
  {
    var d := NatToString(count);
    var x1 := "Count: " + d;
    var x2 := "Success Rate: " + t + "%";
    assert CountLine(count) == x1 + "\n";
    assert RateLine(t) == x2 + "\n";
    assert x2 + "\n" + [] == x2 + "\n";
    assert WriteReport(count, t) == x1 + "\n" + RateLine(t);
    assert '\n' !in x1 by {
      forall i | 0 <= i < |x1| ensures x1[i] != '\n' {
        if i >= 7 { assert IsDigit(d[i - 7]); }
      }
    }
    assert '\n' !in x2 by {
      forall i | 0 <= i < |x2| ensures x2[i] != '\n' {
        if 14 <= i < 14 + |t| { assert IsDigit(t[i - 14]) || t[i - 14] == '.'; }
      }
    }
    LinesFirst(x1, RateLine(t));
    assert Lines(WriteReport(count, t)) == [CountLine(count)] + Lines(RateLine(t));
    LinesFirst(x2, []);
    assert Lines(RateLine(t)) == [RateLine(t)] + Lines([]);
    assert Lines([]) == [];
  }

  /** The written count line sets the count to the written count. */
  lemma {:induction false} CountLineParses(s: Summary, count: nat)
    ensures ParseLine(s, CountLine(count)) == Done(s.(count := count))
  {
    CountLineField(count);
    ContainsAtStart("Count:", " " + NatToString(count) + "\n");
    StripPadded(" ", NatToString(count), "\n");
    ParseIntRoundTrip(count);
  }

  /** The field after the colon of the written count line. */
  lemma {:induction false} CountLineField(count: nat)
    ensures CountLine(count) == "Count:" + (" " + NatToString(count) + "\n")
    ensures SecondField(CountLine(count)) == " " + NatToString(count) + "\n"
  {
    var d := NatToString(count);
    var v := " " + d + "\n";
    assert CountLine(count) == "Count" + ":" + v;
    assert ':' !in v by {
      forall i | 0 <= i < |v| ensures v[i] != ':' {
        if 1 <= i <= |d| {
          assert v[i] == d[i - 1];
          assert IsDigit(d[i - 1]);
        }
      }
    }
    FieldOf("Count", v);
  }

  /** The written rate line sets the rate to the written rate text. */
  lemma {:induction false} RateLineParses(s: Summary, t: string)
    requires FormattedRate(t)
    ensures ParseLine(s, RateLine(t)) == Done(s.(rate := Some(t)))
  {
    RateLineHasNoCount(t);
    ContainsAtStart("Success Rate:", " " + t + "%\n");
    RateLineField(t);
    RateValue(t);
  }

  /** The field after the colon of the written rate line. */
  lemma {:induction false} RateLineField(t: string)
    requires FormattedRate(t)
    ensures RateLine(t) == "Success Rate:" + (" " + t + "%\n")
    ensures SecondField(RateLine(t)) == " " + t + "%\n"
  {
    var v := " " + t + "%\n";
    assert RateLine(t) == "Success Rate" + ":" + v;
    assert ':' !in v by {
      forall i | 0 <= i < |v| ensures v[i] != ':' {
        if 1 <= i <= |t| {
          assert v[i] == t[i - 1];
          assert IsDigit(t[i - 1]) || t[i - 1] == '.';
        }
      }
    }
    FieldOf("Success Rate", v);
  }

  /** Stripping the field and removing its '%' gives back the rate text. */
  lemma {:induction false} RateValue(t: string)
    requires FormattedRate(t)
    ensures RemovePercent(Strip(" " + t + "%\n")) == t
  {
    assert '%' !in t by {
      forall i | 0 <= i < |t| ensures t[i] != '%' {
        assert IsDigit(t[i]) || t[i] == '.';
      }
    }
    assert " " + t + "%\n" == " " + (t + "%") + "\n";
    StripPadded(" ", t + "%", "\n");
    RemovePercentAppend(t, "%");
  }

  /** Parsing what `write_final_data` wrote gives back its count and its rate text. */
  lemma {:induction false} ReportRoundTrip(count: nat, t: string)
    requires FormattedRate(t)
    ensures ParseLines(Lines(WriteReport(count, t))) == Done(Summary(count, Some(t)))
  {
    var l1, l2 := CountLine(count), RateLine(t);
    ReportLines(count, t);
    assert [l1, l2] == [] + [l1] + [l2];
    ParseLinesSnoc([], l1);
    ParseLinesSnoc([l1], l2);
    CountLineParses(Summary(0, None), count);
    RateLineParses(Summary(count, None), t);
  }
}
