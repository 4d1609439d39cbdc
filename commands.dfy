/** The command and settings parsers: the comma cuts that `processSettings`,
    `startUpManually` and the mark-2 branch of `processCmd` make on the cleaned
    payload, the command mark `processCmd` dispatches on, and the speed-to-delay
    conversion of `calculateDelay` over exact arithmetic. */
module Commands {
  import opened ArduinoString

  /** One cut of a comma parser: the field before the first comma, the text left
      once the field and its comma are removed, and the `indexOf(",")` it saw. */
  datatype Cut = Cut(field: string, rest: string, comma: int)

  /** One cut, scanned a character at a time: the field grows until the first
      comma, which is dropped with it. Without a comma the field is the whole
      text and so is the rest. `CutFieldIsStringCut` shows this is the cut
      `LightningStepper` makes with `indexOf`, `substring` and `remove`. */
  function CutField(s: string): Cut {
    if s == [] then Cut([], [], -1)
    else if s[0] == ',' then Cut([], s[1..], 0)
    else
      var c := CutField(s[1..]);
      if c.comma < 0 then Cut(s, s, -1) else Cut([s[0]] + c.field, c.rest, c.comma + 1)
  }

  /** `commaIndex = msg.indexOf(",")`, `field = msg.substring(0, commaIndex)`
      and `msg.remove(0, commaIndex + 1)` make exactly the cut `CutField`
      describes; without a comma `substring(0, -1)` is the whole text and
      `remove(0, 0)` removes nothing. */
  lemma {:induction false} CutFieldIsStringCut(s: string)
    ensures var k := IndexOf(s, ',');
      CutField(s) == Cut(Substring(s, k), Remove(s, 0, k + 1), k)
  {
    if s != [] && s[0] != ',' {
      CutFieldIsStringCut(s[1..]);
      IndexOfFirst(s[1..], ',');
      var k := IndexOf(s[1..], ',');
      if 0 <= k {
        assert s[..k + 1] == [s[0]] + s[1..][..k];
        assert s[k + 2..] == s[1..][k + 1..];
      }
    }
  }

  /** The field of a cut holds no comma. Without a comma in the text the field
      and the rest are both the whole text; otherwise field, comma and rest put
      back together are the text cut, and the comma is found right after the
      field. */
  lemma {:induction false} CutFieldParts(s: string)
    ensures var c := CutField(s);
      && ',' !in c.field
      && (c.comma < 0 <==> ',' !in s)
      && (c.comma < 0 ==> c.field == s && c.rest == s)
      && (0 <= c.comma ==> c.comma == |c.field| && s == c.field + [','] + c.rest)
  {
    if s == [] {
    } else if s[0] == ',' {
      assert s == [] + [','] + s[1..];
    } else {
      var t := s[1..];
      CutFieldParts(t);
      assert s == [s[0]] + t;
      var c := CutField(t);
      if 0 <= c.comma {
        assert s == ([s[0]] + c.field) + [','] + c.rest;
      }
    }
  }

  /** The four settings fields as text, in the order they are cut: minimum
      delay, maximum delay, current position, maximum position; and what is left
      of `msg` and of `commaIndex` afterwards. */
  datatype SettingsText = SettingsText(minDelay: string, maxDelay: string, currentPosition: string,
                                       maxPosition: string, rest: string, comma: int)

  /** `processSettings`: four successive cuts. */
  function SplitSettings(s: string): SettingsText {
    var c1 := CutField(s);
    var c2 := CutField(c1.rest);
    var c3 := CutField(c2.rest);
    var c4 := CutField(c3.rest);
    SettingsText(c1.field, c2.field, c3.field, c4.field, c4.rest, c4.comma)
  }

  /** No settings field holds a comma. */
  lemma SplitSettingsNoComma(s: string)
    ensures var t := SplitSettings(s);
      ',' !in t.minDelay && ',' !in t.maxDelay && ',' !in t.currentPosition && ',' !in t.maxPosition
  {
    var c1 := CutField(s);
    var c2 := CutField(c1.rest);
    var c3 := CutField(c2.rest);
    CutFieldParts(s);
    CutFieldParts(c1.rest);
    CutFieldParts(c2.rest);
    CutFieldParts(c3.rest);
  }

  /** Settings `a,b,c,d` whose fields hold no comma are cut into exactly those
      fields, in that order. */
  lemma SplitSettingsFields(a: string, b: string, c: string, d: string)
    requires ',' !in a && ',' !in b && ',' !in c && ',' !in d
    ensures var t := SplitSettings(a + "," + b + "," + c + "," + d);
      t.minDelay == a && t.maxDelay == b && t.currentPosition == c && t.maxPosition == d
  {
    var x2 := c + [','] + d;
    var x1 := b + [','] + x2;
    var s := a + "," + b + "," + c + "," + d;
    JoinFields(a, b, c, d);
    assert s == a + [','] + x1;
    CutAt(a, x1);
    CutAt(b, x2);
    CutAt(c, d);
    CutFieldParts(d);
    assert CutField(s) == Cut(a, x1, |a|);
  }

  /** Four fields joined by commas, grouped from the right. */
  lemma JoinFields(a: string, b: string, c: string, d: string)
    ensures a + "," + b + "," + c + "," + d == a + [','] + (b + [','] + (c + [','] + d))
  {
  }

  /** A cut at a comma that follows a comma-free field. */
  lemma CutAt(a: string, b: string)
    requires ',' !in a
    ensures CutField(a + [','] + b) == Cut(a, b, |a|)
  {
    var s := a + [','] + b;
    CutFieldIsStringCut(s);
    IndexOfAfter(a, ',', b);
    assert s[..|a|] == a;
    assert s[|a| + 1..] == b;
  }

  /** With fewer than three commas the last field is repeated, because a cut
      without a comma removes nothing: settings `a` alone set all four fields
      to `a`. */
  lemma SplitSettingsWithoutComma(a: string)
    requires ',' !in a
    ensures SplitSettings(a) == SettingsText(a, a, a, a, a, -1)
  {
    CutFieldParts(a);
  }

  /** The settings `startUpAuto` accepts read back as the integers written. */
  lemma AutoSettingsRoundTrip(minDelay: int, maxDelay: int, position: int, maxPosition: int)
    ensures var t := SplitSettings(IntToString(minDelay) + "," + IntToString(maxDelay) + ","
                                   + IntToString(position) + "," + IntToString(maxPosition));
      ToInt(t.minDelay) == minDelay && ToInt(t.maxDelay) == maxDelay
      && ToInt(t.currentPosition) == position && ToInt(t.maxPosition) == maxPosition
  {
    NoCommaInNumber(minDelay);
    NoCommaInNumber(maxDelay);
    NoCommaInNumber(position);
    NoCommaInNumber(maxPosition);
    SplitSettingsFields(IntToString(minDelay), IntToString(maxDelay), IntToString(position), IntToString(maxPosition));
    ToIntOfIntToString(minDelay);
    ToIntOfIntToString(maxDelay);
    ToIntOfIntToString(position);
    ToIntOfIntToString(maxPosition);
  }

  /** The decimal text of a number holds no comma. */
  lemma NoCommaInNumber(n: int)
    ensures ',' !in IntToString(n)
  {
    var r := IntToString(n);
    IntToStringSign(n);
    if n < 0 {
      assert forall i :: 1 <= i < |r| ==> r[i] == r[1..][i - 1];
    }
  }

  /** The two delays of `startUpManually` as text, and what its two cuts leave
      in `msg` and `commaIndex`: the second cut looks up the comma and takes
      the field before it, but removes nothing. */
  datatype DelaysText = DelaysText(minDelay: string, maxDelay: string, rest: string, comma: int)

  /** `startUpManually`'s two cuts: the minimum and the maximum delay. */
  function SplitDelays(s: string): DelaysText {
    var c1 := CutField(s);
    var c2 := CutField(c1.rest);
    DelaysText(c1.field, c2.field, c1.rest, c2.comma)
  }

  /** The minimum delay is the text before the first comma (or all of it),
      neither delay holds a comma, and `msg` is left as the text after the
      first comma. */
  lemma SplitDelaysParts(s: string)
    ensures var d := SplitDelays(s);
      && ',' !in d.minDelay && ',' !in d.maxDelay && d.minDelay <= s
      && (|d.minDelay| < |s| ==> s[|d.minDelay|] == ',' && d.rest == s[|d.minDelay| + 1..])
      && d.maxDelay <= d.rest
  {
    var c1 := CutField(s);
    CutFieldParts(s);
    CutFieldParts(c1.rest);
    if 0 <= c1.comma {
      assert s[..|c1.field|] == c1.field;
      assert s[|c1.field| + 1..] == c1.rest;
    }
  }

  /** `a,b` without inner commas gives exactly `a` and `b`, and `msg` is left
      as `b`. */
  lemma SplitDelaysFields(a: string, b: string)
    requires ',' !in a && ',' !in b
    ensures SplitDelays(a + "," + b) == DelaysText(a, b, b, -1)
  {
    assert a + "," + b == a + [','] + b;
    CutAt(a, b);
    CutFieldParts(b);
  }

  /** Two numbers written with `String` and joined by a comma are read back as
      the same two numbers. */
  lemma ManualDelaysRoundTrip(minDelay: int, maxDelay: int)
    ensures var d := SplitDelays(IntToString(minDelay) + "," + IntToString(maxDelay));
      ToInt(d.minDelay) == minDelay && ToInt(d.maxDelay) == maxDelay
  {
    NoCommaInNumber(minDelay);
    NoCommaInNumber(maxDelay);
    SplitDelaysFields(IntToString(minDelay), IntToString(maxDelay));
    ToIntOfIntToString(minDelay);
    ToIntOfIntToString(maxDelay);
  }

  /** The command mark and the `commaIndex` the mark-2 branch goes on with.
      A payload of one character is its own mark and `commaIndex` keeps the
      value an earlier command left in it. */
  function MarkOf(p: string, priorComma: int): (string, int) {
    if |p| > 1 then
      var k := IndexOf(p, ',');
      (Substring(p, k), k)
    else (p, priorComma)
  }

  /** A payload of more than one character is marked by its text before the
      first comma, which holds no comma; a shorter one is its own mark. */
  lemma MarkOfParts(p: string, priorComma: int)
    ensures var m := MarkOf(p, priorComma);
      && (|p| > 1 ==> m.1 == IndexOf(p, ',') && m.0 <= p && ',' !in m.0)
      && (|p| <= 1 ==> m == (p, priorComma))
  {
    if |p| > 1 {
      IndexOfFirst(p, ',');
    }
  }

  /** The three text fields of a move command and the `commaIndex` left. */
  datatype MoveText = MoveText(speed: string, steps: string, direction: string, comma: int)

  /** The mark-2 branch of `processCmd`: the mark and its comma are removed,
      two cuts give the speed and the steps, and the direction is what remains. */
  function SplitMove(p: string, markComma: int): MoveText {
    var s := Remove(p, 0, markComma + 1);
    var c1 := CutField(s);
    var c2 := CutField(c1.rest);
    MoveText(c1.field, c2.field, c2.rest, c2.comma)
  }

  /** Neither the speed nor the steps of a move holds a comma. */
  lemma SplitMoveNoComma(p: string, markComma: int)
    ensures var t := SplitMove(p, markComma);
      ',' !in t.speed && ',' !in t.steps
  {
    var c1 := CutField(Remove(p, 0, markComma + 1));
    CutFieldParts(Remove(p, 0, markComma + 1));
    CutFieldParts(c1.rest);
  }

  /** What a cleaned payload asks `processCmd` to do; a move carries its three
      text fields, which `processCmd` reads with `toInt`. */
  datatype Command = Stop | Report | Move(text: MoveText) | Ignored

  /** The dispatch of `processCmd` on the mark. */
  function Parse(p: string, priorComma: int): Command {
    var (mark, comma) := MarkOf(p, priorComma);
    if mark == "3" then Stop
    else if mark == "1" then Report
    else if mark == "2" then Move(SplitMove(p, comma))
    else Ignored
  }

  /** A payload `2,...` has mark `2`, and the cut it makes replaces any comma an
      earlier command left. */
  lemma MoveMark(x: string, priorComma: int)
    ensures MarkOf("2," + x, priorComma) == ("2", 1)
    ensures Remove("2," + x, 0, 2) == x
  {
    var p := "2," + x;
    assert p == "2" + [','] + x;
    CutAt("2", x);
    CutFieldIsStringCut(p);
    assert p[2..] == x;
  }

  /** A move payload `2,speed,steps,direction` whose speed and steps hold no
      comma is cut into exactly those fields. */
  lemma SplitMoveFields(speed: string, steps: string, direction: string)
    requires ',' !in speed && ',' !in steps
    ensures var t := SplitMove("2," + (speed + "," + steps + "," + direction), 1);
      t.speed == speed && t.steps == steps && t.direction == direction
  {
    var x2 := steps + [','] + direction;
    var x1 := speed + [','] + x2;
    JoinMoveFields(speed, steps, direction);
    MoveMark(x1, 1);
    CutAt(speed, x2);
    CutAt(steps, direction);
  }

  /** Three fields joined by commas, grouped from the right. */
  lemma JoinMoveFields(a: string, b: string, c: string)
    ensures a + "," + b + "," + c == a + [','] + (b + [','] + c)
  {
  }

  /** A move payload whose speed and steps hold no comma is dispatched as a move
      with exactly those fields, whatever comma an earlier command left behind. */
  lemma ParseMove(speed: string, steps: string, direction: string, priorComma: int)
    requires ',' !in speed && ',' !in steps
    ensures var c := Parse("2," + speed + "," + steps + "," + direction, priorComma);
      c.Move? && c.text.speed == speed && c.text.steps == steps && c.text.direction == direction
  {
    var x := speed + "," + steps + "," + direction;
    var p := "2," + x;
    assert "2," + speed + "," + steps + "," + direction == p;
    MoveMark(x, priorComma);
    assert MarkOf(p, priorComma) == ("2", 1);
    assert Parse(p, priorComma) == Move(SplitMove(p, 1));
    SplitMoveFields(speed, steps, direction);
  }

  /** `2,speed,steps,direction` written in decimal reads back as those numbers. */
  lemma MoveCommandParses(speed: int, steps: int, direction: int, priorComma: int)
    ensures var c := Parse("2," + IntToString(speed) + "," + IntToString(steps) + "," + IntToString(direction), priorComma);
      c.Move? && ToInt(c.text.speed) == speed && ToInt(c.text.steps) == steps && ToInt(c.text.direction) == direction
  {
    NoCommaInNumber(speed);
    NoCommaInNumber(steps);
    ParseMove(IntToString(speed), IntToString(steps), IntToString(direction), priorComma);
    ToIntOfIntToString(speed);
    ToIntOfIntToString(steps);
    ToIntOfIntToString(direction);
  }

  /** Marks `3` and `1` are recognised with or without arguments after a comma. */
  lemma StopAndReportMarks(args: string, priorComma: int)
    ensures Parse("3", priorComma) == Stop && Parse("1", priorComma) == Report
    ensures Parse("3," + args, priorComma) == Stop && Parse("1," + args, priorComma) == Report
  {
    CutAt("3", args);
    assert "3," + args == "3" + [','] + args;
    CutFieldIsStringCut("3," + args);
    CutAt("1", args);
    assert "1," + args == "1" + [','] + args;
    CutFieldIsStringCut("1," + args);
  }

  /** A payload of more than one character without a comma is its own mark, so
      `12` or `3x` is ignored. */
  lemma LongMarkIgnored(p: string, priorComma: int)
    requires |p| > 1 && ',' !in p
    ensures Parse(p, priorComma) == Ignored
  {
    IndexOfFirst(p, ',');
  }

  /** The bare payload `2` goes on with the stale `commaIndex`: when it is -1
      (the last cut found no comma) every field is `2`, so the motor is asked to
      go two steps in direction 2; when it is 1 every field is empty and reads
      as 0. */
  lemma BareMoveUsesStaleComma()
    ensures Parse("2", -1) == Move(MoveText("2", "2", "2", -1))
    ensures Parse("2", 1) == Move(MoveText("", "", "", -1))
    ensures ToInt("2") == 2 && ToInt("") == 0
  {
    assert SplitMove("2", -1) == MoveText("2", "2", "2", -1);
    assert SplitMove("2", 1) == MoveText("", "", "", -1);
  }

  /** `round` of `num / 100`: to the nearest integer, halves away from zero. */
  function RoundDiv100(num: int): (r: int)
    ensures num >= 0 ==> 100 * r - 50 <= num < 100 * r + 50
    ensures num < 0 ==> 100 * r - 50 < num <= 100 * r + 50
  {
    if num >= 0 then (num + 50) / 100 else -((-num + 50) / 100)
  }

  /** `calculateDelay` over exact arithmetic: the delay falls on the straight
      line from `maxDelay` at speed 0 to `minDelay` at speed 100, rounded. */
  function Delay(minDelay: int, maxDelay: int, speed: int): int {
    RoundDiv100(100 * maxDelay + (minDelay - maxDelay) * speed)
  }

  lemma RoundDiv100Exact(x: int)
    ensures RoundDiv100(100 * x) == x
  {
  }

  lemma RoundDiv100Monotone(a: int, b: int)
    requires a <= b
    ensures RoundDiv100(a) <= RoundDiv100(b)
  {
  }

  /** Speed 0 gives the longest delay and speed 100 the shortest. */
  lemma DelayEndpoints(minDelay: int, maxDelay: int)
    ensures Delay(minDelay, maxDelay, 0) == maxDelay
    ensures Delay(minDelay, maxDelay, 100) == minDelay
  {
    RoundDiv100Exact(maxDelay);
    assert 100 * maxDelay + (minDelay - maxDelay) * 100 == 100 * minDelay;
    RoundDiv100Exact(minDelay);
  }

  /** A non-negative factor times a count in `[0, 100]` lies between 0 and
      100 times the factor. */
  lemma {:induction false} ScaledBetween(k: int, j: int)
    requires 0 <= k && 0 <= j <= 100
    ensures 0 <= k * j <= k * 100
    decreases j
  {
    if j > 0 {
      ScaledBetween(k, j - 1);
      assert k * j == k * (j - 1) + k;
    } else {
      assert k * j == 0;
    }
  }

  /** A speed in `[0, 100]` gives a delay between the two settings. */
  lemma DelayBetween(minDelay: int, maxDelay: int, speed: int)
    requires minDelay <= maxDelay && 0 <= speed <= 100
    ensures minDelay <= Delay(minDelay, maxDelay, speed) <= maxDelay
  {
    var k := maxDelay - minDelay;
    ScaledBetween(k, speed);
    var num := 100 * maxDelay + (minDelay - maxDelay) * speed;
    assert num == 100 * maxDelay - k * speed;
    RoundDiv100Monotone(100 * minDelay, num);
    RoundDiv100Monotone(num, 100 * maxDelay);
    RoundDiv100Exact(minDelay);
    RoundDiv100Exact(maxDelay);
  }

  /** Half speed between 500 and 3000 microseconds is 1750. */
  lemma DelayExample()
    ensures Delay(500, 3000, 50) == 1750
  {
  }
}
