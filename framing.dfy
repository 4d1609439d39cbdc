/** Inbound framing: the accumulate loop every reader of the controller runs,
    the `Message(` ... `)` unwrapping of `cleanMsg`, the outbound `Strike(` ...
    `)` wrapper, and the two readers that reject frames until one is accepted
    (`waitForMessage` and `preSetupPrompt`). The serial input is a finite
    sequence of fragments, one per read; when it runs out before a frame is
    accepted the reader is still blocked. */
module Framing {
  import opened ArduinoString

  /** `msgIDEchunk`, the text an inbound frame starts with. */
  const FramePrefix: string := "Message("

  /** The completion test of the accumulate loops: the text read so far was more
      than two characters long before trimming, and the trimmed text has a `(`
      and a `)` at positions past the first. */
  predicate Complete(rawLength: int, t: string) {
    rawLength > 2 && IndexOf(t, '(') > 0 && IndexOf(t, ')') > 0
  }

  /** What an accumulate loop leaves: the buffer `msg`, the fragments not yet
      read, and whether a complete frame arrived. */
  datatype Gathered = Gathered(buffer: string, rest: seq<string>, complete: bool)

  /** The accumulate loop from buffer `buf`: each read appends one fragment and
      trims the buffer, until the trimmed buffer is complete. */
  function Gather(buf: string, frags: seq<string>): (g: Gathered)
    ensures |g.rest| <= |frags|
    ensures g.complete ==> |g.rest| < |frags|
    ensures !g.complete ==> g.rest == []
    decreases |frags|
  {
    if frags == [] then Gathered(buf, [], false)
    else
      var raw := buf + frags[0];
      var t := Trim(raw);
      if Complete(|raw|, t) then Gathered(t, frags[1..], true)
      else Gather(t, frags[1..])
  }

  /** A complete buffer has a `(` and a `)` past its first position. */
  lemma {:induction false} GatherFindsParens(buf: string, frags: seq<string>)
    ensures var g := Gather(buf, frags);
      g.complete ==> IndexOf(g.buffer, '(') > 0 && IndexOf(g.buffer, ')') > 0
    decreases |frags|
  {
    if frags != [] {
      var t := Trim(buf + frags[0]);
      if !Complete(|buf + frags[0]|, t) {
        GatherFindsParens(t, frags[1..]);
      }
    }
  }

  /** The fragments put back together. */
  function Concat(frags: seq<string>): string
    decreases |frags|
  {
    if frags == [] then "" else frags[0] + Concat(frags[1..])
  }

  predicate NoParens(s: string) {
    '(' !in s && ')' !in s
  }

  /** `cleanMsg`: a buffer that starts with `Message(` loses those eight
      characters and everything from the first `)` on; any other buffer is
      returned unchanged. */
  function CleanMsg(s: string): string {
    if StartsWith(s, FramePrefix) then
      var t := Remove(s, 0, 8);
      Remove(t, IndexOf(t, ')'), -1)
    else s
  }

  /** What `cleanMsg` keeps of a framed buffer is a prefix of what follows
      `Message(`, free of `)`, cut off at the first `)`. */
  lemma CleanMsgParts(s: string)
    ensures var r := CleanMsg(s);
      && (!StartsWith(s, FramePrefix) ==> r == s)
      && (StartsWith(s, FramePrefix) ==>
            r <= s[|FramePrefix|..] && ')' !in r && (|r| < |s| - |FramePrefix| ==> s[|FramePrefix| + |r|] == ')'))
  {
    if StartsWith(s, FramePrefix) {
      var t := s[8..];
      assert Remove(s, 0, 8) == t;
      IndexOfFirst(t, ')');
    }
  }

  /** `cleanMsg` recovers the payload of a frame whose payload has no `)`,
      whatever follows the frame. */
  lemma CleanMsgUnwraps(p: string, rest: string)
    requires ')' !in p
    ensures CleanMsg(FramePrefix + p + ")" + rest) == p
  {
    var s := FramePrefix + p + ")" + rest;
    assert s[..|FramePrefix|] == FramePrefix;
    var t := s[8..];
    assert Remove(s, 0, 8) == t;
    assert t == p + [')'] + rest;
    IndexOfAfter(p, ')', rest);
    assert t[..|p|] == p;
  }

  /** A buffer completes only after its whole frame has arrived: splitting a frame
      `name(payload)` without white space or stray parentheses into any
      fragments, and following it with anything at all, gives the same buffer. */
  lemma GatherAnyFragmentation(name: string, p: string, frags: seq<string>, more: seq<string>)
    requires name != [] && NoParens(name) && NoParens(p)
    requires NoSpace(name) && NoSpace(p)
    requires Concat(frags) == name + "(" + p + ")"
    ensures var g := Gather("", frags + more);
      g.complete && g.buffer == name + "(" + p + ")" && |more| <= |g.rest|
  {
    var f := name + "(" + p + ")";
    FrameShape(name, p);
    assert "" + Concat(frags) == f;
    GatherPrefix(f, |name|, "", frags, more);
  }

  /** The shape facts of a frame `name(payload)`. */
  lemma FrameShape(name: string, p: string)
    requires name != [] && NoParens(name) && NoParens(p)
    requires NoSpace(name) && NoSpace(p)
    ensures var f := name + "(" + p + ")";
      NoSpace(f) && 3 <= |f| && f[|name|] == '(' && '(' !in f[..|name|]
      && f[|f| - 1] == ')' && ')' !in f[..|f| - 1]
  {
    var f := name + "(" + p + ")";
    assert f[..|name|] == name;
    assert f[..|f| - 1] == name + "(" + p;
  }

  /** The frame shape `GatherPrefix` works with: no white space, a `(` at
      `open` with none before it, and a single `)` at the end. */
  predicate Framed(f: string, open: nat) {
    NoSpace(f) && 3 <= |f| && 0 < open < |f| - 1
    && f[open] == '(' && '(' !in f[..open]
    && f[|f| - 1] == ')' && ')' !in f[..|f| - 1]
  }

  /** A frame is complete as a whole, and no proper prefix of it is. */
  lemma CompleteExactly(f: string, open: nat, k: nat)
    requires Framed(f, open) && k <= |f|
    ensures Trim(f[..k]) == f[..k]
    ensures Complete(k, f[..k]) <==> k == |f|
  {
    assert NoSpace(f[..k]);
    TrimNoSpace(f[..k]);
    if k == |f| {
      assert f[..k] == f;
      assert f == f[..open] + [f[open]] + f[open + 1..];
      IndexOfAfter(f[..open], '(', f[open + 1..]);
      assert f == f[..|f| - 1] + [f[|f| - 1]] + [];
      IndexOfAfter(f[..|f| - 1], ')', []);
    } else {
      assert f[..k] == f[..|f| - 1][..k];
      IndexOfFirst(f[..k], ')');
    }
  }

  /** The induction behind `GatherAnyFragmentation`: from a buffer holding a
      proper prefix of the frame, the remaining fragments complete it exactly
      when its last character arrives. */
  lemma {:induction false} GatherPrefix(f: string, open: nat, b: string, frags: seq<string>, more: seq<string>)
    requires Framed(f, open)
    requires b + Concat(frags) == f && |b| < |f|
    ensures var g := Gather(b, frags + more);
      g.complete && g.buffer == f && |more| <= |g.rest|
    decreases |frags|
  {
    if frags == [] {
      assert false;
    }
    var all := frags + more;
    assert all[0] == frags[0] && all[1..] == frags[1..] + more;
    var raw := b + frags[0];
    assert f == raw + Concat(frags[1..]);
    assert raw == f[..|raw|];
    CompleteExactly(f, open, |raw|);
    if |raw| < |f| {
      GatherPrefix(f, open, raw, frags[1..], more);
    }
  }

  /** A frame sent as one fragment completes at once and leaves what follows it
      unread. */
  lemma GatherOneFrame(p: string, more: seq<string>)
    requires NoParens(p) && NoSpace(p)
    ensures var g := Gather("", [FramePrefix + p + ")"] + more);
      g.complete && g.buffer == FramePrefix + p + ")" && g.rest == more
  {
    var f := FramePrefix + p + ")";
    assert Concat([f]) == "Message" + "(" + p + ")";
    GatherAnyFragmentation("Message", p, [f], more);
    assert ([f] + more)[1..] == more;
  }

  /** The round trip of one frame: built from a payload, sent as one fragment and
      cleaned, it gives the payload back. */
  lemma FrameRoundTrip(p: string)
    requires NoParens(p) && NoSpace(p)
    ensures var g := Gather("", [FramePrefix + p + ")"]);
      g.complete && CleanMsg(g.buffer) == p
  {
    assert Concat([FramePrefix + p + ")"]) == "Message" + "(" + p + ")";
    GatherAnyFragmentation("Message", p, [FramePrefix + p + ")"], []);
    CleanMsgUnwraps(p, "");
  }

  /** `sendMessage`: the line written for text `p`. */
  function Strike(p: string): string {
    "Strike(" + p + ")"
  }

  /** A written line is `Strike(`, the text, and `)`, so the text can be read
      back from the line. */
  lemma StrikeUnwraps(p: string)
    ensures var line := Strike(p);
      |line| == |p| + 8 && line[..7] == "Strike(" && line[|line| - 1] == ')' && line[7..|line| - 1] == p
  {
    var line := Strike(p);
    assert line[..7] == "Strike(";
    assert line[7..|line| - 1] == p;
  }

  /** The lines `waitForMessage` writes for the payloads it rejects. */
  function ErrorLines(rejected: seq<string>): (lines: seq<string>)
    ensures |lines| == |rejected|
    ensures forall i :: 0 <= i < |rejected| ==> lines[i] == Strike("SC Error: " + rejected[i])
  {
    if rejected == [] then [] else [Strike("SC Error: " + rejected[0])] + ErrorLines(rejected[1..])
  }

  /** One more rejected payload adds its error line at the end. */
  lemma {:induction false} ErrorLinesSnoc(rejected: seq<string>, p: string)
    ensures ErrorLines(rejected + [p]) == ErrorLines(rejected) + [Strike("SC Error: " + p)]
    decreases |rejected|
  {
    if rejected == [] {
      assert [p][1..] == [];
    } else {
      assert (rejected + [p])[1..] == rejected[1..] + [p];
      ErrorLinesSnoc(rejected[1..], p);
    }
  }

  /** The outcome of `waitForMessage`: whether a payload was accepted, the
      buffer `msg` it leaves, the payloads rejected on the way, and the fragments
      not yet read. */
  datatype Waited = Waited(matched: bool, buffer: string, rejected: seq<string>, rest: seq<string>)

  /** `waitForMessage(expected)`: frames are read and cleaned one after the
      other; the first whose payload starts with `expected` is accepted, each
      earlier one is rejected and the buffer cleared. */
  function WaitFor(expected: string, frags: seq<string>): (w: Waited)
    ensures w.matched ==> StartsWith(w.buffer, expected)
    ensures |w.rest| <= |frags|
    ensures w.matched ==> |w.rest| < |frags|
    ensures !w.matched ==> w.rest == []
    decreases |frags|
  {
    var g := Gather("", frags);
    if !g.complete then Waited(false, g.buffer, [], [])
    else
      var p := CleanMsg(g.buffer);
      if StartsWith(p, expected) then Waited(true, p, [], g.rest)
      else
        var w := WaitFor(expected, g.rest);
        w.(rejected := [p] + w.rejected)
  }

  /** One round of `waitForMessage`: the frame gathered from an empty buffer is
      either incomplete (still waiting), accepted, or rejected in front of the
      rounds that follow. */
  lemma WaitForRound(expected: string, frags: seq<string>)
    ensures var g, w := Gather("", frags), WaitFor(expected, frags);
      var p := CleanMsg(g.buffer);
      && (!g.complete ==> w == Waited(false, g.buffer, [], []))
      && (g.complete && StartsWith(p, expected) ==> w == Waited(true, p, [], g.rest))
      && (g.complete && !StartsWith(p, expected) ==>
            var w1 := WaitFor(expected, g.rest);
            w.matched == w1.matched && w.buffer == w1.buffer && w.rest == w1.rest
            && w.rejected == [p] + w1.rejected)
  {
  }

  /** Every payload `waitForMessage` rejects fails the prefix test. */
  lemma {:induction false} RejectedDoNotMatch(expected: string, frags: seq<string>, i: nat)
    requires i < |WaitFor(expected, frags).rejected|
    ensures !StartsWith(WaitFor(expected, frags).rejected[i], expected)
    decreases |frags|
  {
    var g := Gather("", frags);
    var p := CleanMsg(g.buffer);
    var w := WaitFor(expected, frags);
    assert g.complete && !StartsWith(p, expected);
    assert w.rejected == [p] + WaitFor(expected, g.rest).rejected;
    if i > 0 {
      RejectedDoNotMatch(expected, g.rest, i - 1);
    }
  }

  /** `waitForMessage` tests a prefix only: any frame whose payload starts with
      the expected text is accepted (so `Goo` passes for `Go`), and what follows
      it is left unread. */
  lemma WaitForAcceptsPrefix(expected: string, p: string, more: seq<string>)
    requires NoParens(p) && NoSpace(p) && StartsWith(p, expected)
    ensures WaitFor(expected, [FramePrefix + p + ")"] + more) == Waited(true, p, [], more)
  {
    var f := FramePrefix + p + ")";
    assert Concat([f]) == "Message" + "(" + p + ")";
    GatherAnyFragmentation("Message", p, [f], more);
    CleanMsgUnwraps(p, "");
  }

  /** A frame whose payload does not start with the expected text is rejected,
      and the next one is read from an empty buffer. */
  lemma WaitForRejects(expected: string, p: string, more: seq<string>)
    requires NoParens(p) && NoSpace(p) && !StartsWith(p, expected)
    ensures var w := WaitFor(expected, more);
      WaitFor(expected, [FramePrefix + p + ")"] + more) == w.(rejected := [p] + w.rejected)
  {
    var f := FramePrefix + p + ")";
    var frags := [f] + more;
    assert Concat([f]) == "Message" + "(" + p + ")";
    GatherAnyFragmentation("Message", p, [f], more);
    var g := Gather("", frags);
    assert frags[1..] == more;
    assert g.rest == more;
    CleanMsgUnwraps(p, "");
    assert CleanMsg(g.buffer) == p;
  }

  lemma GooPassesForGo(more: seq<string>)
    ensures WaitFor("Go", [FramePrefix + "Goo" + ")"] + more) == Waited(true, "Goo", [], more)
  {
    WaitForAcceptsPrefix("Go", "Goo", more);
  }

  /** The outcome of `preSetupPrompt`'s loop: the launch mode chosen (0 while
      still blocked), the buffer, how many frames were answered `Error 1`, and
      the fragments not yet read. */
  datatype Prompted = Prompted(mode: int, buffer: string, errors: nat, rest: seq<string>)

  /** `preSetupPrompt`: frames are read until one whose payload is exactly `1`
      or `2`, which chooses the launch mode. */
  function Prompt(frags: seq<string>): (r: Prompted)
    ensures r.mode == 0 || r.mode == 1 || r.mode == 2
    ensures r.mode == 1 ==> r.buffer == "1"
    ensures r.mode == 2 ==> r.buffer == "2"
    ensures |r.rest| <= |frags|
    ensures r.mode != 0 ==> |r.rest| < |frags|
    ensures r.mode == 0 ==> r.rest == []
    decreases |frags|
  {
    var g := Gather("", frags);
    if !g.complete then Prompted(0, g.buffer, 0, [])
    else
      var p := CleanMsg(g.buffer);
      if p == "1" then Prompted(1, p, 0, g.rest)
      else if p == "2" then Prompted(2, p, 0, g.rest)
      else
        var r := Prompt(g.rest);
        r.(errors := r.errors + 1)
  }

  /** One round of `preSetupPrompt`: the frame gathered from an empty buffer is
      incomplete (still waiting), chooses a mode, or is answered with an error
      in front of the rounds that follow. */
  lemma PromptRound(frags: seq<string>)
    ensures var g, r := Gather("", frags), Prompt(frags);
      var p := CleanMsg(g.buffer);
      && (!g.complete ==> r == Prompted(0, g.buffer, 0, []))
      && (g.complete && p == "1" ==> r == Prompted(1, p, 0, g.rest))
      && (g.complete && p == "2" ==> r == Prompted(2, p, 0, g.rest))
      && (g.complete && p != "1" && p != "2" ==>
            var r1 := Prompt(g.rest);
            r.mode == r1.mode && r.buffer == r1.buffer && r.rest == r1.rest && r.errors == r1.errors + 1)
  {
  }

  /** A frame whose payload is exactly `1` or `2` chooses that launch mode. */
  lemma PromptAccepts(p: string, more: seq<string>)
    requires p == "1" || p == "2"
    ensures Prompt([FramePrefix + p + ")"] + more) == Prompted(if p == "1" then 1 else 2, p, 0, more)
  {
    var f := FramePrefix + p + ")";
    assert Concat([f]) == "Message" + "(" + p + ")";
    GatherAnyFragmentation("Message", p, [f], more);
    CleanMsgUnwraps(p, "");
  }

  /** Any other payload is answered with an error, and the next frame is read
      from an empty buffer. */
  lemma PromptRejects(p: string, more: seq<string>)
    requires NoParens(p) && NoSpace(p) && p != "1" && p != "2"
    ensures var r, r0 := Prompt([FramePrefix + p + ")"] + more), Prompt(more);
      r.mode == r0.mode && r.buffer == r0.buffer && r.errors == r0.errors + 1 && r.rest == r0.rest
  {
    var f := FramePrefix + p + ")";
    assert Concat([f]) == "Message" + "(" + p + ")";
    GatherAnyFragmentation("Message", p, [f], more);
    CleanMsgUnwraps(p, "");
    var g := Gather("", [f] + more);
    assert g.rest == more;
    assert CleanMsg(g.buffer) == p;
  }
}
