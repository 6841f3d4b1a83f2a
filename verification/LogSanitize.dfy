/**
 Removal of terminal control sequences from a log line (packages/common/src/log-sanitize.ts).

 A line is a sequence of UTF-16 code units. The definition works on what is left of the line:
 keep one visible unit, or drop one control sequence. The methods work on indices, as the
 source does, and collect spans.
 */
module LogSanitize {
  type Code = c: int | 0 <= c < 0x1_0000

  const ESC: Code := 0x1b
  const BEL: Code := 0x07
  const BACKSLASH: Code := 0x5c
  const C1_CSI: Code := 0x9b
  const C1_ST: Code := 0x9c
  const C1_OSC: Code := 0x9d

  // ------------------------------------------------------------------ definition

  /** Neither a C0 control other than TAB and LF, nor DEL, nor a C1 control. */
  predicate Visible(c: Code) {
    c == 0x09 || c == 0x0a || (0x20 <= c && !(0x7f <= c <= 0x9f))
  }

  predicate Final(c: Code) {
    0x40 <= c <= 0x7e
  }

  predicate Intermediate(c: Code) {
    0x20 <= c <= 0x2f
  }

  /** DCS, SOS, PM and APC in their seven-bit form, after ESC. */
  predicate StartsString(c: Code) {
    c == 0x50 || c == 0x58 || c == 0x5e || c == 0x5f
  }

  predicate StartsStringC1(c: Code) {
    c == 0x90 || c == 0x98 || c == 0x9e || c == 0x9f
  }

  /** Parameters up to the final byte, or everything. */
  function CsiLength(s: seq<Code>): (n: nat)
    ensures n <= |s|
  {
    if s == [] then 0 else if Final(s[0]) then 1 else 1 + CsiLength(s[1..])
  }

  /** How much of a terminator `s` begins with: BEL where allowed, ST, or ESC backslash. */
  function TerminatorLength(s: seq<Code>, bell: bool): (n: nat)
    ensures n <= |s| && n <= 2
  {
    if s == [] then 0
    else if (bell && s[0] == BEL) || s[0] == C1_ST then 1
    else if s[0] == ESC && |s| > 1 && s[1] == BACKSLASH then 2
    else 0
  }

  function StringLength(s: seq<Code>, bell: bool): (n: nat)
    ensures n <= |s|
  {
    if s == [] then 0
    else if TerminatorLength(s, bell) > 0 then TerminatorLength(s, bell)
    else 1 + StringLength(s[1..], bell)
  }

  function Intermediates(s: seq<Code>): (n: nat)
    ensures n <= |s|
  {
    if s != [] && Intermediate(s[0]) then 1 + Intermediates(s[1..]) else 0
  }

  /** What follows an ESC: nothing at all unless a whole sequence is there. */
  function EscLength(s: seq<Code>): (n: nat)
    ensures n <= |s|
  {
    if s == [] then 0
    else if s[0] == 0x5b then 1 + CsiLength(s[1..])
    else if s[0] == 0x5d then 1 + StringLength(s[1..], true)
    else if StartsString(s[0]) then 1 + StringLength(s[1..], false)
    else
      var n := Intermediates(s);
      if n < |s| && 0x30 <= s[n] <= 0x7e then n + 1 else 0
  }

  /** The control sequence at the start of `s`. */
  function ControlLength(s: seq<Code>): (n: nat)
    requires s != []
    ensures 1 <= n <= |s|
  {
    if s[0] == ESC then 1 + EscLength(s[1..])
    else if s[0] == C1_CSI then 1 + CsiLength(s[1..])
    else if s[0] == C1_OSC || StartsStringC1(s[0]) then 1 + StringLength(s[1..], s[0] == C1_OSC)
    else 1
  }

  function Plain(s: seq<Code>): seq<Code>
    decreases |s|
  {
    if s == [] then []
    else if Visible(s[0]) then [s[0]] + Plain(s[1..])
    else Plain(s[ControlLength(s)..])
  }

  // ------------------------------------------------------------------ what sanitizing leaves

  ghost predicate AllVisible(s: seq<Code>) {
    forall i :: 0 <= i < |s| ==> Visible(s[i])
  }

  /** `a` is what is left of `b` after deleting some of its units. */
  ghost predicate Subsequence(a: seq<Code>, b: seq<Code>) {
    a == [] || (b != [] && ((a[0] == b[0] && Subsequence(a[1..], b[1..])) || Subsequence(a, b[1..])))
  }

  lemma {:induction false} OutputIsVisible(s: seq<Code>)
    ensures AllVisible(Plain(s))
    decreases |s|
  {
    if s != [] {
      OutputIsVisible(if Visible(s[0]) then s[1..] else s[ControlLength(s)..]);
    }
  }

  lemma {:induction false} SkipKeepsSubsequence(a: seq<Code>, b: seq<Code>, n: nat)
    requires n <= |b| && Subsequence(a, b[n..])
    ensures Subsequence(a, b)
  {
    if n > 0 {
      assert b[1..][n - 1..] == b[n..];
      SkipKeepsSubsequence(a, b[1..], n - 1);
    } else {
      assert b[0..] == b;
    }
  }

  lemma {:induction false} OutputIsSubsequence(s: seq<Code>)
    ensures Subsequence(Plain(s), s)
    decreases |s|
  {
    if s != [] {
      if Visible(s[0]) {
        OutputIsSubsequence(s[1..]);
        assert Plain(s)[1..] == Plain(s[1..]);
      } else {
        OutputIsSubsequence(s[ControlLength(s)..]);
        SkipKeepsSubsequence(Plain(s), s, ControlLength(s));
      }
    }
  }

  /** Visible text in front of anything is kept, and does not change what follows. */
  lemma {:induction false} VisiblePrefix(v: seq<Code>, s: seq<Code>)
    requires AllVisible(v)
    ensures Plain(v + s) == v + Plain(s)
  {
    if v == [] {
      assert v + s == s;
    } else {
      assert (v + s)[1..] == v[1..] + s;
      VisiblePrefix(v[1..], s);
    }
  }

  lemma UnchangedIffVisible(s: seq<Code>)
    ensures Plain(s) == s <==> AllVisible(s)
  {
    OutputIsVisible(s);
    if AllVisible(s) {
      VisiblePrefix(s, []);
      assert s + [] == s;
    }
  }

  lemma SanitizeTwice(s: seq<Code>)
    ensures Plain(Plain(s)) == Plain(s)
  {
    OutputIsVisible(s);
    UnchangedIffVisible(Plain(s));
  }

  // ------------------------------------------------------------------ whole sequences vanish

  ghost predicate NoFinal(s: seq<Code>) {
    forall i :: 0 <= i < |s| ==> !(0x40 <= s[i] <= 0x7e)
  }

  /** No terminator stands in `s`. */
  ghost predicate Unterminated(s: seq<Code>, bell: bool) {
    forall i :: 0 <= i < |s| ==> TerminatorLength(s[i..], bell) == 0
  }

  lemma {:induction false} CsiStops(params: seq<Code>, rest: seq<Code>)
    requires NoFinal(params) && (rest == [] || Final(rest[0]))
    ensures CsiLength(params + rest) == |params| + if rest == [] then 0 else 1
  {
    if params == [] {
      assert params + rest == rest;
    } else {
      assert (params + rest)[1..] == params[1..] + rest;
      CsiStops(params[1..], rest);
    }
  }

  lemma {:induction false} StringStops(payload: seq<Code>, rest: seq<Code>, bell: bool)
    requires Unterminated(payload, bell) && (rest == [] || TerminatorLength(rest, bell) > 0)
    ensures StringLength(payload + rest, bell) == |payload| + TerminatorLength(rest, bell)
  {
    if payload == [] {
      assert payload + rest == rest;
    } else {
      var s := payload + rest;
      assert s[1..] == payload[1..] + rest;
      forall i | 0 <= i < |payload| - 1 ensures TerminatorLength(payload[1..][i..], bell) == 0 {
        assert payload[1..][i..] == payload[i + 1..];
      }
      assert TerminatorLength(payload[0..], bell) == 0;
      StringStops(payload[1..], rest, bell);
    }
  }

  /** A terminated CSI sequence disappears whole; an unterminated one takes the rest of the line. */
  lemma CsiVanishes(params: seq<Code>, final: Code, rest: seq<Code>)
    requires NoFinal(params) && 0x40 <= final <= 0x7e
    ensures Plain([0x9b] + params + [final] + rest) == Plain(rest)
    ensures Plain([0x9b] + params) == []
  {
    var s := [0x9b] + params + [final] + rest;
    assert s[1..] == params + ([final] + rest);
    CsiStops(params, [final] + rest);
    assert s[ControlLength(s)..] == rest;
    var u := [0x9b] + params;
    assert u[1..] == params + [];
    CsiStops(params, []);
  }

  /** A control string disappears with its payload and terminator, or with the rest of the line. */
  lemma ControlStringVanishes(opener: Code, payload: seq<Code>, terminator: seq<Code>, rest: seq<Code>)
    requires opener == 0x9d || opener == 0x90 || opener == 0x98 || opener == 0x9e || opener == 0x9f
    requires Unterminated(payload, opener == 0x9d)
    requires terminator == [0x9c] || terminator == [0x1b, 0x5c] || (terminator == [0x07] && opener == 0x9d)
    ensures Plain([opener] + payload + terminator + rest) == Plain(rest)
    ensures Plain([opener] + payload) == []
  {
    var bell := opener == C1_OSC;
    var s := [opener] + payload + terminator + rest;
    assert s[1..] == payload + (terminator + rest);
    StringStops(payload, terminator + rest, bell);
    assert s[ControlLength(s)..] == rest;
    var u := [opener] + payload;
    assert u[1..] == payload + [];
    StringStops(payload, [], bell);
  }

  ghost predicate AllIntermediate(s: seq<Code>) {
    forall i :: 0 <= i < |s| ==> 0x20 <= s[i] <= 0x2f
  }

  lemma {:induction false} IntermediatesStop(middle: seq<Code>, rest: seq<Code>)
    requires AllIntermediate(middle) && (rest == [] || !(0x20 <= rest[0] <= 0x2f))
    ensures Intermediates(middle + rest) == |middle|
  {
    if middle == [] {
      assert middle + rest == rest;
    } else {
      assert (middle + rest)[1..] == middle[1..] + rest;
      IntermediatesStop(middle[1..], rest);
    }
  }

  /** What follows an ESC and opens a sequence or a string of its own. */
  predicate Opens(c: Code) {
    c == 0x5b || c == 0x5d || c == 0x50 || c == 0x58 || c == 0x5e || c == 0x5f
  }

  /** A short escape sequence, such as ESC ( B or ESC 7, disappears whole: intermediates and one final unit. */
  lemma EscapeVanishes(middle: seq<Code>, final: Code, rest: seq<Code>)
    requires AllIntermediate(middle) && 0x30 <= final <= 0x7e && (middle == [] ==> !Opens(final))
    ensures Plain([0x1b] + middle + [final] + rest) == Plain(rest)
  {
    var s := [0x1b] + middle + [final] + rest;
    assert s[1..] == middle + ([final] + rest);
    IntermediatesStop(middle, [final] + rest);
    assert s[1..][|middle|] == final;
    assert s[1..][0] == if middle == [] then final else middle[0];
    assert ControlLength(s) == 1 + |middle| + 1;
    assert s[ControlLength(s)..] == rest;
  }

  lemma LoneEscapeLength(middle: seq<Code>, rest: seq<Code>)
    requires AllIntermediate(middle) && (rest == [] || !(0x20 <= rest[0] <= 0x7e))
    ensures ControlLength([0x1b] + middle + rest) == 1
  {
    hide AllIntermediate;
    var s := [0x1b] + middle + rest;
    assert s[1..] == middle + rest;
    IntermediatesStop(middle, rest);
    if middle != [] {
      FirstIntermediate(middle);
    }
    assert middle + rest != [] ==> (middle + rest)[0] == if middle == [] then rest[0] else middle[0];
  }

  lemma FirstIntermediate(middle: seq<Code>)
    requires AllIntermediate(middle) && middle != []
    ensures 0x20 <= middle[0] <= 0x2f
  {
  }

  /** An ESC that no sequence follows is dropped alone, and what follows it is read again. */
  lemma LoneEscapeVanishes(middle: seq<Code>, rest: seq<Code>)
    requires AllIntermediate(middle) && (rest == [] || !(0x20 <= rest[0] <= 0x7e))
    ensures Plain([0x1b] + middle + rest) == middle + Plain(rest)
  {
    hide ControlLength;
    var s := [0x1b] + middle + rest;
    assert s[1..] == middle + rest;
    LoneEscapeLength(middle, rest);
    VisiblePrefix(middle, rest);
  }

  /** Both spellings of every sequence opener remove the same text. */
  lemma SevenBitFormAgrees(opener: Code, rest: seq<Code>)
    requires opener == 0x9b || opener == 0x9d || opener == 0x90 || opener == 0x98 || opener == 0x9e || opener == 0x9f
    ensures Plain([0x1b, opener - 0x40] + rest) == Plain([opener] + rest)
  {
    var long, short := [0x1b, opener - 0x40] + rest, [opener] + rest;
    assert long[1..][1..] == rest && short[1..] == rest;
    assert ControlLength(long) == ControlLength(short) + 1;
    assert long[ControlLength(long)..] == short[ControlLength(short)..];
  }

  // ------------------------------------------------------------------ index loops

  method SkipCsi(line: seq<Code>, start: nat) returns (next: nat)
    requires start <= |line|
    ensures next == start + CsiLength(line[start..])
  {
    var i := start;
    while i < |line|
      invariant start <= i <= |line|
      invariant start + CsiLength(line[start..]) == i + CsiLength(line[i..])
    {
      if 0x40 <= line[i] <= 0x7e {
        return i + 1;
      }
      i := i + 1;
    }
    next := |line|;
  }

  method SkipControlString(line: seq<Code>, start: nat, allowBell: bool) returns (next: nat)
    requires start <= |line|
    ensures next == start + StringLength(line[start..], allowBell)
  {
    var i := start;
    while i < |line|
      invariant start <= i <= |line|
      invariant start + StringLength(line[start..], allowBell) == i + StringLength(line[i..], allowBell)
    {
      var code := line[i];
      if allowBell && code == 0x07 {
        return i + 1;
      }
      if code == 0x9c {
        return i + 1;
      }
      if code == 0x1b && i + 1 < |line| && line[i + 1] == 0x5c {
        return i + 2;
      }
      i := i + 1;
    }
    next := |line|;
  }

  method SkipEscSequence(line: seq<Code>, start: nat) returns (next: nat)
    requires start <= |line|
    ensures next == start + EscLength(line[start..])
  {
    if start >= |line| {
      return |line|;
    }
    var first := line[start];
    assert line[start..][1..] == line[start + 1..];
    if first == 0x5b {
      next := SkipCsi(line, start + 1);
      return;
    }
    if first == 0x5d {
      next := SkipControlString(line, start + 1, true);
      return;
    }
    if first == 0x50 || first == 0x58 || first == 0x5e || first == 0x5f {
      next := SkipControlString(line, start + 1, false);
      return;
    }
    var i := start;
    while i < |line|
      invariant start <= i <= |line|
      invariant start + Intermediates(line[start..]) == i + Intermediates(line[i..])
    {
      if line[i] < 0x20 || line[i] > 0x2f {
        break;
      }
      i := i + 1;
    }
    assert i == start + Intermediates(line[start..]);
    next := if i < |line| && 0x30 <= line[i] <= 0x7e then i + 1 else start;
  }

  function Joined(parts: seq<seq<Code>>): seq<Code> {
    if parts == [] then [] else Joined(parts[..|parts| - 1]) + parts[|parts| - 1]
  }

  /** Tells a visible unit from a control sequence, and where that one ends. */
  method SkipControl(line: seq<Code>, i: nat) returns (visible: bool, next: nat)
    requires i < |line|
    ensures visible == Visible(line[i])
    ensures !visible ==> next == i + ControlLength(line[i..])
  {
    var code := line[i];
    assert line[i..][1..] == line[i + 1..];
    visible, next := false, i;
    if code == 0x1b {
      next := SkipEscSequence(line, i + 1);
    } else if code == 0x9b {
      next := SkipCsi(line, i + 1);
    } else if code == 0x9d || code == 0x90 || code == 0x98 || code == 0x9e || code == 0x9f {
      next := SkipControlString(line, i + 1, code == 0x9d);
    } else if (code < 0x20 && code != 0x09 && code != 0x0a) || 0x7f <= code <= 0x9f {
      next := i + 1;
    } else {
      visible := true;
    }
  }

  /** Collects the visible spans and joins them once. */
  method SanitizeLogLine(line: seq<Code>) returns (plain: seq<Code>)
    ensures plain == Plain(line)
    ensures AllVisible(plain) && Subsequence(plain, line)
  {
    OutputIsVisible(line);
    OutputIsSubsequence(line);
    hide AllVisible, Subsequence, ControlLength, Visible;
    var parts: seq<seq<Code>> := [];
    var start, i := 0, 0;
    while i < |line|
      invariant 0 <= start <= i <= |line|
      invariant start == 0 ==> parts == []
      invariant Plain(line) == Joined(parts) + line[start..i] + Plain(line[i..])
    {
      var visible, next := SkipControl(line, i);
      if visible {
        KeepUnit(Joined(parts), line, start, i);
        i := i + 1;
      } else {
        DropSequence(parts, line, start, i, next);
        parts := parts + [line[start..i]];
        start, i := next, next;
      }
    }
    if start == 0 {
      return line;
    }
    assert (parts + [line[start..]])[..|parts|] == parts;
    parts := parts + [line[start..]];
    plain := Joined(parts);
  }

  lemma KeepUnit(done: seq<Code>, line: seq<Code>, start: nat, i: nat)
    requires start <= i < |line| && Visible(line[i])
    ensures done + line[start..i] + Plain(line[i..]) == done + line[start..i + 1] + Plain(line[i + 1..])
  {
    assert line[i..][1..] == line[i + 1..];
    assert line[start..i + 1] == line[start..i] + [line[i]];
  }

  lemma DropSequence(parts: seq<seq<Code>>, line: seq<Code>, start: nat, i: nat, next: nat)
    requires start <= i < |line| && !Visible(line[i]) && next == i + ControlLength(line[i..])
    ensures Joined(parts) + line[start..i] + Plain(line[i..])
         == Joined(parts + [line[start..i]]) + line[next..next] + Plain(line[next..])
  {
    assert line[i..][ControlLength(line[i..])..] == line[next..];
    assert (parts + [line[start..i]])[..|parts|] == parts;
  }
}
