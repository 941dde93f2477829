/** The clean-up that strips a Markdown code fence from a model's reply
    before it is parsed as JSON (test_gemini.py, the `cleaned_text`
    sequence): trim, drop a leading "```json", drop a leading "```", drop
    one trailing "```", trim again. */
module FenceCleaning {

  /** Python's `str.isspace` for one character. */
  predicate IsSpace(c: char) {
    c in {'\U{20}', '\U{9}', '\U{A}', '\U{D}', '\U{B}', '\U{C}', '\U{1C}', '\U{1D}',
          '\U{1E}', '\U{1F}', '\U{85}', '\U{A0}', '\U{1680}', '\U{2000}', '\U{2001}', '\U{2002}',
          '\U{2003}', '\U{2004}', '\U{2005}', '\U{2006}', '\U{2007}', '\U{2008}', '\U{2009}', '\U{200A}',
          '\U{2028}', '\U{2029}', '\U{202F}', '\U{205F}', '\U{3000}'}
  }

  predicate AllSpace(s: string) {
    forall i :: 0 <= i < |s| ==> IsSpace(s[i])
  }

  /** Neither the first nor the last character is whitespace. */
  predicate Trimmed(s: string) {
    s == [] || (!IsSpace(s[0]) && !IsSpace(s[|s| - 1]))
  }

  /** `s.lstrip()`. */
  function TrimStart(s: string): string
  {
    if s != [] && IsSpace(s[0]) then TrimStart(s[1..]) else s
  }

  /** `lstrip` keeps the shortest suffix of `s` that starts with a
      non-space character (or is empty): everything it drops is space. */
  lemma {:induction false} TrimStartSpec(s: string)
    ensures var r := TrimStart(s);
            |r| <= |s| && r == s[|s| - |r|..] && AllSpace(s[..|s| - |r|]) && (r == [] || !IsSpace(r[0]))
  {
    if s != [] && IsSpace(s[0]) {
      TrimStartSpec(s[1..]);
      var r := TrimStart(s[1..]);
      assert s[1..][..|s| - 1 - |r|] == s[1..|s| - |r|];
      assert s[..|s| - |r|] == [s[0]] + s[1..|s| - |r|];
    }
  }

  /** `s.rstrip()`. */
  function TrimEnd(s: string): string
  {
    if s != [] && IsSpace(s[|s| - 1]) then TrimEnd(s[..|s| - 1]) else s
  }

  /** `rstrip` keeps the longest prefix of `s` that ends with a non-space
      character (or is empty): everything it drops is space. */
  lemma {:induction false} TrimEndSpec(s: string)
    ensures var r := TrimEnd(s);
            |r| <= |s| && r == s[..|r|] && AllSpace(s[|r|..]) && (r == [] || !IsSpace(r[|r| - 1]))
  {
    if s != [] && IsSpace(s[|s| - 1]) {
      TrimEndSpec(s[..|s| - 1]);
      var r := TrimEnd(s[..|s| - 1]);
      assert s[..|s| - 1][|r|..] == s[|r|..|s| - 1];
      assert s[|r|..] == s[|r|..|s| - 1] + [s[|s| - 1]];
    }
  }

  /** `s.strip()`. */
  function Strip(s: string): (r: string)
    ensures Trimmed(r) && |r| <= |s|
  {
    TrimStartSpec(s);
    TrimEndSpec(TrimStart(s));
    TrimEnd(TrimStart(s))
  }

  predicate StartsWith(s: string, p: string) {
    |p| <= |s| && s[..|p|] == p
  }

  predicate EndsWith(s: string, p: string) {
    |p| <= |s| && s[|s| - |p|..] == p
  }

  const JsonFence: string := "```json"
  const Fence: string := "```"

  /** The three fence checks between the two trims (test_gemini.py lines
      56-61). The result is a slice `s[i..j]` of its input: the start moves
      past at most a "```json" and a "```", the end loses at most one
      "```". */
  function Unfence(s: string): (r: string)
    ensures exists i, j :: i in {0, 3, 7, 10} && j in {|s|, |s| - 3} && 0 <= i <= j <= |s| && r == s[i..j]
  {
    var a := if StartsWith(s, JsonFence) then s[7..] else s;
    var b := if StartsWith(a, Fence) then a[3..] else a;
    var c := if EndsWith(b, Fence) then b[..|b| - 3] else b;
    ghost var i := (if StartsWith(s, JsonFence) then 7 else 0) + (if StartsWith(a, Fence) then 3 else 0);
    ghost var j := if EndsWith(b, Fence) then |s| - 3 else |s|;
    assert c == s[i..j];
    c
  }

  /** The whole clean-up of test_gemini.py lines 55-62. */
  function CleanFences(text: string): (r: string)
    ensures Trimmed(r)
    ensures |r| <= |text|
  {
    Strip(Unfence(Strip(text)))
  }
}

module FenceCleaningProps {
  import opened FenceCleaning

  /** Trimming text that has no outer whitespace changes nothing. */
  lemma StripTrimmed(s: string)
    requires Trimmed(s)
    ensures Strip(s) == s
  {
  }

  lemma {:induction false} TrimStartPadded(w: string, p: string)
    requires AllSpace(w) && (p == [] || !IsSpace(p[0]))
    ensures TrimStart(w + p) == p
  {
    if w != [] {
      assert (w + p)[1..] == w[1..] + p;
      TrimStartPadded(w[1..], p);
    }
  }

  lemma {:induction false} TrimEndPadded(p: string, w: string)
    requires AllSpace(w) && (p == [] || !IsSpace(p[|p| - 1]))
    ensures TrimEnd(p + w) == p
  {
    if w != [] {
      assert (p + w)[..|p + w| - 1] == p + w[..|w| - 1];
      TrimEndPadded(p, w[..|w| - 1]);
    }
  }

  /** Whitespace around a trimmed text is exactly what `strip` removes. */
  lemma StripPadded(w1: string, p: string, w2: string)
    requires AllSpace(w1) && AllSpace(w2) && Trimmed(p)
    ensures Strip(w1 + p + w2) == p
  {
    if p == [] {
      assert w1 + p + w2 == w1 + w2;
      assert AllSpace(w1 + w2);
      TrimStartPadded(w1 + w2, []);
      assert w1 + w2 + [] == w1 + w2;
    } else {
      assert w1 + p + w2 == w1 + (p + w2);
      TrimStartPadded(w1, p + w2);
      TrimEndPadded(p, w2);
    }
  }

  /** Every "```json" prefix is also a "```" prefix. */
  lemma JsonFenceIsFence(s: string)
    ensures StartsWith(s, JsonFence) ==> StartsWith(s, Fence)
  {
    if StartsWith(s, JsonFence) {
      assert s[..3] == JsonFence[..3];
    }
  }

  lemma Affixes(a: string, b: string)
    ensures StartsWith(a + b, a) && EndsWith(a + b, b)
  {
    assert (a + b)[..|a|] == a;
    assert (a + b)[|a + b| - |b|..] == b;
  }

  /** Text with no fence at either end is only trimmed. */
  lemma UnfencedTextOnlyTrimmed(text: string)
    requires !StartsWith(Strip(text), Fence) && !EndsWith(Strip(text), Fence)
    ensures CleanFences(text) == Strip(text)
  {
    var s := Strip(text);
    JsonFenceIsFence(s);
    assert Unfence(s) == s;
    StripTrimmed(s);
  }

  lemma UnfenceAfterJsonFence(c: string)
    requires c != [] && IsSpace(c[0])
    ensures Unfence(JsonFence + (c + Fence)) == c
  {
    var a := c + Fence;
    Affixes(JsonFence, a);
    assert (JsonFence + a)[7..] == a;
    assert a[0] == c[0];
    Affixes(c, Fence);
    assert a[..|a| - 3] == c;
  }

  lemma StripFenced(c: string)
    ensures Strip(JsonFence + (c + Fence)) == JsonFence + (c + Fence)
  {
    var s := JsonFence + (c + Fence);
    assert s[0] == '`' && s[|s| - 1] == '`';
    StripTrimmed(s);
  }

  lemma CleanFencesSteps(s: string, c: string)
    requires Strip(s) == s && Unfence(s) == c
    ensures CleanFences(s) == Strip(c)
  {
  }

  /** One or two backticks (or none) in front of the closing fence read as
      a fence of their own. */
  predicate Backticks(p: string) {
    |p| < 3 && forall k :: 0 <= k < |p| ==> p[k] == '`'
  }

  /** After "```json", a payload of bare backticks and the closing fence
      open with "```" themselves: the second check takes three backticks,
      no closing fence is left, and the payload remains. */
  lemma UnfenceBackticks(p: string)
    requires Backticks(p)
    ensures Unfence(JsonFence + (p + Fence)) == p
  {
    var a := p + Fence;
    Affixes(JsonFence, a);
    assert (JsonFence + a)[7..] == a;
    forall k | 0 <= k < 3
      ensures a[k] == '`'
    {
      if k < |p| {
        assert a[k] == p[k];
      }
    }
    assert a[..3] == Fence;
    assert a[3..] == p;
  }

  /** Anything else after "```json" does not open with "```", so only the
      closing fence goes. */
  lemma NotFenceLed(payload: string, w2: string)
    requires AllSpace(w2) && !StartsWith(payload, Fence) && !(w2 == [] && Backticks(payload))
    ensures !StartsWith(payload + w2 + Fence, Fence)
  {
    var a := payload + w2 + Fence;
    if |payload| >= 3 {
      assert a[..3] == payload[..3];
    } else if forall k :: 0 <= k < |payload| ==> payload[k] == '`' {
      assert a[|payload|] == w2[0];
    } else {
      var k :| 0 <= k < |payload| && payload[k] != '`';
      assert a[k] == payload[k];
    }
  }

  lemma UnfenceAfterJsonFenceOnly(c: string)
    requires !StartsWith(c + Fence, Fence)
    ensures Unfence(JsonFence + (c + Fence)) == c
  {
    var a := c + Fence;
    Affixes(JsonFence, a);
    assert (JsonFence + a)[7..] == a;
    Affixes(c, Fence);
    assert a[..|a| - 3] == c;
  }

  /** With nothing between "```json" and a payload that does not itself
      open with "```", the fences still go. */
  lemma UnfenceAfterJsonFenceTight(payload: string, w2: string)
    requires AllSpace(w2) && Trimmed(payload) && !StartsWith(payload, Fence)
    ensures Strip(Unfence(JsonFence + (payload + w2 + Fence))) == payload
  {
    if w2 == [] && Backticks(payload) {
      assert payload + w2 == payload;
      UnfenceBackticks(payload);
      StripTrimmed(payload);
    } else {
      NotFenceLed(payload, w2);
      UnfenceAfterJsonFenceOnly(payload + w2);
      assert [] + payload + w2 == payload + w2;
      StripPadded([], payload, w2);
    }
  }

  /** A reply fenced as "```json" ... "```" around a trimmed payload cleans
      back to the payload, whether whitespace (typically a newline) follows
      the opening fence or the payload itself does not open with "```". */
  lemma JsonFenceRoundTrip(w1: string, payload: string, w2: string)
    requires AllSpace(w1) && AllSpace(w2) && Trimmed(payload)
    requires w1 != [] || !StartsWith(payload, Fence)
    ensures CleanFences(JsonFence + (w1 + payload + w2 + Fence)) == payload
  {
    var c := w1 + payload + w2;
    StripFenced(c);
    if w1 != [] {
      assert c[0] == w1[0];
      UnfenceAfterJsonFence(c);
      CleanFencesSteps(JsonFence + (c + Fence), c);
      StripPadded(w1, payload, w2);
    } else {
      assert c == payload + w2;
      UnfenceAfterJsonFenceTight(payload, w2);
    }
  }

  /** Whenever the text opens with "```json", those seven characters are
      always dropped, and three more when a "```" follows; at most one
      closing "```" goes from the end of what is left. */
  lemma JsonFenceDropped(s: string)
    requires StartsWith(s, JsonFence)
    ensures var i := if StartsWith(s[7..], Fence) then 10 else 7;
            var j := if EndsWith(s[i..], Fence) then |s| - 3 else |s|;
            i <= j <= |s| && Unfence(s) == s[i..j]
  {
    var i := if StartsWith(s[7..], Fence) then 10 else 7;
    if StartsWith(s[7..], Fence) {
      assert s[7..][3..] == s[10..];
    }
    if EndsWith(s[i..], Fence) {
      assert s[i..][..|s[i..]| - 3] == s[i..|s| - 3];
    }
  }

  /** The plain counterpart: text that opens with "```" but not with
      "```json" always loses those three characters, and at most one
      closing "```" goes from the end of what is left. */
  lemma PlainFenceDropped(s: string)
    requires StartsWith(s, Fence) && !StartsWith(s, JsonFence)
    ensures var j := if EndsWith(s[3..], Fence) then |s| - 3 else |s|;
            3 <= j <= |s| && Unfence(s) == s[3..j]
  {
    if EndsWith(s[3..], Fence) {
      assert s[3..][..|s[3..]| - 3] == s[3..|s| - 3];
    }
  }

  lemma UnfenceAfterFence(c: string)
    requires c != [] && IsSpace(c[0])
    ensures Unfence(Fence + (c + Fence)) == c
  {
    var s := Fence + (c + Fence);
    assert !StartsWith(s, JsonFence) by {
      if |JsonFence| <= |s| {
        assert s[3] == c[0] && JsonFence[3] == 'j';
        assert s[..7][3] != JsonFence[3];
      }
    }
    Affixes(Fence, c + Fence);
    assert s[3..] == c + Fence;
    Affixes(c, Fence);
    assert (c + Fence)[..|c + Fence| - 3] == c;
  }

  /** The same round trip with a bare "```" fence: the opening fence goes,
      the closing one goes, and the whitespace around the payload is
      trimmed. */
  lemma PlainFenceRoundTrip(w1: string, payload: string, w2: string)
    requires AllSpace(w1) && w1 != [] && AllSpace(w2) && Trimmed(payload)
    ensures CleanFences(Fence + (w1 + payload + w2 + Fence)) == payload
  {
    var c := w1 + payload + w2;
    var s := Fence + (c + Fence);
    assert c[0] == w1[0];
    UnfenceAfterFence(c);
    assert s[0] == '`' && s[|s| - 1] == '`';
    StripTrimmed(s);
    CleanFencesSteps(s, c);
    StripPadded(w1, payload, w2);
  }

  /** A "```json" immediately followed by "```" loses both fences: the
      second check runs on what the first one left. */
  lemma JsonThenPlainFenceBothDropped(text: string)
    requires StartsWith(Strip(text), JsonFence + Fence)
    ensures var s := Strip(text);
            Unfence(s) == if EndsWith(s[10..], Fence) then s[10..|s| - 3] else s[10..]
  {
    BothFencesDropped(Strip(text));
  }

  lemma BothFencesDropped(s: string)
    requires StartsWith(s, JsonFence + Fence)
    ensures Unfence(s) == if EndsWith(s[10..], Fence) then s[10..|s| - 3] else s[10..]
  {
    assert s[..7] == (JsonFence + Fence)[..7] == JsonFence;
    assert s[7..][..3] == (JsonFence + Fence)[7..10] == Fence;
    assert s[7..][3..] == s[10..];
  }

  /** Only one trailing fence goes: a reply ending in two fences keeps the
      inner one. */
  lemma OneTrailingFenceRemoved(text: string)
    requires !StartsWith(Strip(text), Fence) && EndsWith(Strip(text), Fence + Fence)
    ensures EndsWith(CleanFences(text), Fence)
    ensures CleanFences(text) == Strip(text)[..|Strip(text)| - 3]
  {
    TrailingFencePair(Strip(text));
  }

  lemma TrailingFencePair(s: string)
    requires Trimmed(s) && !StartsWith(s, Fence) && EndsWith(s, Fence + Fence)
    ensures Strip(Unfence(s)) == s[..|s| - 3]
    ensures EndsWith(s[..|s| - 3], Fence)
  {
    assert s[|s| - 3..] == (Fence + Fence)[3..] == Fence;
    OnlyTrailingFence(s);
    InnerFence(s);
    StripTrimmed(s[..|s| - 3]);
  }

  lemma OnlyTrailingFence(s: string)
    requires !StartsWith(s, Fence) && EndsWith(s, Fence)
    ensures Unfence(s) == s[..|s| - 3]
  {
    JsonFenceIsFence(s);
  }

  lemma InnerFence(s: string)
    requires Trimmed(s) && EndsWith(s, Fence + Fence)
    ensures EndsWith(s[..|s| - 3], Fence) && Trimmed(s[..|s| - 3])
  {
    var c := s[..|s| - 3];
    assert c[|c| - 3..] == s[|s| - 6..|s| - 3] == (Fence + Fence)[..3];
    assert c[0] == s[0];
  }
}
