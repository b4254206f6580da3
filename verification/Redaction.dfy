/** Secret redaction of log lines (src/redact-secrets.ts): every secret of the
    environment, and its JSON-escaped form, replaced one after the other. */
module Redaction {
  import opened Wrappers

  const REDACTED := "[redacted]"

  predicate OccursAt(text: string, s: string, i: int) { 0 <= i <= |text| - |s| && text[i..i + |s|] == s }

  ghost predicate Contains(text: string, s: string) { exists i :: OccursAt(text, s, i) }

  /** text.replaceAll(s, REDACTED): leftmost matches, not overlapping. */
  function ReplaceAll(text: string, s: string): string
    requires s != ""
  {
    if |text| < |s| then text
    else if s <= text then REDACTED + ReplaceAll(text[|s|..], s)
    else [text[0]] + ReplaceAll(text[1..], s)
  }

  /** The last `k` characters of a text, and the first. */
  predicate EndBegins(p: string, q: string, k: int) { 0 < k <= |p| && k <= |q| && p[|p| - k..] == q[..k] }

  /** `p` lies in the marker, has it inside, or shares an end with it. */
  ghost predicate Touches(p: string) {
    || Contains(REDACTED, p) || Contains(p, REDACTED)
    || (exists k :: EndBegins(p, REDACTED, k)) || (exists k :: EndBegins(REDACTED, p, k))
  }

  /** A secret that shares no text with the marker. */
  ghost predicate Clear(p: string) { p != "" && !Touches(p) }

  /* ---- one replacement ---- */

  lemma OccursLater(text: string, prefix: string, s: string, i: int)
    ensures OccursAt(text, s, i) ==> OccursAt(prefix + text, s, |prefix| + i)
    ensures i >= |prefix| && OccursAt(prefix + text, s, i) ==> OccursAt(text, s, i - |prefix|)
  {
    if OccursAt(text, s, i) {
      assert (prefix + text)[|prefix| + i..|prefix| + i + |s|] == text[i..i + |s|];
    }
    if i >= |prefix| && OccursAt(prefix + text, s, i) {
      assert (prefix + text)[i..i + |s|] == text[i - |prefix|..i - |prefix| + |s|];
    }
  }

  /** Nothing of a text begins the marker: not its end, and not the whole marker. */
  ghost predicate BeginsNoMarker(q: string) { !Contains(q, REDACTED) && forall k :: !EndBegins(q, REDACTED, k) }

  lemma TailContains(text: string, s: string)
    requires text != "" && Contains(text[1..], s)
    ensures Contains(text, s)
  {
    CarriedOver(text[..1], text[1..], s);
    assert text[..1] + text[1..] == text;
  }

  lemma EndOfTail(q: string, k: int)
    requires q != "" && EndBegins(q[1..], REDACTED, k)
    ensures EndBegins(q, REDACTED, k)
  {
    assert q[1..][|q[1..]| - k..] == q[|q| - k..];
  }

  lemma TailBeginsNoMarker(q: string)
    requires BeginsNoMarker(q) && q != ""
    ensures BeginsNoMarker(q[1..])
  {
    if Contains(q[1..], REDACTED) {
      TailContains(q, REDACTED);
    }
    forall k ensures !EndBegins(q[1..], REDACTED, k) {
      if EndBegins(q[1..], REDACTED, k) {
        EndOfTail(q, k);
      }
    }
  }

  /** What a result starts with, and shares no start with the marker, the text
      started with. */
  lemma {:induction false} PrefixWasThere(text: string, s: string, q: string)
    requires s != "" && BeginsNoMarker(q) && q <= ReplaceAll(text, s)
    ensures q <= text
  {
    if q != "" && |text| >= |s| {
      if s <= text {
        StartsWithMarker(q, ReplaceAll(text[|s|..], s));
      } else {
        assert ReplaceAll(text, s)[1..] == ReplaceAll(text[1..], s);
        assert q[1..] <= ReplaceAll(text[1..], s);
        TailBeginsNoMarker(q);
        PrefixWasThere(text[1..], s, q[1..]);
        assert q == [q[0]] + q[1..] && text == [text[0]] + text[1..];
      }
    }
  }

  lemma StartsWithMarker(q: string, rest: string)
    requires q != "" && q <= REDACTED + rest
    ensures !BeginsNoMarker(q)
  {
    var out := REDACTED + rest;
    if |q| <= |REDACTED| {
      assert q[|q| - |q|..] == q == out[..|q|] == REDACTED[..|q|];
      assert EndBegins(q, REDACTED, |q|);
    } else {
      assert q[0..0 + |REDACTED|] == out[..|REDACTED|] == REDACTED;
      assert OccursAt(q, REDACTED, 0);
    }
  }

  /** What begins in an inserted marker touches it. */
  lemma InMarkerTouches(rest: string, p: string, i: int)
    requires p != "" && i < |REDACTED| && OccursAt(REDACTED + rest, p, i)
    ensures Touches(p)
  {
    var out := REDACTED + rest;
    if i + |p| <= |REDACTED| {
      assert REDACTED[i..i + |p|] == out[i..i + |p|] == p;
      assert OccursAt(REDACTED, p, i);
    } else {
      var k := |REDACTED| - i;
      assert REDACTED[|REDACTED| - k..] == out[i..|REDACTED|];
      assert p[..k] == out[i..i + |p|][..k] == out[i..|REDACTED|];
      assert EndBegins(REDACTED, p, k);
    }
  }

  lemma NotInMarker(rest: string, p: string, i: int)
    requires Clear(p) && OccursAt(REDACTED + rest, p, i)
    ensures i >= |REDACTED|
  {
    if i < |REDACTED| {
      InMarkerTouches(rest, p, i);
    }
  }

  /** A replacement brings no clear secret back. */
  lemma {:induction false} NeverRecreated(text: string, s: string, p: string, i: int)
    requires s != "" && Clear(p) && OccursAt(ReplaceAll(text, s), p, i)
    ensures Contains(text, p)
  {
    if |text| >= |s| {
      var (skip, rest) := if s <= text then (s, text[|s|..]) else ([text[0]], text[1..]);
      assert text == skip + rest;
      if s <= text {
        NotInMarker(ReplaceAll(rest, s), p, i);
        OccursLater(ReplaceAll(rest, s), REDACTED, p, i);
        NeverRecreated(rest, s, p, i - |REDACTED|);
        CarriedOver(skip, rest, p);
      } else if i == 0 {
        PrefixWasThere(text, s, p);
        assert OccursAt(text, p, 0);
      } else {
        OccursLater(ReplaceAll(rest, s), skip, p, i);
        NeverRecreated(rest, s, p, i - 1);
        CarriedOver(skip, rest, p);
      }
    } else {
      assert OccursAt(text, p, i);
    }
  }

  lemma CarriedOver(skip: string, rest: string, p: string)
    requires Contains(rest, p)
    ensures Contains(skip + rest, p)
  {
    var j :| OccursAt(rest, p, j);
    OccursLater(rest, skip, p, j);
  }

  /** The secret replaced is gone. */
  lemma {:induction false} Gone(text: string, s: string, i: int)
    requires Clear(s)
    ensures !OccursAt(ReplaceAll(text, s), s, i)
  {
    if |text| >= |s| && OccursAt(ReplaceAll(text, s), s, i) {
      if s <= text {
        var rest := ReplaceAll(text[|s|..], s);
        NotInMarker(rest, s, i);
        OccursLater(rest, REDACTED, s, i);
        Gone(text[|s|..], s, i - |REDACTED|);
      } else if i == 0 {
        PrefixWasThere(text, s, s);
      } else {
        OccursLater(ReplaceAll(text[1..], s), [text[0]], s, i);
        Gone(text[1..], s, i - 1);
      }
    }
  }

  /* ---- all secrets ---- */

  predicate NoneEmpty(secrets: seq<string>) { forall i :: 0 <= i < |secrets| ==> secrets[i] != "" }

  function RedactAll(text: string, secrets: seq<string>): string
    requires NoneEmpty(secrets)
  {
    if secrets == [] then text
    else ReplaceAll(RedactAll(text, secrets[..|secrets| - 1]), secrets[|secrets| - 1])
  }

  /** Whatever the text, the secrets and their order, no clear secret is left. */
  lemma {:induction false} NoSecretLeft(text: string, secrets: seq<string>, p: string)
    requires NoneEmpty(secrets) && p in secrets && Clear(p)
    ensures !Contains(RedactAll(text, secrets), p)
  {
    var init, last := secrets[..|secrets| - 1], secrets[|secrets| - 1];
    var before := RedactAll(text, init);
    forall i ensures !OccursAt(RedactAll(text, secrets), p, i) {
      if p == last {
        Gone(before, p, i);
      } else {
        assert p in init;
        NoSecretLeft(text, init, p);
        if OccursAt(RedactAll(text, secrets), p, i) {
          NeverRecreated(before, last, p, i);
        }
      }
    }
  }

  /** Text before and after, shorter than the secret and of its own characters,
      with which the marker makes up the secret. */
  ghost predicate Around(p: string, before: string, after: string) {
    && |before| < |p| && |after| < |p| && Contains(before + REDACTED + after, p)
    && forall c :: c in before || c in after ==> c in p
  }

  lemma AroundInside(p: string, i: int)
    requires OccursAt(p, REDACTED, i)
    ensures Around(p, p[..i], p[i + |REDACTED|..])
  {
    assert p[..i] + REDACTED + p[i + |REDACTED|..] == p && OccursAt(p, p, 0);
  }

  lemma AroundStart(p: string, k: int)
    requires EndBegins(p, REDACTED, k)
    ensures Around(p, p[..|p| - k], "")
  {
    var out := p[..|p| - k] + REDACTED + "";
    assert p == p[..|p| - k] + p[|p| - k..];
    assert out[0..|p|] == p[..|p| - k] + REDACTED[..k];
    assert OccursAt(out, p, 0);
  }

  lemma AroundEnd(p: string, k: int)
    requires EndBegins(REDACTED, p, k)
    ensures Around(p, "", p[k..])
  {
    var out, at := "" + REDACTED + p[k..], |REDACTED| - k;
    assert out[at..at + |p|] == REDACTED[at..] + p[k..] == p;
    assert OccursAt(out, p, at);
  }

  /** A secret that touches the marker can be put around it. */
  lemma AroundMarker(p: string) returns (before: string, after: string)
    requires p != "" && Touches(p)
    ensures Around(p, before, after)
  {
    before, after := "", "";
    if Contains(REDACTED, p) {
      assert "" + REDACTED + "" == REDACTED;
    } else if i :| OccursAt(p, REDACTED, i) {
      before, after := p[..i], p[i + |REDACTED|..];
      AroundInside(p, i);
    } else if k :| EndBegins(p, REDACTED, k) {
      before := p[..|p| - k];
      AroundStart(p, k);
    } else {
      var k :| EndBegins(REDACTED, p, k);
      after := p[k..];
      AroundEnd(p, k);
    }
  }

  /** A text without the secret in it is left alone. */
  lemma {:induction false} NothingToReplace(text: string, s: string)
    requires s != "" && !Contains(text, s)
    ensures ReplaceAll(text, s) == text
  {
    if |text| >= |s| {
      assert !OccursAt(text, s, 0);
      if Contains(text[1..], s) {
        TailContains(text, s);
      } else {
        NothingToReplace(text[1..], s);
        assert text == [text[0]] + text[1..];
      }
    }
  }

  lemma OccursMeansIn(text: string, c: char, i: int)
    requires OccursAt(text, [c], i)
    ensures c in text
  {
    assert text[i..i + 1][0] == text[i];
  }

  lemma FirstReplaced(c: char, after: string)
    requires c !in after
    ensures ReplaceAll([c] + after, [c]) == REDACTED + after
  {
    assert ([c] + after)[1..] == after;
    if i :| OccursAt(after, [c], i) {
      OccursMeansIn(after, c, i);
    } else {
      NothingToReplace(after, [c]);
    }
  }

  lemma {:induction false} OneReplaced(before: string, c: char, after: string)
    requires c !in before && c !in after
    ensures ReplaceAll(before + [c] + after, [c]) == before + REDACTED + after
  {
    if before == "" {
      FirstReplaced(c, after);
      assert before + [c] + after == [c] + after && before + REDACTED + after == REDACTED + after;
    } else {
      OneReplaced(before[1..], c, after);
      FirstKept(before[0], before[1..] + [c] + after, c);
      assert before[0] in before;
      assert before + [c] + after == [before[0]] + (before[1..] + [c] + after);
      assert before + REDACTED + after == [before[0]] + (before[1..] + REDACTED + after);
    }
  }

  lemma StartsWith(c: char, text: string)
    requires [c] <= text
    ensures text[0] == c
  {
    assert text[0] == [c][0];
  }

  lemma FirstKept(d: char, rest: string, c: char)
    requires c != d
    ensures ReplaceAll([d] + rest, [c]) == [d] + ReplaceAll(rest, [c])
  {
    var text := [d] + rest;
    assert text[0] == d && text[1..] == rest;
    if [c] <= text {
      StartsWith(c, text);
    }
  }

  lemma AcrossMeansIn(before: string, c: char, after: string, p: string, i: int)
    requires |before| < |p| && |after| < |p| && OccursAt(before + [c] + after, p, i)
    ensures c in p
  {
    var text := before + [c] + after;
    assert i <= |before| < i + |p|;
    assert text[i..i + |p|][|before| - i] == c;
  }

  /** A character that is not the secret's keeps it from occurring across. */
  lemma NotAcross(before: string, c: char, after: string, p: string)
    requires |before| < |p| && |after| < |p| && c !in p
    ensures !Contains(before + [c] + after, p)
  {
    if i :| OccursAt(before + [c] + after, p, i) {
      AcrossMeansIn(before, c, after, p, i);
    }
  }

  /* ---- which values are secret ---- */

  const EXACT_SECRET_KEY := "NETWORK_AUTH"
  const SECRET_KEY_SUFFIXES := ["_PRIVATE_KEY", "_PRIVATE_KEY_BASE64", "_AUTH_TOKEN", "_API_KEY", "_CONNECTION_STRING", "_SECRET", "_PASSWORD"]

  predicate EndsWith(s: string, suffix: string) { |suffix| <= |s| && s[|s| - |suffix|..] == suffix }

  predicate IsSecretKey(key: string) { key == EXACT_SECRET_KEY || exists i :: 0 <= i < |SECRET_KEY_SUFFIXES| && EndsWith(key, SECRET_KEY_SUFFIXES[i]) }

  function HexDigit(n: nat): char requires n < 16 { "0123456789abcdef"[n] }

  function EscapeChar(c: char): string {
    if c == '"' then "\\\""
    else if c == '\\' then "\\\\"
    else if c == 8 as char then "\\b"
    else if c == 9 as char then "\\t"
    else if c == 10 as char then "\\n"
    else if c == 12 as char then "\\f"
    else if c == 13 as char then "\\r"
    else if c < ' ' then "\\u00" + [HexDigit(c as nat / 16), HexDigit(c as nat % 16)]
    else [c]
  }

  /** JSON.stringify without the quotes around it. */
  function JsonEscape(s: string): string {
    if s == "" then "" else EscapeChar(s[0]) + JsonEscape(s[1..])
  }

  /** A character stands for itself, or for a backslash and more, none of it a bracket. */
  lemma CharEscapes(c: char)
    ensures EscapeChar(c) == [c] || (|EscapeChar(c)| > 1 && EscapeChar(c)[0] == '\\' && '[' !in EscapeChar(c))
    ensures c == '[' ==> EscapeChar(c) == [c]
  {
  }

  lemma {:induction false} EscapesToSomething(s: string)
    ensures s != "" ==> JsonEscape(s) != ""
  {
    if s != "" {
      CharEscapes(s[0]);
    }
  }

  /** A start of the escaped form without a backslash is a start of the text. */
  lemma {:induction false} PlainStart(s: string, w: string)
    requires '\\' !in w && w <= JsonEscape(s)
    ensures w <= s && (|w| == |JsonEscape(s)| ==> |w| == |s|)
  {
    if s != "" {
      CharEscapes(s[0]);
      EscapesToSomething(s);
      if w != "" {
        assert w[0] == JsonEscape(s)[0] == EscapeChar(s[0])[0] && w[0] in w;
        assert JsonEscape(s)[1..] == JsonEscape(s[1..]);
        PlainStart(s[1..], w[1..]);
        assert w == [w[0]] + w[1..] && s == [s[0]] + s[1..];
      }
    }
  }

  lemma BracketIsPlain(c: char, i: int)
    requires 0 <= i < |EscapeChar(c)| && EscapeChar(c)[i] == '['
    ensures i == 0 && EscapeChar(c) == [c]
  {
    CharEscapes(c);
    assert EscapeChar(c)[i] in EscapeChar(c);
  }

  lemma PlainFromStart(s: string, w: string, i: int)
    requires s != "" && w != "" && w[0] == '[' && '\\' !in w && OccursAt(JsonEscape(s), w, i) && i < |EscapeChar(s[0])|
    ensures i == 0 && w <= s && (|w| == |JsonEscape(s)| ==> |w| == |s|)
  {
    var e, head := JsonEscape(s), EscapeChar(s[0]);
    assert e[i] == head[i] && e[i..i + |w|][0] == w[0];
    BracketIsPlain(s[0], i);
    assert e[0..|w|] == e[..|w|];
    PlainStart(s, w);
  }

  /** Text from a bracket on, without a backslash, that occurs in the escaped form
      occurs in the text; and at its end if it does at the end. */
  lemma {:induction false} PlainInside(s: string, w: string, i: int) returns (j: int)
    requires w != "" && w[0] == '[' && '\\' !in w && OccursAt(JsonEscape(s), w, i)
    ensures OccursAt(s, w, j) && (i + |w| == |JsonEscape(s)| ==> j + |w| == |s|)
  {
    if i < |EscapeChar(s[0])| {
      PlainFromStart(s, w, i);
      j := 0;
    } else {
      OccursLater(JsonEscape(s[1..]), EscapeChar(s[0]), w, i);
      j := PlainInside(s[1..], w, i - |EscapeChar(s[0])|);
      OccursLater(s[1..], s[..1], w, j);
      assert s[..1] + s[1..] == s;
      j := j + 1;
    }
  }

  lemma MarkerIsPlain(k: int)
    requires 0 <= k <= |REDACTED|
    ensures '\\' !in REDACTED[..k] && '\\' !in REDACTED[k..] && (k > 0 ==> REDACTED[..k][0] == '[')
  {
    assert '\\' !in REDACTED;
  }

  lemma EscapedInMarker(s: string, i: int)
    requires OccursAt(REDACTED, JsonEscape(s), i)
    ensures OccursAt(REDACTED, s, i)
  {
    var e := JsonEscape(s);
    MarkerIsPlain(i);
    assert forall k :: 0 <= k < |e| ==> e[k] == REDACTED[i..][k];
    PlainStart(s, e);
  }

  lemma MarkerInEscaped(s: string, i: int)
    requires OccursAt(JsonEscape(s), REDACTED, i)
    ensures Contains(s, REDACTED)
  {
    MarkerIsPlain(|REDACTED|);
    assert REDACTED[..|REDACTED|] == REDACTED;
    var j := PlainInside(s, REDACTED, i);
  }

  lemma AtEnd(s: string, w: string, i: int)
    requires |w| <= |s| && i == |s| - |w|
    ensures OccursAt(s, w, i) <==> s[|s| - |w|..] == w
  {
    assert s[i..i + |w|] == s[i..];
  }

  lemma EndOfEscaped(s: string, k: int)
    requires EndBegins(JsonEscape(s), REDACTED, k)
    ensures EndBegins(s, REDACTED, k)
  {
    var e, w := JsonEscape(s), REDACTED[..k];
    MarkerIsPlain(k);
    AtEnd(e, w, |e| - k);
    var j := PlainInside(s, w, |e| - k);
    AtEnd(s, w, j);
  }

  lemma StartOfEscaped(s: string, k: int)
    requires EndBegins(REDACTED, JsonEscape(s), k)
    ensures EndBegins(REDACTED, s, k)
  {
    MarkerIsPlain(|REDACTED| - k);
    PlainStart(s, JsonEscape(s)[..k]);
  }

  /** The escaped form of a clear secret is clear. */
  lemma EscapedIsClear(s: string)
    requires Clear(s)
    ensures Clear(JsonEscape(s))
  {
    EscapesToSomething(s);
    if i :| OccursAt(REDACTED, JsonEscape(s), i) {
      EscapedInMarker(s, i);
    } else if i :| OccursAt(JsonEscape(s), REDACTED, i) {
      MarkerInEscaped(s, i);
    } else if k :| EndBegins(JsonEscape(s), REDACTED, k) {
      EndOfEscaped(s, k);
    } else if k :| EndBegins(REDACTED, JsonEscape(s), k) {
      StartOfEscaped(s, k);
    }
  }

  /** An environment variable, if it is set. */
  datatype Variable = Variable(key: string, value: Option<string>)

  predicate IsSecret(v: Variable) { v.value.Some? && v.value.value != "" && IsSecretKey(v.key) }

  /** A variable is secret if it is set to something, and its key is the one listed
      or ends in one of the seven suffixes. */
  lemma SecretIff(v: Variable)
    ensures IsSecret(v) <==>
            && v.value.Some? && v.value.value != ""
            && (v.key == "NETWORK_AUTH" || EndsWith(v.key, "_PRIVATE_KEY") || EndsWith(v.key, "_PRIVATE_KEY_BASE64")
                || EndsWith(v.key, "_AUTH_TOKEN") || EndsWith(v.key, "_API_KEY") || EndsWith(v.key, "_CONNECTION_STRING")
                || EndsWith(v.key, "_SECRET") || EndsWith(v.key, "_PASSWORD"))
  {
    assert SECRET_KEY_SUFFIXES[0] == "_PRIVATE_KEY" && SECRET_KEY_SUFFIXES[1] == "_PRIVATE_KEY_BASE64";
    assert SECRET_KEY_SUFFIXES[2] == "_AUTH_TOKEN" && SECRET_KEY_SUFFIXES[3] == "_API_KEY";
    assert SECRET_KEY_SUFFIXES[4] == "_CONNECTION_STRING" && SECRET_KEY_SUFFIXES[5] == "_SECRET" && SECRET_KEY_SUFFIXES[6] == "_PASSWORD";
  }

  /** A secret's value or its escaped form. */
  predicate FormOf(v: Variable, s: string) { IsSecret(v) && (s == v.value.value || s == JsonEscape(v.value.value)) }

  /** What collectSecrets must list. */
  ghost predicate Listed(env: seq<Variable>, s: string) { exists i :: 0 <= i < |env| && FormOf(env[i], s) }

  lemma ListedNext(env: seq<Variable>, i: nat, s: string)
    requires i < |env|
    ensures Listed(env[..i + 1], s) <==> Listed(env[..i], s) || FormOf(env[i], s)
  {
    if Listed(env[..i], s) {
      var k :| 0 <= k < i && FormOf(env[..i][k], s);
      assert env[..i + 1][k] == env[..i][k];
    }
    if FormOf(env[i], s) {
      assert env[..i + 1][i] == env[i];
    }
    if Listed(env[..i + 1], s) {
      var k :| 0 <= k < i + 1 && FormOf(env[..i + 1][k], s);
      assert k < i ==> env[..i][k] == env[..i + 1][k];
    }
  }

  predicate NoRepeats(s: seq<string>) { forall i, j :: 0 <= i < j < |s| ==> s[i] != s[j] }

  /** The strings of one length, in order. */
  function OfLength(s: seq<string>, n: nat): seq<string> {
    if s == [] then [] else OfLength(s[..|s| - 1], n) + if |s[|s| - 1]| == n then [s[|s| - 1]] else []
  }

  lemma OfLengthNext(s: seq<string>, x: string, n: nat)
    ensures OfLength(s + [x], n) == OfLength(s, n) + if |x| == n then [x] else []
  {
    assert (s + [x])[..|s + [x]| - 1] == s;
  }

  predicate LongestFirst(s: seq<string>) { forall i, j :: 0 <= i < j < |s| ==> |s[i]| >= |s[j]| }

  /** The place of a string in a list sorted longest first, after its equals. */
  function Insert(s: string, sorted: seq<string>): (r: seq<string>)
    requires LongestFirst(sorted)
    ensures LongestFirst(r) && forall x :: x in r <==> x == s || x in sorted
  {
    if sorted == [] || |sorted[|sorted| - 1]| >= |s| then sorted + [s]
    else
      var init, last := sorted[..|sorted| - 1], sorted[|sorted| - 1];
      assert sorted == init + [last];
      var rest := Insert(s, init);
      assert forall i :: 0 <= i < |init| ==> |sorted[i]| >= |last|;
      assert forall x :: x in rest ==> |x| >= |last|;
      rest + [last]
  }

  lemma {:induction false} InsertIsStable(s: string, sorted: seq<string>, n: nat)
    requires LongestFirst(sorted)
    ensures OfLength(Insert(s, sorted), n) == OfLength(sorted, n) + if |s| == n then [s] else []
  {
    if sorted == [] || |sorted[|sorted| - 1]| >= |s| {
      OfLengthNext(sorted, s, n);
    } else {
      var init, last := sorted[..|sorted| - 1], sorted[|sorted| - 1];
      InsertIsStable(s, init, n);
      OfLengthNext(Insert(s, init), last, n);
    }
  }

  lemma {:induction false} InsertRepeatsNothing(s: string, sorted: seq<string>)
    requires LongestFirst(sorted) && NoRepeats(sorted) && s !in sorted
    ensures NoRepeats(Insert(s, sorted))
  {
    if sorted != [] && |sorted[|sorted| - 1]| < |s| {
      var init, last := sorted[..|sorted| - 1], sorted[|sorted| - 1];
      assert sorted == init + [last];
      InsertRepeatsNothing(s, init);
      assert last !in init;
      NoRepeatsNext(Insert(s, init), last);
    } else {
      NoRepeatsNext(sorted, s);
    }
  }

  lemma NoRepeatsNext(s: seq<string>, x: string)
    requires NoRepeats(s) && x !in s
    ensures NoRepeats(s + [x])
  {
  }

  class Redactor {
    var cachedSecrets: Option<seq<string>>

    constructor ()
      ensures cachedSecrets.None?
    {
      cachedSecrets := None;
    }

    method CollectSecrets(env: seq<Variable>) returns (secrets: seq<string>)
      ensures LongestFirst(secrets) && NoRepeats(secrets) && forall s :: s in secrets <==> Listed(env, s)
    {
      var values: seq<string> := [];   // a Set: each value once, in insertion order
      for i := 0 to |env|
        invariant NoRepeats(values) && forall s :: s in values <==> Listed(env[..i], s)
      {
        forall s ensures Listed(env[..i + 1], s) <==> Listed(env[..i], s) || FormOf(env[i], s) {
          ListedNext(env, i, s);
        }
        if !IsSecret(env[i]) { continue; }
        values := AddForms(values, env[i]);
      }
      assert env[..|env|] == env;
      secrets := Sorted(values);
    }

    method AddForms(known: seq<string>, v: Variable) returns (values: seq<string>)
      requires IsSecret(v) && NoRepeats(known)
      ensures NoRepeats(values) && known <= values
      ensures forall s :: s in values <==> s in known || FormOf(v, s)
    {
      values := known;
      var value := v.value.value;
      if value !in values { values := values + [value]; }
      var escaped := JsonEscape(value);
      if escaped != value && escaped !in values { values := values + [escaped]; }
    }

    /** A stable sort: strings of one length keep their order. */
    method Sorted(values: seq<string>) returns (secrets: seq<string>)
      requires NoRepeats(values)
      ensures LongestFirst(secrets) && NoRepeats(secrets) && forall s :: s in secrets <==> s in values
      ensures forall n :: OfLength(secrets, n) == OfLength(values, n)
    {
      secrets := [];
      for i := 0 to |values|
        invariant LongestFirst(secrets) && NoRepeats(secrets) && forall s :: s in secrets <==> s in values[..i]
        invariant forall n :: OfLength(secrets, n) == OfLength(values[..i], n)
      {
        assert values[..i + 1] == values[..i] + [values[i]];
        forall n ensures OfLength(Insert(values[i], secrets), n) == OfLength(values[..i + 1], n) {
          InsertIsStable(values[i], secrets, n);
          OfLengthNext(values[..i], values[i], n);
        }
        InsertRepeatsNothing(values[i], secrets);
        secrets := Insert(values[i], secrets);
      }
      assert values[..|values|] == values;
    }

    method GetSecrets(env: seq<Variable>) returns (secrets: seq<string>)
      modifies this
      ensures cachedSecrets == Some(secrets)
      ensures old(cachedSecrets).Some? ==> secrets == old(cachedSecrets).value
      ensures old(cachedSecrets).None? ==> LongestFirst(secrets) && forall s :: s in secrets <==> Listed(env, s)
    {
      if cachedSecrets.None? {
        var collected := CollectSecrets(env);
        cachedSecrets := Some(collected);
      }
      return cachedSecrets.value;
    }

    /** redactSecrets on the serialised line, if there is one: with the secrets
        of the environment collected, no clear secret and no escaped form of one
        is in what is written. */
    method Redact(env: seq<Variable>, line: Option<string>) returns (out: Option<string>)
      requires cachedSecrets.Some? ==> forall s :: s in cachedSecrets.value <==> Listed(env, s)
      modifies this
      ensures cachedSecrets.Some? && forall s :: s in cachedSecrets.value <==> Listed(env, s)
      ensures out.Some? <==> line.Some?
      ensures line.Some? ==> NoneEmpty(cachedSecrets.value) && out.value == RedactAll(line.value, cachedSecrets.value)
      ensures line.Some? ==> forall v :: v in env && IsSecret(v) && Clear(v.value.value) ==>
                !Contains(out.value, v.value.value) && !Contains(out.value, JsonEscape(v.value.value))
    {
      var secrets := GetSecrets(env);
      if line.None? { return None; }
      ListedAreNotEmpty(env, secrets);
      var text := line.value;
      for i := 0 to |secrets|
        invariant text == RedactAll(line.value, secrets[..i])
      {
        assert secrets[..i + 1][..i] == secrets[..i];
        text := ReplaceAll(text, secrets[i]);
      }
      assert secrets[..|secrets|] == secrets;
      forall v | v in env && IsSecret(v) && Clear(v.value.value)
        ensures !Contains(text, v.value.value) && !Contains(text, JsonEscape(v.value.value))
      {
        assert FormOf(v, v.value.value) && FormOf(v, JsonEscape(v.value.value));
        EscapedIsClear(v.value.value);
        NoSecretLeft(line.value, secrets, v.value.value);
        NoSecretLeft(line.value, secrets, JsonEscape(v.value.value));
      }
      return Some(text);
    }
  }

  lemma ListedAreNotEmpty(env: seq<Variable>, secrets: seq<string>)
    requires forall s :: s in secrets <==> Listed(env, s)
    ensures NoneEmpty(secrets)
  {
    forall k | 0 <= k < |secrets| ensures secrets[k] != "" {
      var s := secrets[k];
      assert s in secrets;
      var i :| 0 <= i < |env| && FormOf(env[i], s);
      EscapesToSomething(env[i].value.value);
    }
  }

  /* ---- exactly which secrets can be left over ---- */

  /** The list collected for an environment, and redaction of a line with it. */
  ghost predicate ListOf(env: seq<Variable>, secrets: seq<string>) {
    NoneEmpty(secrets) && LongestFirst(secrets) && forall s :: s in secrets <==> Listed(env, s)
  }

  ghost predicate SecretOf(env: seq<Variable>, p: string) { exists i :: 0 <= i < |env| && IsSecret(env[i]) && env[i].value.value == p }

  /** In some environment of which `p` is a secret, some line still shows `p` after redaction. */
  ghost predicate CanStay(p: string) {
    exists env: seq<Variable>, secrets: seq<string>, line: string ::
      ListOf(env, secrets) && SecretOf(env, p) && Contains(RedactAll(line, secrets), p)
  }

  /** Not the secret's, not its escaped form's, and not escaped itself. */
  predicate Fresh(c: char, p: string) { c !in p && c !in JsonEscape(p) && EscapeChar(c) == [c] }

  function TwoSecrets(p: string, c: char): seq<Variable> {
    [Variable(EXACT_SECRET_KEY, Some(p)), Variable("_SECRET", Some([c]))]
  }

  function ThreeForms(p: string, c: char): seq<string> { [JsonEscape(p), p, [c]] }

  lemma {:induction false} EscapedIsLonger(s: string)
    ensures |JsonEscape(s)| >= |s|
  {
    if s != "" {
      CharEscapes(s[0]);
      EscapedIsLonger(s[1..]);
    }
  }

  lemma BothAreSecret(p: string, c: char)
    requires p != ""
    ensures IsSecret(TwoSecrets(p, c)[0]) && IsSecret(TwoSecrets(p, c)[1])
  {
    assert SECRET_KEY_SUFFIXES[5] == "_SECRET" && EndsWith("_SECRET", SECRET_KEY_SUFFIXES[5]);
  }

  lemma FormsAreListed(p: string, c: char)
    requires p != "" && Fresh(c, p)
    ensures ListOf(TwoSecrets(p, c), ThreeForms(p, c)) && SecretOf(TwoSecrets(p, c), p)
  {
    FormsAreSorted(p, c);
    FirstIsSecret(TwoSecrets(p, c), p, c);
    var env, forms := TwoSecrets(p, c), ThreeForms(p, c);
    forall s ensures s in forms <==> Listed(env, s) {
      FormIsListed(p, c, s);
    }
  }

  lemma FormsAreSorted(p: string, c: char)
    requires p != ""
    ensures NoneEmpty(ThreeForms(p, c)) && LongestFirst(ThreeForms(p, c))
  {
    EscapedIsLonger(p);
  }

  lemma FirstIsSecret(env: seq<Variable>, p: string, c: char)
    requires p != "" && env == TwoSecrets(p, c)
    ensures SecretOf(env, p)
  {
    BothAreSecret(p, c);
    assert IsSecret(env[0]) && env[0].value.value == p;
  }

  lemma FormIsListed(p: string, c: char, s: string)
    requires p != "" && Fresh(c, p)
    ensures s in ThreeForms(p, c) <==> Listed(TwoSecrets(p, c), s)
  {
    BothAreSecret(p, c);
    var env := TwoSecrets(p, c);
    assert JsonEscape([c]) == EscapeChar(c) + JsonEscape("") == [c];
    assert FormOf(env[0], s) <==> s == p || s == JsonEscape(p);
    assert FormOf(env[1], s) <==> s == [c];
    ListedInTwo(env, s);
  }

  lemma ListedInTwo(env: seq<Variable>, s: string)
    requires |env| == 2
    ensures Listed(env, s) <==> FormOf(env[0], s) || FormOf(env[1], s)
  {
  }

  lemma FreshLeavesBefore(p: string, c: char, before: string, after: string)
    requires p != "" && Fresh(c, p) && Around(p, before, after)
    ensures RedactAll(before + [c] + after, ThreeForms(p, c)) == before + REDACTED + after
  {
    var text, forms := before + [c] + after, ThreeForms(p, c);
    EscapedIsLonger(p);
    NotAcross(before, c, after, JsonEscape(p));
    NotAcross(before, c, after, p);
    NothingToReplace(text, JsonEscape(p));
    NothingToReplace(text, p);
    OneReplaced(before, c, after);
    assert forms[..2] == [JsonEscape(p), p] && forms[..2][..1] == [JsonEscape(p)] && [JsonEscape(p)][..0] == [];
    assert RedactAll(text, [JsonEscape(p)]) == text;
    assert RedactAll(text, forms[..2]) == text;
  }

  lemma TouchingStays(p: string, c: char)
    requires p != "" && Fresh(c, p) && Touches(p)
    ensures CanStay(p)
  {
    var before, after := AroundMarker(p);
    FormsAreListed(p, c);
    FreshLeavesBefore(p, c, before, after);
  }

  /** Redaction as the program does it, secrets with their escaped forms and
      longest first, can leave a secret over exactly if the secret touches the
      marker -- as long as there is a character of neither form of it. */
  lemma LeftOverIffTouches(p: string, c: char)
    requires p != "" && Fresh(c, p)
    ensures CanStay(p) <==> Touches(p)
  {
    if Touches(p) {
      TouchingStays(p, c);
    } else if CanStay(p) {
      var env: seq<Variable>, secrets: seq<string>, line: string :| ListOf(env, secrets) && SecretOf(env, p) && Contains(RedactAll(line, secrets), p);
      var i :| 0 <= i < |env| && IsSecret(env[i]) && env[i].value.value == p;
      assert FormOf(env[i], p);
      NoSecretLeft(line, secrets, p);
    }
  }
}
