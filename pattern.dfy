/** The regular expression `/\[USE_TOOL\](\w+)(.*)/` that the chat route
    (app/api/chat/route.ts) applies to a completed tool-call buffer, written
    out as a matcher with JavaScript's semantics: `String.prototype.match`
    without the global flag returns the leftmost match; `\w` is
    `[A-Za-z0-9_]`; `.` matches any character except the line terminators
    LF, CR, U+2028 and U+2029. Every character the pattern names is a
    single UTF-16 code unit, so matching on Dafny characters (Unicode
    scalar values) finds the same groups. Because `(.*)` can always match the empty
    string, the greedy `(\w+)` never gives characters back: the name is the
    maximal run of word characters after the sentinel, and the argument is
    everything after it up to the first line terminator. */
module ToolCallPattern {
  import opened Wrappers
  import opened Strings

  /** The in-band marker the model writes in front of a tool call. */
  const Sentinel: string := "[USE_TOOL]"

  /** The two capture groups of a successful match. */
  datatype ToolCall = ToolCall(name: string, input: string)

  predicate IsWordChar(c: char) {
    ('a' <= c <= 'z') || ('A' <= c <= 'Z') || ('0' <= c <= '9') || c == '_'
  }

  predicate IsLineTerminator(c: char) {
    c == '\n' || c == '\r' || c == '\U{2028}' || c == '\U{2029}'
  }

  /** The pattern matches starting at `i`: the sentinel followed by at least
      one word character. */
  predicate MatchesAt(s: string, i: int) {
    OccursAt(s, Sentinel, i) && i + |Sentinel| < |s| && IsWordChar(s[i + |Sentinel|])
  }

  /** `i` is the leftmost position where the pattern matches. */
  ghost predicate Leftmost(s: string, i: int) {
    MatchesAt(s, i) && forall j :: 0 <= j < i ==> !MatchesAt(s, j)
  }

  /** `c` holds the capture groups of the match at `i`: after the sentinel,
      a maximal non-empty run of word characters, then a maximal run of
      characters other than line terminators. */
  ghost predicate Groups(s: string, i: int, c: ToolCall) {
    var n := i + |Sentinel|;
    var e := n + |c.name|;
    var f := e + |c.input|;
    && OccursAt(s, Sentinel, i)
    && f <= |s|
    && |c.name| > 0
    && s[n..e] == c.name
    && s[e..f] == c.input
    && (forall k :: n <= k < e ==> IsWordChar(s[k]))
    && (forall k :: e <= k < f ==> !IsLineTerminator(s[k]))
    && (e < |s| ==> !IsWordChar(s[e]))
    && (f < |s| ==> IsLineTerminator(s[f]))
  }

  /** The leftmost match position at or after `from`. */
  function FindFrom(s: string, from: nat): (r: Option<nat>)
    ensures r.Some? ==> from <= r.value && MatchesAt(s, r.value)
    ensures r.Some? ==> forall j :: from <= j < r.value ==> !MatchesAt(s, j)
    ensures r.None? ==> forall j :: from <= j ==> !MatchesAt(s, j)
    decreases |s| - from
  {
    if from + |Sentinel| >= |s| then None
    else if MatchesAt(s, from) then Some(from)
    else FindFrom(s, from + 1)
  }

  /** The end of the maximal run of word characters starting at `i`. */
  function WordRunEnd(s: string, i: nat): (j: nat)
    requires i <= |s|
    ensures i <= j <= |s|
    ensures forall k :: i <= k < j ==> IsWordChar(s[k])
    ensures j < |s| ==> !IsWordChar(s[j])
    decreases |s| - i
  {
    if i < |s| && IsWordChar(s[i]) then WordRunEnd(s, i + 1) else i
  }

  /** The index of the first line terminator at or after `i`, or `|s|`. */
  function LineEnd(s: string, i: nat): (j: nat)
    requires i <= |s|
    ensures i <= j <= |s|
    ensures forall k :: i <= k < j ==> !IsLineTerminator(s[k])
    ensures j < |s| ==> IsLineTerminator(s[j])
    decreases |s| - i
  {
    if i < |s| && !IsLineTerminator(s[i]) then LineEnd(s, i + 1) else i
  }

  /** `s.match(/\[USE_TOOL\](\w+)(.*)/)`, giving the two capture groups. */
  function Match(s: string): (r: Option<ToolCall>)
    ensures r.None? <==> forall i :: !MatchesAt(s, i)
    ensures r.Some? ==> exists i :: Leftmost(s, i) && Groups(s, i, r.value)
  {
    match FindFrom(s, 0)
    case None => None
    case Some(i) =>
      var e := WordRunEnd(s, i + |Sentinel|);
      var f := LineEnd(s, e);
      var c := ToolCall(s[i + |Sentinel|..e], s[e..f]);
      assert Leftmost(s, i) && Groups(s, i, c);
      Some(c)
  }

  /** The declarative description determines the match: whatever position
      and groups satisfy it are exactly what `Match` returns. */
  lemma MatchUnique(s: string, i: int, c: ToolCall)
    requires Leftmost(s, i) && Groups(s, i, c)
    ensures Match(s) == Some(c)
  {
    var n := i + |Sentinel|;
    var e := n + |c.name|;
    var f := e + |c.input|;
    FindFromLeftmost(s, i);
    WordRunEndAt(s, n, e);
    LineEndAt(s, e, f);
  }

  /** The leftmost match position is what the search from 0 finds. */
  lemma FindFromLeftmost(s: string, i: int)
    requires Leftmost(s, i)
    ensures FindFrom(s, 0) == Some(i)
  {
    var r := FindFrom(s, 0);
    assert r.Some?;
    assert !(r.value < i);
    assert !(i < r.value);
  }

  /** A run of word characters from `i` to `e`, not followed by one, is the
      run `WordRunEnd` measures. */
  lemma {:induction false} WordRunEndAt(s: string, i: nat, e: nat)
    requires i <= e <= |s|
    requires forall k :: i <= k < e ==> IsWordChar(s[k])
    requires e < |s| ==> !IsWordChar(s[e])
    ensures WordRunEnd(s, i) == e
    decreases e - i
  {
    if i < e {
      WordRunEndAt(s, i + 1, e);
    }
  }

  /** A stretch without line terminators from `i` to `f`, followed by one
      or by the end, is the stretch `LineEnd` measures. */
  lemma {:induction false} LineEndAt(s: string, i: nat, f: nat)
    requires i <= f <= |s|
    requires forall k :: i <= k < f ==> !IsLineTerminator(s[k])
    requires f < |s| ==> IsLineTerminator(s[f])
    ensures LineEnd(s, i) == f
    decreases f - i
  {
    if i < f {
      LineEndAt(s, i + 1, f);
    }
  }

  /** A match needs the whole sentinel inside the matched text. */
  lemma MatchNeedsSentinel(s: string)
    requires Match(s).Some?
    ensures exists i :: OccursAt(s, Sentinel, i)
    ensures Contains(s, Sentinel)
  {
    var i :| Leftmost(s, i) && Groups(s, i, Match(s).value);
    assert OccursAt(s, Sentinel, i);
  }
}
