/** The token interceptor of the chat route (the `onToken` callback in
    app/api/chat/route.ts). Per request it keeps four variables; each
    streamed token is examined once, in order:
    - a token containing the sentinel is dropped whole, empties the buffer
      and starts (or restarts) collecting a tool call;
    - while collecting, tokens go to the buffer, and collecting ends on the
      first token after which the buffer holds `}`; the buffer is then
      matched against the tool-call pattern and, on a match, the tool call
      is dispatched;
    - otherwise tokens are appended to `fullResponse`.
    `fullResponse` is the narrative the interceptor accumulates for its own
    log; it is not what the client receives.

    `Step` and `Run` state the behaviour on values; the class
    `TokenInterceptor` is the imperative callback, proved to stay equal to
    `Run` of the tokens it has seen. A dispatch is recorded as the tool name
    and the raw argument text of the match: whether `JSON.parse` of the
    argument and the handler succeed has no effect on the interceptor. */
module Interceptor {
  import opened Wrappers
  import opened Strings
  import opened ToolCallPattern

  /** The four variables of the callback's closure. */
  datatype State = State(
    fullResponse: string,
    toolCallBuffer: string,
    isCollectingToolCall: bool,
    shouldSkipTokens: bool)

  const Initial: State := State("", "", false, false)

  /** The state after one token and the tool call it dispatched, if any. */
  datatype StepResult = StepResult(state: State, dispatch: Option<ToolCall>)

  /** The state after a token stream and the tool calls dispatched, in order. */
  datatype Trace = Trace(state: State, dispatches: seq<ToolCall>)

  predicate HasSentinel(token: string) {
    Contains(token, Sentinel)
  }

  /** One call of the callback. It never takes text back from
      `fullResponse`, and it dispatches only on a token without the sentinel
      that completes a collection in progress, which that token then ends. */
  function Step(s: State, token: string): (r: StepResult)
    ensures s.fullResponse <= r.state.fullResponse
    ensures r.dispatch.Some? ==>
              && s.isCollectingToolCall && !HasSentinel(token)
              && '}' in s.toolCallBuffer + token
              && !r.state.isCollectingToolCall
  {
    if HasSentinel(token) then
      StepResult(s.(isCollectingToolCall := true, toolCallBuffer := "", shouldSkipTokens := true), None)
    else if s.isCollectingToolCall then
      var buffer := s.toolCallBuffer + token;
      if '}' in buffer then
        StepResult(
          s.(toolCallBuffer := buffer, isCollectingToolCall := false, shouldSkipTokens := false),
          Match(buffer))
      else
        StepResult(s.(toolCallBuffer := buffer), None)
    else if !s.shouldSkipTokens then
      StepResult(s.(fullResponse := s.fullResponse + token), None)
    else
      StepResult(s, None)
  }

  function Dispatched(r: StepResult): seq<ToolCall> {
    if r.dispatch.Some? then [r.dispatch.value] else []
  }

  /** The callback applied to every token of a stream, from the initial
      state. The skip flag always mirrors the collecting flag, and no token
      dispatches more than once. */
  function Run(ts: seq<string>): (r: Trace)
    ensures r.state.shouldSkipTokens == r.state.isCollectingToolCall
    ensures |r.dispatches| <= |ts|
  {
    if ts == [] then Trace(Initial, [])
    else
      var before := Run(ts[..|ts| - 1]);
      var r := Step(before.state, ts[|ts| - 1]);
      Trace(r.state, before.dispatches + Dispatched(r))
  }

  lemma RunSnoc(ts: seq<string>, t: string)
    ensures Run(ts + [t]) == Trace(Step(Run(ts).state, t).state,
                                   Run(ts).dispatches + Dispatched(Step(Run(ts).state, t)))
  {
    assert (ts + [t])[..|ts|] == ts;
  }

  /** The tokens of the current collecting episode: those after the last
      token that holds the sentinel. */
  function Episode(ts: seq<string>): seq<string> {
    if ts == [] then []
    else if HasSentinel(ts[|ts| - 1]) then []
    else Episode(ts[..|ts| - 1]) + [ts[|ts| - 1]]
  }

  /** The number of tokens that hold the sentinel. */
  function SentinelCount(ts: seq<string>): nat {
    if ts == [] then 0
    else SentinelCount(ts[..|ts| - 1]) + (if HasSentinel(ts[|ts| - 1]) then 1 else 0)
  }

  /** What stays true of the four variables after any stream: the skip flag
      mirrors the collecting flag, and while collecting the buffer holds no
      `}` and is exactly the concatenation of the tokens since the last
      sentinel token, none of which holds the sentinel. */
  lemma {:induction false} RunInvariant(ts: seq<string>)
    ensures Run(ts).state.shouldSkipTokens == Run(ts).state.isCollectingToolCall
    ensures Run(ts).state.isCollectingToolCall ==> '}' !in Run(ts).state.toolCallBuffer
    ensures Run(ts).state.isCollectingToolCall ==> Run(ts).state.toolCallBuffer == Concat(Episode(ts))
    ensures forall j :: 0 <= j < |Episode(ts)| ==> !HasSentinel(Episode(ts)[j])
  {
    if ts != [] {
      var front := ts[..|ts| - 1];
      var t := ts[|ts| - 1];
      assert ts == front + [t];
      RunInvariant(front);
      RunSnoc(front, t);
      if !HasSentinel(t) {
        ConcatSnoc(Episode(front), t);
      }
    }
  }

  /** A stream in which no token holds the sentinel passes through whole:
      `fullResponse` is the in-order concatenation of the tokens, the buffer
      stays empty and nothing is dispatched. */
  lemma {:induction false} PassthroughIdentity(ts: seq<string>)
    requires forall j :: 0 <= j < |ts| ==> !HasSentinel(ts[j])
    ensures Run(ts) == Trace(State(Concat(ts), "", false, false), [])
  {
    if ts != [] {
      var front := ts[..|ts| - 1];
      var t := ts[|ts| - 1];
      assert ts == front + [t];
      PassthroughIdentity(front);
      RunSnoc(front, t);
    }
  }

  /** A token holding the sentinel reaches neither `fullResponse` nor the
      buffer, not even the text before the sentinel; it empties the buffer
      and enters collecting mode, even when a collection was in progress. */
  lemma SentinelTokenRestarts(ts: seq<string>, t: string)
    requires HasSentinel(t)
    ensures Run(ts + [t]).state.fullResponse == Run(ts).state.fullResponse
    ensures Run(ts + [t]).state.toolCallBuffer == ""
    ensures Run(ts + [t]).state.isCollectingToolCall && Run(ts + [t]).state.shouldSkipTokens
    ensures Run(ts + [t]).dispatches == Run(ts).dispatches
  {
    RunSnoc(ts, t);
  }

  /** While collecting, a token without the sentinel goes to the buffer and
      not to `fullResponse`; collecting ends exactly when the token holds `}`. */
  lemma CollectingBuffers(ts: seq<string>, t: string)
    requires Run(ts).state.isCollectingToolCall && !HasSentinel(t)
    ensures Run(ts + [t]).state.toolCallBuffer == Run(ts).state.toolCallBuffer + t
    ensures Run(ts + [t]).state.fullResponse == Run(ts).state.fullResponse
    ensures Run(ts + [t]).state.isCollectingToolCall <==> '}' !in t
  {
    RunSnoc(ts, t);
    RunInvariant(ts);
  }

  /** Outside a collection, including right after one completed whether or
      not its dispatch succeeded, a token without the sentinel is appended to
      `fullResponse` and nothing else changes. */
  lemma PassthroughAppends(ts: seq<string>, t: string)
    requires !Run(ts).state.isCollectingToolCall && !HasSentinel(t)
    ensures Run(ts + [t]).state == Run(ts).state.(fullResponse := Run(ts).state.fullResponse + t)
    ensures Run(ts + [t]).dispatches == Run(ts).dispatches
  {
    RunSnoc(ts, t);
    RunInvariant(ts);
  }

  /** One token dispatches at most one tool call, and it does so exactly
      when it completes a collection whose buffer matches the pattern; the
      call is the match of the completed buffer. */
  lemma DispatchOnCompletion(ts: seq<string>, t: string)
    ensures Run(ts).dispatches <= Run(ts + [t]).dispatches
    ensures |Run(ts + [t]).dispatches| <= |Run(ts).dispatches| + 1
    ensures |Run(ts + [t]).dispatches| == |Run(ts).dispatches| + 1 <==>
              && Run(ts).state.isCollectingToolCall
              && !HasSentinel(t)
              && '}' in t
              && Match(Run(ts).state.toolCallBuffer + t).Some?
    ensures |Run(ts + [t]).dispatches| == |Run(ts).dispatches| + 1 ==>
              Run(ts + [t]).dispatches[|Run(ts).dispatches|]
                == Match(Run(ts).state.toolCallBuffer + t).value
  {
    RunSnoc(ts, t);
    RunInvariant(ts);
  }

  /** Each collection dispatches at most once, and one still open when the
      stream ends has dispatched nothing: the dispatches, plus one for an
      open collection, never outnumber the sentinel tokens. */
  lemma {:induction false} DispatchCount(ts: seq<string>)
    ensures |Run(ts).dispatches| + (if Run(ts).state.isCollectingToolCall then 1 else 0)
              <= SentinelCount(ts)
  {
    if ts != [] {
      var front := ts[..|ts| - 1];
      var t := ts[|ts| - 1];
      assert ts == front + [t];
      DispatchCount(front);
      DispatchOnCompletion(front, t);
      RunSnoc(front, t);
      RunInvariant(front);
    }
  }

  /** A stream that ends while collecting dispatched nothing since the
      sentinel token that opened the collection. */
  lemma {:induction false} OpenCollectionNoDispatch(pre: seq<string>, t: string, rest: seq<string>)
    requires HasSentinel(t)
    requires forall j :: 0 <= j < |rest| ==> !HasSentinel(rest[j])
    requires Run(pre + [t] + rest).state.isCollectingToolCall
    ensures Run(pre + [t] + rest).dispatches == Run(pre + [t]).dispatches
  {
    if rest == [] {
      assert pre + [t] + rest == pre + [t];
    } else {
      var front := rest[..|rest| - 1];
      var u := rest[|rest| - 1];
      assert pre + [t] + rest == (pre + [t] + front) + [u];
      RunSnoc(pre + [t] + front, u);
      var before := Run(pre + [t] + front).state;
      assert !HasSentinel(u);
      assert before.isCollectingToolCall;
      assert Step(before, u).dispatch == None;
      OpenCollectionNoDispatch(pre, t, front);
    }
  }

  /** `fullResponse` only grows: its value after a prefix of the stream is a
      prefix of its value after the whole stream. */
  lemma {:induction false} AppendOnly(ts: seq<string>, k: nat)
    requires k <= |ts|
    ensures Run(ts[..k]).state.fullResponse <= Run(ts).state.fullResponse
  {
    if k < |ts| {
      var front := ts[..|ts| - 1];
      var t := ts[|ts| - 1];
      assert ts == front + [t];
      assert ts[..k] == front[..k];
      AppendOnly(front, k);
      RunSnoc(front, t);
    } else {
      assert ts[..k] == ts;
    }
  }

  /** Because a token holding the sentinel is dropped and empties the buffer,
      a dispatch can only happen when the sentinel reached the buffer split
      across two or more tokens: the completed buffer is the concatenation
      of at least two sentinel-free tokens, and a boundary between two of
      them falls strictly inside the matched sentinel. */
  lemma DispatchNeedsSplitSentinel(ts: seq<string>, t: string)
    requires |Run(ts + [t]).dispatches| > |Run(ts).dispatches|
    ensures var ep := Episode(ts + [t]);
      && Concat(ep) == Run(ts).state.toolCallBuffer + t
      && (forall j :: 0 <= j < |ep| ==> !HasSentinel(ep[j]))
      && |ep| >= 2
      && exists i, k :: Leftmost(Concat(ep), i) && 0 < k < |ep|
                        && i < |Concat(ep[..k])| < i + |Sentinel|
  {
    DispatchOnCompletion(ts, t);
    RunInvariant(ts);
    var before := Run(ts).state;
    var buffer := before.toolCallBuffer + t;
    var ep := Episode(ts + [t]);
    assert ep == Episode(ts) + [t] by {
      assert (ts + [t])[..|ts|] == ts;
    }
    ConcatSnoc(Episode(ts), t);
    assert Concat(ep) == buffer;
    assert forall j :: 0 <= j < |ep| ==> !HasSentinel(ep[j]) by {
      forall j | 0 <= j < |ep| ensures !HasSentinel(ep[j]) {
        if j < |ep| - 1 {
          assert ep[j] == Episode(ts)[j];
        }
      }
    }
    var i :| Leftmost(buffer, i) && Groups(buffer, i, Match(buffer).value);
    OccurrenceStraddles(ep, Sentinel, i);
  }

  /** A sentinel that arrives whole in one token is dropped with the token,
      so the call text that follows is buffered without it and nothing is
      dispatched; narrative resumes after the `}`. */
  lemma WholeSentinelNotDispatched()
    ensures Run(["Hi", "[USE_TOOL]", "a{}", "!"]).dispatches == []
    ensures Run(["Hi", "[USE_TOOL]", "a{}", "!"]).state.fullResponse == "Hi!"
  {
    assert OccursAt("[USE_TOOL]", Sentinel, 0);
    RunSnoc([], "Hi");
    assert [] + ["Hi"] == ["Hi"];
    RunSnoc(["Hi"], "[USE_TOOL]");
    assert ["Hi"] + ["[USE_TOOL]"] == ["Hi", "[USE_TOOL]"];
    RunSnoc(["Hi", "[USE_TOOL]"], "a{}");
    assert ["Hi", "[USE_TOOL]"] + ["a{}"] == ["Hi", "[USE_TOOL]", "a{}"];
    assert Match("a{}") == None;
    RunSnoc(["Hi", "[USE_TOOL]", "a{}"], "!");
    assert ["Hi", "[USE_TOOL]", "a{}"] + ["!"] == ["Hi", "[USE_TOOL]", "a{}", "!"];
  }

  /** A sentinel split across collected tokens is matched and dispatched. */
  lemma SplitSentinelDispatched()
    ensures Run(["[USE_TOOL]", "[USE_", "TOOL]a{}"]).dispatches == [ToolCall("a", "{}")]
  {
    var t0, t1, t2 := "[USE_TOOL]", "[USE_", "TOOL]a{}";
    assert OccursAt(t0, Sentinel, 0);
    RunSnoc([], t0);
    assert [] + [t0] == [t0];
    var s0 := Run([t0]);
    assert s0 == Trace(State("", "", true, true), []);
    RunSnoc([t0], t1);
    assert [t0] + [t1] == [t0, t1];
    var s1 := Run([t0, t1]);
    assert s1 == Trace(State("", t1, true, true), []);
    RunSnoc([t0, t1], t2);
    assert [t0, t1] + [t2] == [t0, t1, t2];
    assert t1 + t2 == "[USE_TOOL]a{}";
    MatchExample();
    assert Step(s1.state, t2).dispatch == Some(ToolCall("a", "{}"));
  }

  lemma MatchExample()
    ensures Match("[USE_TOOL]a{}") == Some(ToolCall("a", "{}"))
  {
    var buffer := "[USE_TOOL]a{}";
    assert buffer[0..10] == Sentinel;
    assert buffer[10..11] == "a" && buffer[11..13] == "{}";
    assert Groups(buffer, 0, ToolCall("a", "{}"));
    MatchUnique(buffer, 0, ToolCall("a", "{}"));
  }

  /** The callback as the source writes it: four fields updated in place.
      The ghost fields record the tokens seen and the dispatches made. */
  class TokenInterceptor {
    var fullResponse: string
    var toolCallBuffer: string
    var isCollectingToolCall: bool
    var shouldSkipTokens: bool
    ghost var tokens: seq<string>
    ghost var dispatches: seq<ToolCall>

    function Current(): State
      reads this
    {
      State(fullResponse, toolCallBuffer, isCollectingToolCall, shouldSkipTokens)
    }

    /** The fields are those `Run` gives for the tokens seen so far. */
    ghost predicate Valid()
      reads this
    {
      Run(tokens) == Trace(Current(), dispatches)
    }

    constructor ()
      ensures Valid() && tokens == [] && dispatches == []
      ensures Current() == Initial
    {
      fullResponse := "";
      toolCallBuffer := "";
      isCollectingToolCall := false;
      shouldSkipTokens := false;
      tokens := [];
      dispatches := [];
    }

    /** `onToken(token)` */
    method OnToken(token: string)
      requires Valid()
      modifies this
      ensures Valid() && tokens == old(tokens) + [token]
      ensures Current() == Step(old(Current()), token).state
      ensures dispatches == old(dispatches) + Dispatched(Step(old(Current()), token))
    {
      RunSnoc(tokens, token);
      tokens := tokens + [token];
      if HasSentinel(token) {
        isCollectingToolCall := true;
        toolCallBuffer := "";
        shouldSkipTokens := true;
        return;
      }
      if isCollectingToolCall {
        toolCallBuffer := toolCallBuffer + token;
        if '}' in toolCallBuffer {
          isCollectingToolCall := false;
          var toolCallMatch := Match(toolCallBuffer);
          if toolCallMatch.Some? {
            dispatches := dispatches + [toolCallMatch.value];
          }
          shouldSkipTokens := false;
        }
      } else if !shouldSkipTokens {
        fullResponse := fullResponse + token;
      }
    }
  }
}
