/**
 * The expectation queue as a value: the state the fake handle keeps, the
 * effect of one intercepted call on it (`Recorded`, the specification of
 * `query`), the final verdict (`Verdict`, the specification of
 * `ExpectationsMet`), and what follows for whole sequences of calls.
 */
module Queue {
  import opened Wrappers
  import opened Values
  import opened Errors

  /** One anticipated call, declared with `ExpectCall` and the `With...` builders. */
  datatype Expectation = Expectation(
    Function: string,
    Params: seq<Param>,
    Output: seq<Value>,
    Error: Option<UserError>)

  /** The fields of the handle that the engine reads and writes. */
  datatype DBState = DBState(
    Error: Option<UserError>,
    expectations: seq<Expectation>,
    index: nat,
    testErrors: seq<TestError>)

  /** The cursor never passes the end of the queue. */
  predicate Bounded(s: DBState)
  {
    s.index <= |s.expectations|
  }

  /**
   * One intercepted call as the queue sees it: the reported operation name
   * and the outcomes of the parameter check and of the output projection
   * against the expectation under the cursor.
   */
  datatype Call = Call(fn: string, paramsVerdict: Option<TestError>, outputVerdict: Option<TestError>)

  function Logged(v: Option<TestError>): seq<TestError>
  {
    if v.Some? then [v.value] else []
  }

  predicate Matches(e: Expectation, c: Call)
  {
    c.fn == e.Function && c.paramsVerdict == None && c.outputVerdict == None
  }

  /**
   * The errors a recognized call logs against expectation `e`, in order: a
   * different name, then the parameter error, then the output error.
   */
  function CallErrors(e: Expectation, c: Call): (r: seq<TestError>)
    ensures |r| <= 3
    ensures r == [] <==> Matches(e, c)
    ensures c.fn != e.Function ==> r[0] == WrongFunction(c.fn, e.Function)
  {
    (if c.fn != e.Function then [WrongFunction(c.fn, e.Function)] else [])
      + Logged(c.paramsVerdict) + Logged(c.outputVerdict)
  }

  /** The state after `query` has handled call `c` in state `s`. */
  function Recorded(s: DBState, c: Call): (r: DBState)
    ensures r.expectations == s.expectations
    ensures s.testErrors <= r.testErrors && |r.testErrors| <= |s.testErrors| + 3
    ensures s.index <= r.index && (Bounded(s) ==> Bounded(r))
    ensures s.index >= |s.expectations| ==>
              && r.testErrors == s.testErrors + [UnexpectedCall(c.fn)]
              && r.index == s.index && r.Error == s.Error
    ensures s.index < |s.expectations| ==>
              && r.index == s.index + 1
              && r.Error == s.expectations[s.index].Error
              && r.testErrors[|s.testErrors|..] == CallErrors(s.expectations[s.index], c)
  {
    if s.index >= |s.expectations| then
      s.(testErrors := s.testErrors + [UnexpectedCall(c.fn)])
    else
      var e := s.expectations[s.index];
      s.(testErrors := s.testErrors + CallErrors(e, c), Error := e.Error, index := s.index + 1)
  }

  /** What `ExpectationsMet` reports for state `s`. */
  function Verdict(s: DBState): (r: Option<TestError>)
    ensures r == None <==> s.testErrors == [] && s.index >= |s.expectations|
    ensures s.testErrors != [] ==> r == Some(s.testErrors[0])
    ensures s.testErrors == [] && s.index < |s.expectations| ==> r == Some(NotAllExpectationsMet)
  {
    if |s.testErrors| > 0 then Some(s.testErrors[0])
    else if s.index < |s.expectations| then Some(NotAllExpectationsMet)
    else None
  }

  /** The state after the calls `calls`, in order. */
  function Run(s: DBState, calls: seq<Call>): DBState
    decreases |calls|
  {
    if calls == [] then s else Run(Recorded(s, calls[0]), calls[1..])
  }

  /** The errors the calls `calls` log when they meet `exps[from..]` one by one. */
  function ErrorsAgainst(exps: seq<Expectation>, from: nat, calls: seq<Call>): seq<TestError>
    requires from + |calls| <= |exps|
    decreases |calls|
  {
    if calls == [] then [] else CallErrors(exps[from], calls[0]) + ErrorsAgainst(exps, from + 1, calls[1..])
  }

  /** The error log of calls made once the queue is exhausted. */
  function UnexpectedCalls(calls: seq<Call>): seq<TestError>
    decreases |calls|
  {
    if calls == [] then [] else [UnexpectedCall(calls[0].fn)] + UnexpectedCalls(calls[1..])
  }

  lemma {:induction false} RunSplit(s: DBState, calls: seq<Call>, m: nat)
    requires m <= |calls|
    ensures Run(s, calls) == Run(Run(s, calls[..m]), calls[m..])
    decreases m
  {
    if m > 0 {
      assert calls[..m][1..] == calls[1..][..m - 1];
      assert calls[m..] == calls[1..][m - 1..];
      RunSplit(Recorded(s, calls[0]), calls[1..], m - 1);
    }
  }

  /**
   * Over any sequence of calls the cursor only moves forward and never
   * passes the end, the queue is untouched, the error log only grows, and
   * each call adds at most three errors.
   */
  lemma {:induction false} RunMonotone(s: DBState, calls: seq<Call>)
    requires Bounded(s)
    ensures var r := Run(s, calls);
      && Bounded(r) && s.index <= r.index && r.expectations == s.expectations
      && s.testErrors <= r.testErrors && |r.testErrors| <= |s.testErrors| + 3 * |calls|
    decreases |calls|
  {
    if calls != [] {
      RunMonotone(Recorded(s, calls[0]), calls[1..]);
    }
  }

  /**
   * FIFO consumption: while expectations remain, the k-th call is checked
   * against the expectation at `index + k`, the cursor advances by one per
   * call, and the handle's error is that of the last expectation consumed.
   */
  lemma {:induction false} RunInOrder(s: DBState, calls: seq<Call>)
    requires s.index + |calls| <= |s.expectations|
    ensures var r := Run(s, calls);
      && r.index == s.index + |calls|
      && r.expectations == s.expectations
      && r.testErrors == s.testErrors + ErrorsAgainst(s.expectations, s.index, calls)
      && r.Error == if calls == [] then s.Error else s.expectations[s.index + |calls| - 1].Error
    decreases |calls|
  {
    if calls != [] {
      var e := s.expectations[s.index];
      var head := CallErrors(e, calls[0]);
      var s' := Recorded(s, calls[0]);
      assert s' == s.(testErrors := s.testErrors + head, Error := e.Error, index := s.index + 1);
      assert Run(s, calls) == Run(s', calls[1..]);
      RunInOrder(s', calls[1..]);
      var tail := ErrorsAgainst(s.expectations, s.index + 1, calls[1..]);
      assert ErrorsAgainst(s.expectations, s.index, calls) == head + tail;
      assert (s.testErrors + head) + tail == s.testErrors + (head + tail);
    }
  }

  /** Matching calls log nothing. */
  lemma {:induction false} MatchedLogsNothing(exps: seq<Expectation>, from: nat, calls: seq<Call>)
    requires from + |calls| <= |exps|
    requires forall k :: 0 <= k < |calls| ==> Matches(exps[from + k], calls[k])
    ensures ErrorsAgainst(exps, from, calls) == []
    decreases |calls|
  {
    if calls != [] {
      assert Matches(exps[from + 0], calls[0]);
      forall k | 0 <= k < |calls| - 1 ensures Matches(exps[from + 1 + k], calls[1..][k]) {
        assert Matches(exps[from + (k + 1)], calls[k + 1]);
      }
      MatchedLogsNothing(exps, from + 1, calls[1..]);
    }
  }

  /**
   * Calls made after the queue is exhausted each log exactly one
   * "unexpected call" error and change nothing else.
   */
  lemma {:induction false} RunPastEnd(s: DBState, calls: seq<Call>)
    requires s.index >= |s.expectations|
    ensures Run(s, calls) == s.(testErrors := s.testErrors + UnexpectedCalls(calls))
    decreases |calls|
  {
    if calls != [] {
      RunPastEnd(Recorded(s, calls[0]), calls[1..]);
    }
  }

  /**
   * If the pending expectations are met one by one by exactly as many
   * matching calls, the verdict is success and the handle's error is the
   * one declared by the last expectation.
   */
  lemma AllMatched(s: DBState, calls: seq<Call>)
    requires s.testErrors == [] && s.index + |calls| == |s.expectations|
    requires forall k :: 0 <= k < |calls| ==> Matches(s.expectations[s.index + k], calls[k])
    ensures Verdict(Run(s, calls)) == None
    ensures Run(s, calls).Error == if calls == [] then s.Error else s.expectations[|s.expectations| - 1].Error
  {
    RunInOrder(s, calls);
    MatchedLogsNothing(s.expectations, s.index, calls);
  }

  /** Fewer matching calls than pending expectations: the verdict is "not all met". */
  lemma TooFewCalls(s: DBState, calls: seq<Call>)
    requires s.testErrors == [] && s.index + |calls| < |s.expectations|
    requires forall k :: 0 <= k < |calls| ==> Matches(s.expectations[s.index + k], calls[k])
    ensures Verdict(Run(s, calls)) == Some(NotAllExpectationsMet)
  {
    RunInOrder(s, calls);
    MatchedLogsNothing(s.expectations, s.index, calls);
    var r := Run(s, calls);
    assert r.testErrors == [] && r.index < |r.expectations|;
  }

  /**
   * More calls than pending expectations, the first ones matching: the
   * verdict is the "unexpected call" error of the first excess call.
   */
  lemma TooManyCalls(s: DBState, calls: seq<Call>)
    requires s.testErrors == [] && s.index <= |s.expectations| < s.index + |calls|
    requires forall k :: 0 <= k < |s.expectations| - s.index ==> Matches(s.expectations[s.index + k], calls[k])
    ensures Verdict(Run(s, calls)) == Some(UnexpectedCall(calls[|s.expectations| - s.index].fn))
  {
    var m := |s.expectations| - s.index;
    RunSplit(s, calls, m);
    AllMatched(s, calls[..m]);
    RunPastEnd(Run(s, calls[..m]), calls[m..]);
  }

  /** Once an error is logged, no later call changes the verdict: the first error wins. */
  lemma FirstErrorWins(s: DBState, calls: seq<Call>)
    requires Bounded(s) && s.testErrors != []
    ensures Verdict(Run(s, calls)) == Verdict(s)
  {
    RunMonotone(s, calls);
  }
}
