/**
 * The two sides together: what a `runPython` promise on the host sees when
 * the worker answers a `runPython` request with the replies the worker
 * posts (src/runner.ts and src/worker.ts).
 */
module EndToEnd {
  import opened Wrappers
  import opened Protocol
  import Runner
  import Worker

  /** The texts passed to the `stdout` callback, in order. */
  function StdoutCalls(calls: seq<Runner.Callback>): seq<string>
  {
    if calls == [] then []
    else StdoutCalls(calls[..|calls| - 1]) + (if calls[|calls| - 1].OnStdout? then [calls[|calls| - 1].text] else [])
  }

  lemma {:induction false} StdoutCallsAppend(a: seq<Runner.Callback>, b: seq<Runner.Callback>)
    ensures StdoutCalls(a + b) == StdoutCalls(a) + StdoutCalls(b)
    decreases |b|
  {
    if b == [] {
      assert a + b == a;
    } else {
      assert (a + b)[..|a + b| - 1] == a + b[..|b| - 1];
      StdoutCallsAppend(a, b[..|b| - 1]);
    }
  }

  /** The `stdout` callback receives exactly the texts of the `stdoutWrite` messages, in order. */
  lemma {:induction false} StdoutCallsMatchMessages(msgs: seq<WorkerToHostMessage>)
    ensures StdoutCalls(Runner.Callbacks(msgs)) == Worker.StdoutTexts(msgs)
    decreases |msgs|
  {
    if msgs != [] {
      var init, last := msgs[..|msgs| - 1], msgs[|msgs| - 1];
      StdoutCallsMatchMessages(init);
      var tail: seq<Runner.Callback> := match Runner.CallbackFor(last) case Some(c) => [c] case None => [];
      StdoutCallsAppend(Runner.Callbacks(init), tail);
      if tail != [] {
        assert tail[..0] == [];
        assert StdoutCalls(tail) == if tail[0].OnStdout? then [tail[0].text] else [];
      }
    }
  }

  /**
   * A run whose program completes is fulfilled, and one whose program raises
   * is rejected with a `PythonError` carrying the message; before that, every
   * output the program produced reached its callback in order; and both
   * listeners are detached, so nothing posted afterwards changes the run.
   */
  lemma RunOutcome(e: Worker.Evaluation, later: seq<Runner.WorkerEvent>)
    ensures var v := Runner.ReceiveAll(Runner.Started(), Runner.Messages(Worker.Replies(e)) + later);
      && !v.onMessage && !v.onError
      && (v.promise == Runner.Fulfilled <==> e.outcome.Completed?)
      && (e.outcome.Raised? ==> v.promise == Runner.Rejected(Runner.PythonError(e.outcome.message)))
      && v.calls == Runner.Callbacks(Worker.Bridge(e.events))
  {
    var msgs := Worker.Bridge(e.events);
    Runner.RunSettlesOnDone(msgs, Worker.Done(e.outcome).error, later);
  }

  /** Each line the program prints reaches the host's `stdout` callback once, with a newline appended. */
  lemma PrintedLinesReachStdout(e: Worker.Evaluation, later: seq<Runner.WorkerEvent>)
    ensures var v := Runner.ReceiveAll(Runner.Started(), Runner.Messages(Worker.Replies(e)) + later);
      StdoutCalls(v.calls) == Worker.Terminated(Worker.PrintedLines(e.events))
  {
    RunOutcome(e, later);
    StdoutCallsMatchMessages(Worker.Bridge(e.events));
    Worker.StdoutStreamedByLine(e.events);
  }
}
