/**
 * The host-side runner (src/runner.ts). A `ToolRunner` owns one worker and
 * remembers the package list it last told that worker to load; it replaces
 * the worker when the list changes. Each `runPython` call attaches two
 * listeners to the worker and settles one promise from the messages that
 * arrive.
 *
 * Workers are numbered in creation order; the log of posted messages and the
 * list of terminated workers make `postMessage` and `terminate` observable.
 */
module Runner {
  import opened Wrappers
  import opened Protocol
  import Json

  /** A message handed to `postMessage` of the worker with the given number. */
  datatype Posted = Posted(worker: nat, msg: HostToWorkerMessage)

  /** The runner's two fields, with the history of what it posted and which workers it terminated. */
  datatype RunnerState = RunnerState(
    worker: nat,
    packages: Option<seq<string>>,
    posted: seq<Posted>,
    terminated: seq<nat>)

  /** A freshly constructed runner: worker 0, no remembered packages. */
  function Created(): RunnerState
  {
    RunnerState(0, None, [], [])
  }

  /**
   * The test of `initializeWorker`: the JSON texts of the remembered and the
   * requested lists differ. This is the same as the lists differing as
   * ordered sequences, and a remembered `null` differs from every list.
   */
  function PackagesChanged(remembered: Option<seq<string>>, requested: seq<string>): (changed: bool)
    ensures changed <==> remembered != Some(requested)
  {
    Json.StringifyInjective(remembered, Some(requested));
    Json.Stringify(remembered) != Json.Stringify(Some(requested))
  }

  /**
   * `initializeWorker(pkgs)`: the new state and the worker it returns.
   * `loadPackages` is posted exactly when the list changed; the worker is
   * replaced exactly when the list changed and a list was already remembered;
   * afterwards the requested list is remembered.
   */
  function Initialize(s: RunnerState, pkgs: seq<string>): (r: (RunnerState, nat))
    ensures r.0.packages == Some(pkgs)
    ensures r.1 == r.0.worker
    ensures r.0.posted == if s.packages == Some(pkgs) then s.posted else s.posted + [Posted(r.1, LoadPackages(pkgs))]
    ensures r.1 != s.worker <==> s.packages.Some? && s.packages != Some(pkgs)
    ensures r.1 != s.worker ==> r.1 > s.worker && r.0.terminated == s.terminated + [s.worker]
    ensures r.1 == s.worker ==> r.0.terminated == s.terminated
  {
    if PackagesChanged(s.packages, pkgs) then
      // `this.#worker !== null` always holds: the field is set at construction and never cleared.
      var s1 := if s.packages.Some? then s.(worker := s.worker + 1, terminated := s.terminated + [s.worker]) else s;
      (s1.(posted := s1.posted + [Posted(s1.worker, LoadPackages(pkgs))], packages := Some(pkgs)), s1.worker)
    else
      (s, s.worker)
  }

  /** The state after `runPython(code, {packages: pkgs, ...})` has posted its request. */
  function StartRun(s: RunnerState, code: string, pkgs: seq<string>): (r: (RunnerState, nat))
    ensures r.0.packages == Some(pkgs) && r.1 == r.0.worker
    ensures |r.0.posted| >= |s.posted| + 1 && r.0.posted[|r.0.posted| - 1] == Posted(r.1, RunPython(code))
    ensures r.0.posted[..|r.0.posted| - 1] == Initialize(s, pkgs).0.posted
    ensures (r.0.(posted := r.0.posted[..|r.0.posted| - 1]), r.1) == Initialize(s, pkgs)
  {
    var (s1, w) := Initialize(s, pkgs);
    (s1.(posted := s1.posted + [Posted(w, RunPython(code))]), w)
  }

  /** A second initialisation with an equal list posts nothing and returns the same worker. */
  lemma InitializeIdempotent(s: RunnerState, pkgs: seq<string>)
    ensures Initialize(Initialize(s, pkgs).0, pkgs) == Initialize(s, pkgs)
  {
  }

  /** The first configuration reuses the worker created with the runner. */
  lemma FirstConfigurationKeepsWorker(pkgs: seq<string>)
    ensures Initialize(Created(), pkgs).1 == 0
    ensures Initialize(Created(), pkgs).0.posted == [Posted(0, LoadPackages(pkgs))]
    ensures Initialize(Created(), pkgs).0.terminated == []
  {
  }

  /** Switching between two different lists loads each once and never reuses a worker across the change. */
  lemma SwitchingConfigurationRestarts(c1: seq<string>, c2: seq<string>)
    requires c1 != c2
    ensures var (s1, w1) := Initialize(Created(), c1);
            var (s2, w2) := Initialize(s1, c2);
            w1 != w2 && s2.terminated == [w1] &&
            s2.posted == [Posted(w1, LoadPackages(c1)), Posted(w2, LoadPackages(c2))]
  {
  }

  /** `n` successive initialisations with the same list. */
  function InitializeTimes(s: RunnerState, pkgs: seq<string>, n: nat): RunnerState
    decreases n
  {
    if n == 0 then s else InitializeTimes(Initialize(s, pkgs).0, pkgs, n - 1)
  }

  /** The number of `loadPackages` messages in a log. */
  function LoadCount(posted: seq<Posted>): nat
  {
    if posted == [] then 0
    else (if posted[|posted| - 1].msg.LoadPackages? then 1 else 0) + LoadCount(posted[..|posted| - 1])
  }

  /** However many times a fresh runner is configured with the same list, exactly one load is posted, to worker 0. */
  lemma {:induction false} RepeatedConfigurationLoadsOnce(pkgs: seq<string>, n: nat)
    requires n >= 1
    ensures InitializeTimes(Created(), pkgs, n).posted == [Posted(0, LoadPackages(pkgs))]
    ensures LoadCount(InitializeTimes(Created(), pkgs, n).posted) == 1
    ensures InitializeTimes(Created(), pkgs, n).worker == 0
  {
    var s1 := Initialize(Created(), pkgs).0;
    assert s1 == RunnerState(0, Some(pkgs), [Posted(0, LoadPackages(pkgs))], []);
    StableOnceConfigured(s1, pkgs, n - 1);
    assert LoadCount([Posted(0, LoadPackages(pkgs))]) == 1 + LoadCount([]);
  }

  /** Once a list is remembered, initialising with it again any number of times changes nothing. */
  lemma {:induction false} StableOnceConfigured(s: RunnerState, pkgs: seq<string>, n: nat)
    requires s.packages == Some(pkgs)
    ensures InitializeTimes(s, pkgs, n) == s
    decreases n
  {
    if n > 0 {
      assert Initialize(s, pkgs).0 == s;
      StableOnceConfigured(s, pkgs, n - 1);
    }
  }

  /** How a run's promise stands. */
  datatype RunError =
    | PythonError(message: string)   // `PythonError` raised for a `pythonDone` carrying an error
    | PlainError(message: string)    // `Error` raised for an unexpected message type
    | WorkerFailure(error: string)   // the `error` of the worker's `error` event

  datatype PromiseState = Pending | Fulfilled | Rejected(reason: RunError)

  /** A call of one of the caller's callbacks, with its argument. */
  datatype Callback =
    | OnStdout(text: string)
    | OnStderr(text: string)
    | OnShowRtlil(code: string)
    | OnShowVerilog(code: string)
    | OnShowWaveforms(data: WaveNode)

  /** What the worker object dispatches to the run's listeners. */
  datatype WorkerEvent = MessageEvent(data: Wire<WorkerToHostMessage>) | ErrorEvent(error: string)

  /** The state a `runPython` promise closes over: attached listeners, the promise, the callbacks made so far. */
  datatype RunView = RunView(onMessage: bool, onError: bool, promise: PromiseState, calls: seq<Callback>)

  /** Just after `runPython` attached its listeners. */
  function Started(): RunView
  {
    RunView(true, true, Pending, [])
  }

  /** Resolving or rejecting a promise that has already settled has no effect. */
  function Settle(p: PromiseState, outcome: PromiseState): (r: PromiseState)
    ensures p.Pending? ==> r == outcome
    ensures !p.Pending? ==> r == p
  {
    if p.Pending? then outcome else p
  }

  /** The first settlement wins: whatever is settled later is ignored. */
  lemma SettleFirstWins(p: PromiseState, first: PromiseState, later: PromiseState)
    ensures !first.Pending? ==> Settle(Settle(p, first), later) == Settle(p, first)
    ensures p.Pending? && !first.Pending? ==> Settle(Settle(p, first), later) == first
  {
  }

  /**
   * The message each option callback of `runPython` stands for: `onStdout`
   * shows `stdoutWrite` text, `onStderr` `stderrWrite` text, `onShowRtlil`
   * and `onShowVerilog` the code of `showRtlil` and `showVerilog`, and
   * `onShowWaveforms` the tree of `showWaveforms`.
   */
  function MessageOf(c: Callback): (m: WorkerToHostMessage)
    ensures !m.PythonDone?
  {
    match c
    case OnStdout(text) => StdoutWrite(text)
    case OnStderr(text) => StderrWrite(text)
    case OnShowRtlil(code) => ShowRtlil(code)
    case OnShowVerilog(code) => ShowVerilog(code)
    case OnShowWaveforms(data) => ShowWaveforms(data)
  }

  /** The callback a streamed message invokes; `pythonDone` invokes none. */
  function CallbackFor(m: WorkerToHostMessage): (r: Option<Callback>)
    ensures r.None? <==> m.PythonDone?
    ensures r.Some? ==> MessageOf(r.value) == m
  {
    match m
    case StdoutWrite(text) => Some(OnStdout(text))
    case StderrWrite(text) => Some(OnStderr(text))
    case ShowRtlil(code) => Some(OnShowRtlil(code))
    case ShowVerilog(code) => Some(OnShowVerilog(code))
    case ShowWaveforms(data) => Some(OnShowWaveforms(data))
    case PythonDone(_) => None
  }

  /** The message listener of `runPython`. */
  function OnMessage(v: RunView, data: Wire<WorkerToHostMessage>): (r: RunView)
    ensures data.Known? && data.msg.PythonDone? ==> !r.onMessage && !r.onError
    ensures !(data.Known? && data.msg.PythonDone?) ==> r.onMessage == v.onMessage && r.onError == v.onError
    ensures v.calls <= r.calls && (|r.calls| == |v.calls| + 1 <==> data.Known? && !data.msg.PythonDone?)
    ensures |r.calls| <= |v.calls| + 1
    ensures data.Known? && !data.msg.PythonDone? ==> r.calls[|v.calls|] == CallbackFor(data.msg).value
    ensures v.promise.Pending? ==> (r.promise.Pending? <==> data.Known? && !data.msg.PythonDone?)
    ensures !v.promise.Pending? ==> r.promise == v.promise
  {
    match data
    case Known(PythonDone(error)) =>
      v.(onMessage := false, onError := false,
         promise := Settle(v.promise, if error.None? then Fulfilled else Rejected(PythonError(error.value))))
    case Known(m) => v.(calls := v.calls + [CallbackFor(m).value])
    case Unknown(tag) => v.(promise := Settle(v.promise, Rejected(PlainError("[Host] Unexpected message " + tag))))
  }

  /** The error listener of `runPython`; registered with `once`, so it detaches itself. */
  function OnError(v: RunView, error: string): (r: RunView)
    ensures !r.onMessage && !r.onError && r.calls == v.calls
    ensures v.promise.Pending? ==> r.promise == Rejected(WorkerFailure(error))
    ensures !v.promise.Pending? ==> r.promise == v.promise
  {
    v.(onError := false, onMessage := false, promise := Settle(v.promise, Rejected(WorkerFailure(error))))
  }

  /**
   * One event reaching the run: only attached listeners see it. Callbacks are
   * only ever appended, a settled promise stays as it is, and listeners are
   * never re-attached.
   */
  function Receive(v: RunView, ev: WorkerEvent): (r: RunView)
    ensures v.calls <= r.calls && |r.calls| <= |v.calls| + 1
    ensures !v.promise.Pending? ==> r.promise == v.promise
    ensures (r.onMessage ==> v.onMessage) && (r.onError ==> v.onError)
    ensures !v.onMessage && !v.onError ==> r == v
  {
    match ev
    case MessageEvent(data) => if v.onMessage then OnMessage(v, data) else v
    case ErrorEvent(error) => if v.onError then OnError(v, error) else v
  }

  /** A sequence of events reaching the run, in arrival order. */
  function ReceiveAll(v: RunView, evs: seq<WorkerEvent>): RunView
    decreases |evs|
  {
    if evs == [] then v else ReceiveAll(Receive(v, evs[0]), evs[1..])
  }

  /** The events carrying a sequence of protocol messages. */
  function Messages(msgs: seq<WorkerToHostMessage>): (evs: seq<WorkerEvent>)
    ensures |evs| == |msgs|
    ensures forall i :: 0 <= i < |msgs| ==> evs[i] == MessageEvent(Known(msgs[i]))
  {
    seq(|msgs|, i requires 0 <= i < |msgs| => MessageEvent(Known(msgs[i])))
  }

  /** The callbacks a sequence of streamed messages invokes, in order. */
  function Callbacks(msgs: seq<WorkerToHostMessage>): seq<Callback>
  {
    if msgs == [] then []
    else Callbacks(msgs[..|msgs| - 1]) + (match CallbackFor(msgs[|msgs| - 1]) case Some(c) => [c] case None => [])
  }

  /** Every callback is invoked by exactly the message it stands for. */
  lemma CallbackForMessageOf(c: Callback)
    ensures CallbackFor(MessageOf(c)) == Some(c)
  {
  }

  /**
   * Streamed messages invoke one callback each, in order, and each callback
   * is the one its message stands for, with the message's payload.
   */
  lemma {:induction false} CallbacksMirrorMessages(msgs: seq<WorkerToHostMessage>)
    requires Streaming(msgs)
    ensures |Callbacks(msgs)| == |msgs|
    ensures forall i :: 0 <= i < |msgs| ==> MessageOf(Callbacks(msgs)[i]) == msgs[i]
    decreases |msgs|
  {
    if msgs != [] {
      var init := msgs[..|msgs| - 1];
      assert Streaming(init) by {
        forall i | 0 <= i < |init| ensures !init[i].PythonDone? {
          assert init[i] == msgs[i];
        }
      }
      CallbacksMirrorMessages(init);
      var c := CallbackFor(msgs[|msgs| - 1]).value;
      assert Callbacks(msgs) == Callbacks(init) + [c];
      forall i | 0 <= i < |msgs| ensures MessageOf(Callbacks(msgs)[i]) == msgs[i] {
        if i < |init| {
          assert Callbacks(msgs)[i] == Callbacks(init)[i] && msgs[i] == init[i];
        }
      }
    }
  }

  /** Whether no message of a sequence is `pythonDone`. */
  predicate Streaming(msgs: seq<WorkerToHostMessage>)
  {
    forall i :: 0 <= i < |msgs| ==> !msgs[i].PythonDone?
  }

  lemma {:induction false} ReceiveAllAppend(v: RunView, a: seq<WorkerEvent>, b: seq<WorkerEvent>)
    ensures ReceiveAll(v, a + b) == ReceiveAll(ReceiveAll(v, a), b)
    decreases |a|
  {
    if a != [] {
      assert (a + b)[0] == a[0] && (a + b)[1..] == a[1..] + b;
      ReceiveAllAppend(Receive(v, a[0]), a[1..], b);
    } else {
      assert a + b == b;
    }
  }

  /**
   * Streamed messages invoke exactly their callbacks, in arrival order, and
   * leave the promise and the listeners as they were.
   */
  lemma {:induction false} StreamingInvokesCallbacksInOrder(v: RunView, msgs: seq<WorkerToHostMessage>)
    requires v.onMessage && Streaming(msgs)
    ensures ReceiveAll(v, Messages(msgs)) == v.(calls := v.calls + Callbacks(msgs))
    decreases |msgs|
  {
    if msgs == [] {
      assert Messages(msgs) == [];
    } else {
      var init, last := msgs[..|msgs| - 1], msgs[|msgs| - 1];
      assert msgs == init + [last];
      assert Messages(msgs) == Messages(init) + Messages([last]);
      ReceiveAllAppend(v, Messages(init), Messages([last]));
      StreamingInvokesCallbacksInOrder(v, init);
      var mid := v.(calls := v.calls + Callbacks(init));
      assert Messages([last])[1..] == [];
      assert ReceiveAll(mid, Messages([last])) == Receive(mid, MessageEvent(Known(last)));
    }
  }

  /** Once settled, a promise keeps its outcome whatever arrives afterwards. */
  lemma {:induction false} SettledStaysSettled(v: RunView, evs: seq<WorkerEvent>)
    requires !v.promise.Pending?
    ensures ReceiveAll(v, evs).promise == v.promise
    decreases |evs|
  {
    if evs != [] {
      SettledStaysSettled(Receive(v, evs[0]), evs[1..]);
    }
  }

  /** With both listeners removed, later events have no effect on the run. */
  lemma {:induction false} DetachedIgnoresEvents(v: RunView, evs: seq<WorkerEvent>)
    requires !v.onMessage && !v.onError
    ensures ReceiveAll(v, evs) == v
    decreases |evs|
  {
    if evs != [] {
      DetachedIgnoresEvents(Receive(v, evs[0]), evs[1..]);
    }
  }

  /**
   * A run whose worker streams some messages and then `pythonDone`: every
   * streamed message reached its callback in order, both listeners are gone,
   * and the promise resolved when `error` is null and otherwise rejected with
   * a `PythonError` carrying that text. Anything arriving later changes nothing.
   */
  lemma RunSettlesOnDone(msgs: seq<WorkerToHostMessage>, error: Option<string>, later: seq<WorkerEvent>)
    requires Streaming(msgs)
    ensures ReceiveAll(Started(), Messages(msgs + [PythonDone(error)]) + later) ==
      RunView(false, false, if error.None? then Fulfilled else Rejected(PythonError(error.value)), Callbacks(msgs))
  {
    var done := PythonDone(error);
    assert Messages(msgs + [done]) == Messages(msgs) + Messages([done]);
    ReceiveAllAppend(Started(), Messages(msgs + [done]), later);
    ReceiveAllAppend(Started(), Messages(msgs), Messages([done]));
    StreamingInvokesCallbacksInOrder(Started(), msgs);
    var mid := Started().(calls := Callbacks(msgs));
    assert Messages([done])[1..] == [];
    assert ReceiveAll(mid, Messages([done])) == Receive(mid, MessageEvent(Known(done)));
    DetachedIgnoresEvents(ReceiveAll(Started(), Messages(msgs + [done])), later);
  }

  /** An unexpected message type rejects with a plain `Error` and leaves both listeners attached. */
  lemma UnknownMessageRejectsAndKeepsListening(v: RunView, tag: string)
    requires WorkerWire(Unknown(tag)) && v.onMessage && v.promise.Pending?
    ensures var r := Receive(v, MessageEvent(Unknown(tag)));
            r.onMessage && r.onError == v.onError && r.calls == v.calls &&
            r.promise == Rejected(PlainError("[Host] Unexpected message " + tag))
  {
  }

  /** A worker error event rejects with the event's error and removes the message listener. */
  lemma WorkerErrorRejectsAndDetaches(v: RunView, error: string)
    requires v.onError && v.promise.Pending?
    ensures var r := Receive(v, ErrorEvent(error));
            !r.onMessage && !r.onError && r.calls == v.calls && r.promise == Rejected(WorkerFailure(error))
  {
  }

  /** The runner object of src/runner.ts. */
  class ToolRunner {
    var worker: nat
    var packages: Option<seq<string>>
    var posted: seq<Posted>
    var terminated: seq<nat>

    function State(): RunnerState
      reads this
    {
      RunnerState(worker, packages, posted, terminated)
    }

    /** The field initialisers: a new worker and no remembered packages. */
    constructor ()
      ensures State() == Created()
    {
      worker := 0;
      packages := None;
      posted := [];
      terminated := [];
    }

    /** `initializeWorker`: reload on a changed list, restarting the worker if one was configured before. */
    method InitializeWorker(pkgs: seq<string>) returns (w: nat)
      modifies this
      ensures (State(), w) == Initialize(old(State()), pkgs)
      ensures packages == Some(pkgs) && w == worker
    {
      if Json.Stringify(packages) != Json.Stringify(Some(pkgs)) {
        if packages.Some? {
          // Terminate and re-initialize if the set of packages has changed.
          terminated := terminated + [worker];
          worker := worker + 1;
        }
        posted := posted + [Posted(worker, LoadPackages(pkgs))];
        packages := Some(pkgs);
      }
      w := worker;
    }

    /** `preloadPackages`: exactly the state effect of `initializeWorker`. */
    method PreloadPackages(pkgs: seq<string>)
      modifies this
      ensures State() == Initialize(old(State()), pkgs).0
    {
      var _ := InitializeWorker(pkgs);
    }

    /**
     * `runPython`: configure the worker, attach both listeners to it, post the
     * code, and hand back the pending run.
     */
    method RunPython(code: string, pkgs: seq<string>) returns (run: PythonRun)
      modifies this
      ensures fresh(run)
      ensures (State(), run.worker) == StartRun(old(State()), code, pkgs)
      ensures run.View() == Started()
    {
      var w := InitializeWorker(pkgs);
      run := new PythonRun(w);
      posted := posted + [Posted(w, HostToWorkerMessage.RunPython(code))];
    }
  }

  /** The promise of one `runPython` call together with the listeners it attached to its worker. */
  class PythonRun {
    const worker: nat
    var onMessage: bool
    var onError: bool
    var promise: PromiseState
    var calls: seq<Callback>

    function View(): RunView
      reads this
    {
      RunView(onMessage, onError, promise, calls)
    }

    constructor (worker: nat)
      ensures this.worker == worker && View() == Started()
    {
      this.worker := worker;
      onMessage := true;
      onError := true;
      promise := Pending;
      calls := [];
    }

    /** The worker dispatching one event: attached listeners run, in the order the source defines them. */
    method Deliver(ev: WorkerEvent)
      modifies this
      ensures View() == Receive(old(View()), ev)
    {
      match ev {
        case MessageEvent(data) =>
          if onMessage {
            HandleMessage(data);
          }
        case ErrorEvent(error) =>
          if onError {
            onError := false;  // registered with `{ once: true }`
            onMessage := false;
            Reject(WorkerFailure(error));
          }
      }
    }

    /** The body of the `onmessage` listener. */
    method HandleMessage(data: Wire<WorkerToHostMessage>)
      modifies this
      ensures View() == OnMessage(old(View()), data)
    {
      match data {
        case Known(StdoutWrite(text)) => calls := calls + [OnStdout(text)];
        case Known(StderrWrite(text)) => calls := calls + [OnStderr(text)];
        case Known(ShowRtlil(code)) => calls := calls + [OnShowRtlil(code)];
        case Known(ShowVerilog(code)) => calls := calls + [OnShowVerilog(code)];
        case Known(ShowWaveforms(data)) => calls := calls + [OnShowWaveforms(data)];
        case Known(PythonDone(error)) =>
          onMessage := false;
          onError := false;
          if error.None? {
            Resolve();
          } else {
            Reject(PythonError(error.value));
          }
        case Unknown(tag) => Reject(PlainError("[Host] Unexpected message " + tag));
      }
    }

    method Resolve()
      modifies this`promise
      ensures promise == Settle(old(promise), Fulfilled)
    {
      if promise.Pending? {
        promise := Fulfilled;
      }
    }

    method Reject(reason: RunError)
      modifies this`promise
      ensures promise == Settle(old(promise), Rejected(reason))
    {
      if promise.Pending? {
        promise := Rejected(reason);
      }
    }
  }
}
