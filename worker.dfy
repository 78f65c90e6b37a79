/**
 * The sandboxed worker (src/worker.ts): the bridge it gives the interpreter
 * for running Yosys synchronously, the fresh namespace every program runs
 * in, the translation of the interpreter's output and artifacts into
 * protocol messages, and the dispatch of host messages.
 *
 * The two engines are not modelled. Yosys is represented by the sequence of
 * callbacks it makes and by how it ends; the interpreter by a function from
 * a program and its global namespace to what the program printed and
 * showed, in order, and whether it raised.
 */
module Worker {
  import opened Wrappers
  import opened Protocol
  import Utf8
  import Vcd

  type Bytes = seq<Utf8.byte>

  function Min(a: nat, b: nat): nat
  {
    if a <= b then a else b
  }

  /** The concatenation of a list of strings (`Array.prototype.join('')`). */
  function Join(parts: seq<string>): string
  {
    if parts == [] then [] else Join(parts[..|parts| - 1]) + parts[|parts| - 1]
  }

  // ----- runAmaranthYosys -----

  /**
   * One call of the `stdin` callback on the remaining bytes: `null` once
   * nothing remains, otherwise the first `length` bytes (all of them if
   * fewer remain), which are then dropped.
   */
  function ReadChunk(buffer: Bytes, length: nat): (r: (Option<Bytes>, Bytes))
    ensures r.0.None? <==> buffer == []
    ensures r.0.None? ==> r.1 == buffer
    ensures r.0.Some? ==> r.0.value + r.1 == buffer && |r.0.value| == Min(length, |buffer|)
  {
    if |buffer| == 0 then (None, buffer)
    else if length <= |buffer| then (Some(buffer[..length]), buffer[length..])
    else (Some(buffer), [])
  }

  /** A callback Yosys makes while it runs. */
  datatype YosysCall =
    | ReadStdin(length: nat)
    | WriteStdout(data: Option<Bytes>)
    | WriteStderr(data: Option<Bytes>)

  /** How the Yosys run ends: it returns, it exits with a status, or it throws something else. */
  datatype YosysEnd = Finished | Exited(code: int) | Crashed(error: string)

  /** What the bridge hands back to the interpreter: `[code, stdout, stderr]`, or the rethrown error. */
  datatype YosysReturn = Returned(code: int, stdout: string, stderr: string) | Rethrown(error: string)

  /**
   * The bridge's closure state after a sequence of callbacks: the bytes not
   * yet read, and the decoded output chunks; `delivered` records what each
   * `stdin` call returned.
   */
  datatype Bridged = Bridged(stdin: Bytes, delivered: seq<Option<Bytes>>, stdout: seq<string>, stderr: seq<string>)

  /** One callback; the output callbacks ignore `null` and decode anything else. */
  function Apply(b: Bridged, call: YosysCall, decode: Bytes -> string): (r: Bridged)
    ensures Flatten(r.delivered) + r.stdin == Flatten(b.delivered) + b.stdin
    ensures b.delivered <= r.delivered && |r.delivered| == |b.delivered| + (if call.ReadStdin? then 1 else 0)
    ensures b.stdout <= r.stdout && b.stderr <= r.stderr
    ensures call.ReadStdin? ==> r.stdout == b.stdout && r.stderr == b.stderr
    ensures !call.ReadStdin? ==> r.stdin == b.stdin
  {
    match call
    case ReadStdin(length) =>
      var (chunk, rest) := ReadChunk(b.stdin, length);
      assert (b.delivered + [chunk])[..|b.delivered|] == b.delivered;
      b.(stdin := rest, delivered := b.delivered + [chunk])
    case WriteStdout(data) => if data.Some? then b.(stdout := b.stdout + [decode(data.value)]) else b
    case WriteStderr(data) => if data.Some? then b.(stderr := b.stderr + [decode(data.value)]) else b
  }

  function Replay(stdin: Bytes, calls: seq<YosysCall>, decode: Bytes -> string): Bridged
  {
    if calls == [] then Bridged(stdin, [], [], [])
    else Apply(Replay(stdin, calls[..|calls| - 1], decode), calls[|calls| - 1], decode)
  }

  /** The bytes handed out by a sequence of `stdin` results. */
  function Flatten(chunks: seq<Option<Bytes>>): Bytes
  {
    if chunks == [] then []
    else Flatten(chunks[..|chunks| - 1]) + (if chunks[|chunks| - 1].Some? then chunks[|chunks| - 1].value else [])
  }

  /** The data of the non-null writes to one stream, in order. */
  function Written(calls: seq<YosysCall>, toStdout: bool): seq<Bytes>
  {
    if calls == [] then []
    else
      var c := calls[|calls| - 1];
      Written(calls[..|calls| - 1], toStdout) +
        (if (if toStdout then c.WriteStdout? else c.WriteStderr?) && c.data.Some? then [c.data.value] else [])
  }

  function Decoded(chunks: seq<Bytes>, decode: Bytes -> string): (r: seq<string>)
    ensures |r| == |chunks| && forall i :: 0 <= i < |chunks| ==> r[i] == decode(chunks[i])
  {
    seq(|chunks|, i requires 0 <= i < |chunks| => decode(chunks[i]))
  }

  /** Reading hands out the input in order and without loss: what has been handed out, then what remains, is the input. */
  lemma {:induction false} ReplayReadsInOrder(stdin: Bytes, calls: seq<YosysCall>, decode: Bytes -> string)
    ensures var b := Replay(stdin, calls, decode); Flatten(b.delivered) + b.stdin == stdin
    decreases |calls|
  {
    if calls != [] {
      var b0 := Replay(stdin, calls[..|calls| - 1], decode);
      ReplayReadsInOrder(stdin, calls[..|calls| - 1], decode);
      var b := Replay(stdin, calls, decode);
      if calls[|calls| - 1].ReadStdin? {
        assert b.delivered[..|b0.delivered|] == b0.delivered;
      }
    }
  }

  /** The `stdin` callback answers `null` exactly when everything has been handed out. */
  lemma {:induction false} ReplayNullWhenExhausted(stdin: Bytes, calls: seq<YosysCall>, decode: Bytes -> string)
    ensures var b := Replay(stdin, calls, decode);
      forall i :: 0 <= i < |b.delivered| ==> (b.delivered[i].None? <==> Flatten(b.delivered[..i]) == stdin)
    decreases |calls|
  {
    if calls != [] {
      var b0 := Replay(stdin, calls[..|calls| - 1], decode);
      ReplayNullWhenExhausted(stdin, calls[..|calls| - 1], decode);
      ReplayReadsInOrder(stdin, calls[..|calls| - 1], decode);
      var b := Replay(stdin, calls, decode);
      if calls[|calls| - 1].ReadStdin? {
        forall i | 0 <= i < |b.delivered|
          ensures b.delivered[i].None? <==> Flatten(b.delivered[..i]) == stdin
        {
          if i < |b0.delivered| {
            assert b.delivered[..i] == b0.delivered[..i];
          } else {
            assert b.delivered[..i] == b0.delivered;
          }
        }
      }
    }
  }

  /** Each output stream holds the decoded non-null writes to it, in order. */
  lemma {:induction false} ReplayCollectsOutput(stdin: Bytes, calls: seq<YosysCall>, decode: Bytes -> string)
    ensures var b := Replay(stdin, calls, decode);
      && b.stdout == Decoded(Written(calls, true), decode)
      && b.stderr == Decoded(Written(calls, false), decode)
    decreases |calls|
  {
    if calls != [] {
      ReplayCollectsOutput(stdin, calls[..|calls| - 1], decode);
    }
  }

  /** Once the input is exhausted, every later `stdin` call answers `null`. */
  lemma ExhaustedStaysExhausted(stdin: Bytes, calls: seq<YosysCall>, decode: Bytes -> string, i: nat, j: nat)
    requires var b := Replay(stdin, calls, decode); i <= j < |b.delivered| && b.delivered[i].None?
    ensures Replay(stdin, calls, decode).delivered[j].None?
  {
    var b := Replay(stdin, calls, decode);
    ReplayNullWhenExhausted(stdin, calls, decode);
    ReplayReadsInOrder(stdin, calls, decode);
    FlattenGrows(b.delivered, i, j);
    FlattenGrows(b.delivered, j, |b.delivered|);
    assert b.delivered[..|b.delivered|] == b.delivered;
  }

  lemma {:induction false} FlattenGrows(chunks: seq<Option<Bytes>>, i: nat, j: nat)
    requires i <= j <= |chunks|
    ensures Flatten(chunks[..i]) <= Flatten(chunks[..j])
    decreases j - i
  {
    if i < j {
      FlattenGrows(chunks, i, j - 1);
      assert chunks[..j][..j - 1] == chunks[..j - 1];
    }
  }

  /** `runAmaranthYosys`'s answer to the interpreter for a run of Yosys on `args` with `stdinText` as input. */
  function YosysResult(stdinText: string, calls: seq<YosysCall>, ending: YosysEnd, decode: Bytes -> string): (r: YosysReturn)
    ensures r.Rethrown? <==> ending.Crashed?
    ensures ending.Crashed? ==> r.error == ending.error
    ensures ending.Finished? ==> r.code == 0
    ensures ending.Exited? ==> r.code == ending.code
  {
    var b := Replay(Utf8.Encode(stdinText), calls, decode);
    match ending
    case Finished => Returned(0, Join(b.stdout), Join(b.stderr))
    case Exited(code) => Returned(code, Join(b.stdout), Join(b.stderr))
    case Crashed(error) => Rethrown(error)
  }

  /**
   * A normal return reports status 0, an exit reports its status, and both
   * carry everything written to each stream, decoded chunk by chunk; any
   * other failure is passed on as it is.
   */
  lemma YosysResultMeaning(stdinText: string, calls: seq<YosysCall>, ending: YosysEnd, decode: Bytes -> string)
    ensures var r := YosysResult(stdinText, calls, ending, decode);
      && (r.Rethrown? <==> ending.Crashed?)
      && (ending.Crashed? ==> r.error == ending.error)
      && (ending.Finished? ==> r.code == 0)
      && (ending.Exited? ==> r.code == ending.code)
      && (r.Returned? ==>
            (r.stdout == Join(Decoded(Written(calls, true), decode)) && r.stderr == Join(Decoded(Written(calls, false), decode))))
  {
    ReplayCollectsOutput(Utf8.Encode(stdinText), calls, decode);
  }

  /** An interpreter object the worker holds a reference to; `destroy()` releases it. */
  class PyProxy {
    var destroyed: bool

    constructor()
      ensures !destroyed
    {
      destroyed := false;
    }

    method Destroy()
      modifies this
      ensures destroyed
    {
      destroyed := true;
    }
  }

  /** The variables the three Yosys callbacks close over. */
  class YosysBridge {
    var stdin: Bytes
    var stdout: seq<string>
    var stderr: seq<string>

    constructor(input: Bytes)
      ensures stdin == input && stdout == [] && stderr == []
    {
      stdin := input;
      stdout := [];
      stderr := [];
    }

    /** The `stdin` callback. */
    method ReadStdin(length: nat) returns (chunk: Option<Bytes>)
      modifies this
      ensures (chunk, stdin) == ReadChunk(old(stdin), length)
      ensures stdout == old(stdout) && stderr == old(stderr)
    {
      if |stdin| == 0 {
        return None;
      }
      var n := Min(length, |stdin|);
      chunk := Some(stdin[..n]);
      stdin := stdin[n..];
    }

    /** The `stdout` callback. */
    method WriteStdout(data: Option<Bytes>, decode: Bytes -> string)
      modifies this
      ensures stdout == old(stdout) + (if data.Some? then [decode(data.value)] else [])
      ensures stdin == old(stdin) && stderr == old(stderr)
    {
      if data.Some? {
        stdout := stdout + [decode(data.value)];
      }
    }

    /** The `stderr` callback. */
    method WriteStderr(data: Option<Bytes>, decode: Bytes -> string)
      modifies this
      ensures stderr == old(stderr) + (if data.Some? then [decode(data.value)] else [])
      ensures stdin == old(stdin) && stdout == old(stdout)
    {
      if data.Some? {
        stderr := stderr + [decode(data.value)];
      }
    }
  }

  /**
   * `runAmaranthYosys`: runs Yosys with the UTF-8 encoding of `stdinText` as
   * its input, collects its output, and releases `args` however the run ends.
   */
  method RunAmaranthYosys(args: PyProxy, stdinText: string, calls: seq<YosysCall>, ending: YosysEnd, decode: Bytes -> string)
    returns (r: YosysReturn)
    modifies args
    ensures args.destroyed
    ensures r == YosysResult(stdinText, calls, ending, decode)
  {
    var input := Utf8.Encode(stdinText);
    var bridge := new YosysBridge(input);
    for i := 0 to |calls|
      invariant var b := Replay(input, calls[..i], decode);
        bridge.stdin == b.stdin && bridge.stdout == b.stdout && bridge.stderr == b.stderr
    {
      assert calls[..i + 1][..i] == calls[..i];
      match calls[i] {
        case ReadStdin(length) =>
          var _ := bridge.ReadStdin(length);
        case WriteStdout(data) =>
          bridge.WriteStdout(data, decode);
        case WriteStderr(data) =>
          bridge.WriteStderr(data, decode);
      }
    }
    assert calls[..|calls|] == calls;
    match ending {
      case Finished =>
        r := Returned(0, Join(bridge.stdout), Join(bridge.stderr));
      case Exited(code) =>
        r := Returned(code, Join(bridge.stdout), Join(bridge.stderr));
      case Crashed(error) =>
        r := Rethrown(error);
    }
    args.Destroy();
  }

  // ----- Running a program -----

  /** Something the running program does that the worker forwards to the host. */
  datatype EngineEvent =
    | PrintStdout(line: string)            // one line of standard output, without its newline
    | PrintStderr(line: string)
    | EmitRtlil(code: string)              // `amaranth_playground.show_rtlil`
    | EmitVerilog(code: string)            // `amaranth_playground.show_verilog`
    | EmitWaveforms(dump: seq<Vcd.Token>)  // the end of a `show_waveforms` block, with the dump it wrote

  datatype Outcome = Completed | Raised(message: string)

  /** What evaluating a program did, in order, and how it ended. */
  datatype Evaluation = Evaluation(events: seq<EngineEvent>, outcome: Outcome)

  /** A global namespace: the names bound in it. */
  type Namespace = map<string, string>

  /** The interpreter: a program evaluated with a namespace as its globals and locals. */
  type Interpreter = (string, Namespace) -> Evaluation

  /**
   * `runInNewContext`: evaluates `code` in a new, empty namespace and
   * releases both the namespace and the `dict` constructor it was made with,
   * whether or not the program raised.
   */
  method RunInNewContext(evaluate: Interpreter, code: string) returns (e: Evaluation, dict: PyProxy, globals: PyProxy)
    ensures e == evaluate(code, map[])
    ensures fresh(dict) && fresh(globals) && dict.destroyed && globals.destroyed
  {
    dict := new PyProxy();
    globals := new PyProxy();
    var namespace: Namespace := map[];
    e := evaluate(code, namespace);
    globals.Destroy();
    dict.Destroy();
  }

  /** The messages one event becomes; a dump that does not convert posts nothing. */
  function Announce(ev: EngineEvent): (msgs: seq<WorkerToHostMessage>)
    ensures |msgs| <= 1
  {
    match ev
    case PrintStdout(line) => [StdoutWrite(line + "\n")]
    case PrintStderr(line) => [StderrWrite(line + "\n")]
    case EmitRtlil(code) => [ShowRtlil(code)]
    case EmitVerilog(code) => [ShowVerilog(code)]
    case EmitWaveforms(dump) =>
      match Vcd.Convert(dump)
      case Success(tree) => [ShowWaveforms(tree)]
      case Failure(_) => []
  }

  /** The messages a program's events become while it runs. */
  function Bridge(events: seq<EngineEvent>): (msgs: seq<WorkerToHostMessage>)
    ensures |msgs| <= |events|
    ensures forall i :: 0 <= i < |msgs| ==> !msgs[i].PythonDone?
  {
    if events == [] then [] else Bridge(events[..|events| - 1]) + Announce(events[|events| - 1])
  }

  lemma BridgeExtends(events: seq<EngineEvent>, i: nat)
    requires i < |events|
    ensures Bridge(events[..i + 1]) == Bridge(events[..i]) + Announce(events[i])
  {
    assert events[..i + 1][..i] == events[..i];
  }

  /** The `pythonDone` message for an outcome. */
  function Done(outcome: Outcome): (m: WorkerToHostMessage)
    ensures m.PythonDone? && (m.error.None? <==> outcome.Completed?)
    ensures outcome.Raised? ==> m.error == Some(outcome.message)
  {
    PythonDone(if outcome.Completed? then None else Some(outcome.message))
  }

  /** The host can tell the outcome back from the final message: different outcomes give different messages. */
  lemma DoneInjective(a: Outcome, b: Outcome)
    ensures Done(a) == Done(b) <==> a == b
  {
  }

  /** Every message a run posts: the streamed ones, then exactly one `pythonDone`, last. */
  function Replies(e: Evaluation): (msgs: seq<WorkerToHostMessage>)
    ensures |msgs| >= 1 && msgs[|msgs| - 1] == Done(e.outcome)
    ensures forall i :: 0 <= i < |msgs| - 1 ==> !msgs[i].PythonDone?
  {
    Bridge(e.events) + [Done(e.outcome)]
  }

  /** The texts of the `stdoutWrite` messages among `msgs`. */
  function StdoutTexts(msgs: seq<WorkerToHostMessage>): seq<string>
  {
    if msgs == [] then []
    else StdoutTexts(msgs[..|msgs| - 1]) + (if msgs[|msgs| - 1].StdoutWrite? then [msgs[|msgs| - 1].text] else [])
  }

  /** The lines a program printed to standard output. */
  function PrintedLines(events: seq<EngineEvent>): seq<string>
  {
    if events == [] then []
    else PrintedLines(events[..|events| - 1]) + (if events[|events| - 1].PrintStdout? then [events[|events| - 1].line] else [])
  }

  lemma {:induction false} StdoutTextsAppend(a: seq<WorkerToHostMessage>, b: seq<WorkerToHostMessage>)
    ensures StdoutTexts(a + b) == StdoutTexts(a) + StdoutTexts(b)
    decreases |b|
  {
    if b == [] {
      assert a + b == a;
    } else {
      assert (a + b)[..|a + b| - 1] == a + b[..|b| - 1];
      StdoutTextsAppend(a, b[..|b| - 1]);
    }
  }

  /** Each line followed by a newline. */
  function Terminated(lines: seq<string>): (r: seq<string>)
    ensures |r| == |lines| && forall i :: 0 <= i < |lines| ==> r[i] == lines[i] + "\n"
  {
    if lines == [] then [] else Terminated(lines[..|lines| - 1]) + [lines[|lines| - 1] + "\n"]
  }

  lemma AnnouncedStdout(ev: EngineEvent)
    ensures StdoutTexts(Announce(ev)) == if ev.PrintStdout? then [ev.line + "\n"] else []
  {
    var a := Announce(ev);
    if a != [] {
      assert a[..0] == [];
    }
  }

  /**
   * Standard output is streamed line by line: one `stdoutWrite` per printed
   * line, in order, each line followed by a newline.
   */
  lemma {:induction false} StdoutStreamedByLine(events: seq<EngineEvent>)
    ensures StdoutTexts(Bridge(events)) == Terminated(PrintedLines(events))
    decreases |events|
  {
    if events != [] {
      var init, last := events[..|events| - 1], events[|events| - 1];
      StdoutStreamedByLine(init);
      StdoutTextsAppend(Bridge(init), Announce(last));
      AnnouncedStdout(last);
    }
  }

  /** The worker's state: what it has posted and which package lists it has loaded. */
  datatype WorkerState = WorkerState(outbox: seq<WorkerToHostMessage>, loaded: seq<seq<string>>)

  /**
   * One host message: `loadPackages` loads the list, `runPython` posts the
   * run's replies, and any other message throws without posting anything.
   */
  function Dispatch(s: WorkerState, data: Wire<HostToWorkerMessage>, evaluate: Interpreter): (r: (WorkerState, Option<string>))
    ensures r.1.Some? <==> data.Unknown?
    ensures data.Unknown? ==> r == (s, Some("[Worker] Unexpected message " + data.tag))
    ensures data.Known? && data.msg.LoadPackages? ==> r.0 == s.(loaded := s.loaded + [data.msg.pkgs])
    ensures data.Known? && data.msg.RunPython? ==> r.0 == s.(outbox := s.outbox + Replies(evaluate(data.msg.code, map[])))
    ensures s.outbox <= r.0.outbox && s.loaded <= r.0.loaded
    ensures RunCount(r.0.outbox) == RunCount(s.outbox) + (if data.Known? && data.msg.RunPython? then 1 else 0)
  {
    match data
    case Known(LoadPackages(pkgs)) => (s.(loaded := s.loaded + [pkgs]), None)
    case Known(RunPython(code)) =>
      var e := evaluate(code, map[]);
      RunCountAppend(s.outbox, Replies(e));
      RepliesCountOnce(e);
      (s.(outbox := s.outbox + Replies(e)), None)
    case Unknown(tag) => (s, Some("[Worker] Unexpected message " + tag))
  }

  /**
   * Over any sequence of host messages, the runs' replies never interleave:
   * the outbox is the concatenation of one complete reply sequence per
   * `runPython`, each ending with its `pythonDone`.
   */
  function DispatchAll(s: WorkerState, msgs: seq<Wire<HostToWorkerMessage>>, evaluate: Interpreter): WorkerState
    decreases |msgs|
  {
    if msgs == [] then s else DispatchAll(Dispatch(s, msgs[0], evaluate).0, msgs[1..], evaluate)
  }

  function RunCount(outbox: seq<WorkerToHostMessage>): nat
  {
    if outbox == [] then 0 else RunCount(outbox[..|outbox| - 1]) + (if outbox[|outbox| - 1].PythonDone? then 1 else 0)
  }

  lemma {:induction false} RunCountAppend(a: seq<WorkerToHostMessage>, b: seq<WorkerToHostMessage>)
    ensures RunCount(a + b) == RunCount(a) + RunCount(b)
    decreases |b|
  {
    if b == [] {
      assert a + b == a;
    } else {
      assert (a + b)[..|a + b| - 1] == a + b[..|b| - 1];
      RunCountAppend(a, b[..|b| - 1]);
    }
  }

  lemma {:induction false} RepliesCountOnce(e: Evaluation)
    ensures RunCount(Replies(e)) == 1
  {
    var msgs := Replies(e);
    assert msgs[..|msgs| - 1] == Bridge(e.events);
    BridgeHasNoDone(Bridge(e.events));
  }

  lemma {:induction false} BridgeHasNoDone(msgs: seq<WorkerToHostMessage>)
    requires forall i :: 0 <= i < |msgs| ==> !msgs[i].PythonDone?
    ensures RunCount(msgs) == 0
    decreases |msgs|
  {
    if msgs != [] {
      BridgeHasNoDone(msgs[..|msgs| - 1]);
    }
  }

  function RunRequests(msgs: seq<Wire<HostToWorkerMessage>>): nat
  {
    if msgs == [] then 0 else (if msgs[0].Known? && msgs[0].msg.RunPython? then 1 else 0) + RunRequests(msgs[1..])
  }

  /** Every `runPython` is answered by exactly one `pythonDone`, and nothing else posts one. */
  lemma {:induction false} OneDonePerRun(s: WorkerState, msgs: seq<Wire<HostToWorkerMessage>>, evaluate: Interpreter)
    ensures RunCount(DispatchAll(s, msgs, evaluate).outbox) == RunCount(s.outbox) + RunRequests(msgs)
    decreases |msgs|
  {
    if msgs != [] {
      var s1 := Dispatch(s, msgs[0], evaluate).0;
      if msgs[0].Known? && msgs[0].msg.RunPython? {
        RunCountAppend(s.outbox, Replies(evaluate(msgs[0].msg.code, map[])));
        RepliesCountOnce(evaluate(msgs[0].msg.code, map[]));
      }
      OneDonePerRun(s1, msgs[1..], evaluate);
    }
  }

  /**
   * The worker's message handler, with its outbox (`postMessage`) and the
   * package lists it asked the interpreter to load.
   */
  class WorkerScope {
    var outbox: seq<WorkerToHostMessage>
    var loaded: seq<seq<string>>
    const evaluate: Interpreter

    function State(): WorkerState
      reads this
    {
      WorkerState(outbox, loaded)
    }

    constructor(evaluate: Interpreter)
      ensures State() == WorkerState([], []) && this.evaluate == evaluate
    {
      outbox := [];
      loaded := [];
      this.evaluate := evaluate;
    }

    method Post(m: WorkerToHostMessage)
      modifies this
      ensures outbox == old(outbox) + [m] && loaded == old(loaded)
    {
      outbox := outbox + [m];
    }

    /** Posts what one event of a running program becomes, converting a waveform dump first. */
    method Forward(ev: EngineEvent)
      modifies this
      ensures outbox == old(outbox) + Announce(ev) && loaded == old(loaded)
    {
      match ev {
        case PrintStdout(line) => Post(StdoutWrite(line + "\n"));
        case PrintStderr(line) => Post(StderrWrite(line + "\n"));
        case EmitRtlil(c) => Post(ShowRtlil(c));
        case EmitVerilog(c) => Post(ShowVerilog(c));
        case EmitWaveforms(dump) =>
          var tree := Vcd.VcdToD3Wave(dump);
          if tree.Success? {
            Post(ShowWaveforms(tree.value));
          }
      }
    }

    /** The `runPython` branch: runs the program in a new namespace, streaming its events, then reports how it ended. */
    method RunProgram(code: string)
      modifies this
      ensures outbox == old(outbox) + Replies(evaluate(code, map[])) && loaded == old(loaded)
    {
      ghost var before, kept := outbox, loaded;
      var e, _, _ := RunInNewContext(evaluate, code);
      for i := 0 to |e.events|
        invariant outbox == before + Bridge(e.events[..i]) && loaded == kept
      {
        BridgeExtends(e.events, i);
        Forward(e.events[i]);
        assert before + Bridge(e.events[..i]) + Announce(e.events[i]) == before + Bridge(e.events[..i + 1]);
      }
      assert e.events[..|e.events|] == e.events;
      Post(Done(e.outcome));
      assert outbox == before + (Bridge(e.events) + [Done(e.outcome)]);
    }

    /** `self.onmessage`; `thrown` is the error it throws. */
    method OnMessage(data: Wire<HostToWorkerMessage>) returns (thrown: Option<string>)
      modifies this
      ensures (State(), thrown) == Dispatch(old(State()), data, evaluate)
    {
      thrown := None;
      match data {
        case Known(LoadPackages(pkgs)) =>
          loaded := loaded + [pkgs];
        case Known(RunPython(code)) =>
          RunProgram(code);
        case Unknown(tag) =>
          thrown := Some("[Worker] Unexpected message " + tag);
      }
    }
  }
}
