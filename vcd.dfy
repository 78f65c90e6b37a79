/**
 * The conversion of a simulator's value-change dump into the waveform tree
 * that `showWaveforms` carries (the `vcd_to_d3wave` helper that the worker
 * evaluates inside the interpreter, src/worker.ts).
 *
 * The helper keeps a stack of scope dictionaries and an index from
 * identifier codes to signal dictionaries, and appends to those dictionaries
 * in place: the same dictionary is reachable from the tree, from the stack
 * and from the index. The model keeps one tree and addresses its nodes by
 * paths (the child positions from the root), so the stack and the index hold
 * paths; `Inv` says that every path on the stack leads to a scope and every
 * indexed path to a signal, which is what makes every lookup of the helper
 * land on a node of the right kind.
 */
module Vcd {
  import opened Wrappers
  import opened Protocol

  /**
   * The value of a change token: the dump reader gives an integer for a
   * vector written with the digits 0 and 1 only, and a string otherwise.
   */
  datatype Value = IntValue(n: nat) | StrValue(s: string)

  /** The tokens of a value-change dump that the conversion looks at; `OtherToken` stands for the rest. */
  datatype Token =
    | Scope(ident: string)
    | Upscope
    | Var(varType: string, size: nat, idCode: string, reference: string)
    | ChangeTime(time: nat)
    | ChangeScalar(idCode: string, value: Value)
    | ChangeVector(idCode: string, value: Value)
    | OtherToken

  /** The exceptions the helper raises on a dump whose structure it does not expect. */
  datatype ConvertError =
    | ScopeIndexError            // `scope[-1]` on an empty stack
    | PopFromEmptyStack          // `scope.pop()` on an empty stack
    | UnknownIdCode(idCode: string)  // `by_id[...]` with an identifier no variable declared
    | NoChildren                 // the dump declared no top-level scope or signal

  /** A node's position: the child index taken at each level, starting from the root. */
  type Path = seq<nat>

  // ----- Decimal formatting of integer values -----

  function DigitChar(d: nat): char
    requires d < 10
  {
    (48 + d) as char
  }

  predicate AllDigits(s: string)
  {
    forall i :: 0 <= i < |s| ==> '0' <= s[i] <= '9'
  }

  /** The number a string of decimal digits denotes. */
  function DigitsValue(s: string): nat
    requires AllDigits(s)
  {
    if s == [] then 0 else DigitsValue(s[..|s| - 1]) * 10 + (s[|s| - 1] as int - 48)
  }

  /** The shortest decimal numeral of `n`. */
  function Decimal(n: nat): string
  {
    if n < 10 then [DigitChar(n)] else Decimal(n / 10) + [DigitChar(n % 10)]
  }

  function ZeroDigits(k: nat): (z: string)
    ensures |z| == k && AllDigits(z)
  {
    seq(k, _ => '0')
  }

  lemma {:induction false} DecimalDenotes(n: nat)
    ensures |Decimal(n)| >= 1 && AllDigits(Decimal(n))
    ensures DigitsValue(Decimal(n)) == n
    ensures n > 0 ==> Decimal(n)[0] != '0'
    decreases n
  {
    if n >= 10 {
      DecimalDenotes(n / 10);
      var d := Decimal(n);
      assert d[..|d| - 1] == Decimal(n / 10);
      assert d[0] == Decimal(n / 10)[0];
    }
  }

  lemma {:induction false} LeadingZerosDenoteNothing(k: nat, d: string)
    requires AllDigits(d)
    ensures AllDigits(ZeroDigits(k) + d) && DigitsValue(ZeroDigits(k) + d) == DigitsValue(d)
    decreases |d|
  {
    var s := ZeroDigits(k) + d;
    if d == [] {
      assert s == ZeroDigits(k);
      ZerosDenoteZero(k);
    } else {
      assert s[..|s| - 1] == ZeroDigits(k) + d[..|d| - 1];
      LeadingZerosDenoteNothing(k, d[..|d| - 1]);
    }
  }

  lemma {:induction false} ZerosDenoteZero(k: nat)
    ensures DigitsValue(ZeroDigits(k)) == 0
    decreases k
  {
    if k > 0 {
      assert ZeroDigits(k)[..k - 1] == ZeroDigits(k - 1);
      ZerosDenoteZero(k - 1);
    }
  }

  /**
   * Python's `f"{value:0{width}d}"`: the decimal digits of `value`, padded on
   * the left with zeros to at least `width` characters and no further.
   */
  function FormatInt(n: nat, width: nat): (s: string)
    ensures AllDigits(s) && DigitsValue(s) == n
    ensures |s| >= width && |s| >= 1
    ensures |s| > width && |s| > 1 ==> s[0] != '0'
  {
    DecimalDenotes(n);
    var d := Decimal(n);
    if |d| >= width then d
    else
      LeadingZerosDenoteNothing(width - |d|, d);
      ZeroDigits(width - |d|) + d
  }

  /** The value stored in a sample: integers are formatted to the signal's width, strings are kept. */
  function FormatValue(v: Value, width: nat): string
  {
    match v
    case IntValue(n) => FormatInt(n, width)
    case StrValue(s) => s
  }

  // ----- The tree, addressed by paths -----

  /** The node at path `p`, if there is one. */
  function At(t: WaveNode, p: Path): Option<WaveNode>
    decreases |p|
  {
    if p == [] then Some(t)
    else if t.Struct? && p[0] < |t.children| then At(t.children[p[0]], p[1..])
    else None
  }

  predicate IsScope(t: WaveNode, p: Path)
  {
    At(t, p).Some? && At(t, p).value.Struct?
  }

  predicate IsLeaf(t: WaveNode, p: Path)
  {
    At(t, p).Some? && At(t, p).value.Signal?
  }

  /** `node["children"].append(c)` for the scope at `p`. */
  function AddChild(t: WaveNode, p: Path, c: WaveNode): (r: WaveNode)
    requires IsScope(t, p)
    ensures r.Struct? && r.name == t.name && |r.children| >= |t.children|
    decreases |p|
  {
    if p == [] then t.(children := t.children + [c])
    else t.(children := t.children[p[0] := AddChild(t.children[p[0]], p[1..], c)])
  }

  /** `signal["data"].append(s)` for the signal at `p`. */
  function AddSample(t: WaveNode, p: Path, s: Sample): (r: WaveNode)
    requires IsLeaf(t, p)
    ensures r.Struct? == t.Struct? && r.name == t.name && (r.Struct? ==> |r.children| == |t.children|)
    decreases |p|
  {
    if p == [] then t.(data := t.data + [s])
    else t.(children := t.children[p[0] := AddSample(t.children[p[0]], p[1..], s)])
  }

  /** Following `p` and then `q` is following `p + q`. */
  lemma {:induction false} AtConcat(t: WaveNode, p: Path, q: Path)
    ensures At(t, p + q) == (if At(t, p).Some? then At(At(t, p).value, q) else None)
    decreases |p|
  {
    if p != [] {
      assert (p + q)[0] == p[0] && (p + q)[1..] == p[1..] + q;
      if t.Struct? && p[0] < |t.children| {
        AtConcat(t.children[p[0]], p[1..], q);
      }
    } else {
      assert p + q == q;
    }
  }

  /** After `AddChild`, the scope at `p` has `c` as its new last child. */
  lemma {:induction false} AddChildAt(t: WaveNode, p: Path, c: WaveNode)
    requires IsScope(t, p)
    ensures At(AddChild(t, p, c), p) == Some(At(t, p).value.(children := At(t, p).value.children + [c]))
    decreases |p|
  {
    if p != [] {
      AddChildAt(t.children[p[0]], p[1..], c);
    }
  }

  /** `AddChild` keeps every scope a scope and every signal as it was. */
  lemma {:induction false} AddChildKeeps(t: WaveNode, p: Path, c: WaveNode, q: Path)
    requires IsScope(t, p) && At(t, q).Some?
    ensures IsScope(t, q) ==> IsScope(AddChild(t, p, c), q)
    ensures IsLeaf(t, q) ==> At(AddChild(t, p, c), q) == At(t, q)
    decreases |q|
  {
    var r := AddChild(t, p, c);
    if q != [] {
      if p != [] && p[0] == q[0] {
        AddChildKeeps(t.children[p[0]], p[1..], c, q[1..]);
      } else {
        assert r.children[q[0]] == t.children[q[0]];
      }
    }
  }

  /** After `AddSample`, the signal at `p` has `s` as its new last sample. */
  lemma {:induction false} AddSampleAt(t: WaveNode, p: Path, s: Sample)
    requires IsLeaf(t, p)
    ensures At(AddSample(t, p, s), p) == Some(At(t, p).value.(data := At(t, p).value.data + [s]))
    decreases |p|
  {
    if p != [] {
      AddSampleAt(t.children[p[0]], p[1..], s);
    }
  }

  /** `AddSample` keeps every scope a scope, every signal a signal, and every other signal as it was. */
  lemma {:induction false} AddSampleKeeps(t: WaveNode, p: Path, s: Sample, q: Path)
    requires IsLeaf(t, p) && At(t, q).Some?
    ensures IsScope(t, q) ==> IsScope(AddSample(t, p, s), q)
    ensures IsLeaf(t, q) ==> IsLeaf(AddSample(t, p, s), q)
    ensures IsLeaf(t, q) && q != p ==> At(AddSample(t, p, s), q) == At(t, q)
    decreases |q|
  {
    var r := AddSample(t, p, s);
    if q != [] && p != [] {
      if p[0] == q[0] {
        AddSampleKeeps(t.children[p[0]], p[1..], s, q[1..]);
        assert q[1..] == p[1..] ==> q == p;
      } else {
        assert r.children[q[0]] == t.children[q[0]];
      }
    }
  }

  lemma AddChildKeepsAll(t: WaveNode, p: Path, c: WaveNode)
    requires IsScope(t, p)
    ensures forall q :: IsScope(t, q) ==> IsScope(AddChild(t, p, c), q)
    ensures forall q :: IsLeaf(t, q) ==> At(AddChild(t, p, c), q) == At(t, q)
  {
    forall q | At(t, q).Some? {
      AddChildKeeps(t, p, c, q);
    }
  }

  lemma AddSampleKeepsAll(t: WaveNode, p: Path, s: Sample)
    requires IsLeaf(t, p)
    ensures forall q :: IsScope(t, q) ==> IsScope(AddSample(t, p, s), q)
    ensures forall q :: IsLeaf(t, q) ==> IsLeaf(AddSample(t, p, s), q)
    ensures forall q :: IsLeaf(t, q) && q != p ==> At(AddSample(t, p, s), q) == At(t, q)
  {
    forall q | At(t, q).Some? {
      AddSampleKeeps(t, p, s, q);
    }
  }

  /** The new child of the scope at `p` sits at `p` extended by the scope's former child count. */
  lemma NewChildAt(t: WaveNode, p: Path, c: WaveNode)
    requires IsScope(t, p)
    ensures At(AddChild(t, p, c), p + [|At(t, p).value.children|]) == Some(c)
  {
    AddChildAt(t, p, c);
    AtConcat(AddChild(t, p, c), p, [|At(t, p).value.children|]);
  }

  // ----- The conversion -----

  /** The helper's local state: `root`, `scope`, `by_id` and `time`. */
  datatype Builder = Builder(root: WaveNode, scope: seq<Path>, byId: map<string, Path>, time: nat)

  /** Every path on the stack leads to a scope and every indexed path to a signal. */
  ghost predicate Inv(b: Builder)
  {
    && b.root.Struct? && b.root.name == "design"
    && (forall i :: 0 <= i < |b.scope| ==> IsScope(b.root, b.scope[i]))
    && (forall id :: id in b.byId ==> IsLeaf(b.root, b.byId[id]))
  }

  /** The synthetic `design` root, alone on the stack. */
  function Initial(): (b: Builder)
    ensures Inv(b)
  {
    Builder(Struct("design", []), [[]], map[], 0)
  }

  /** The number of children of the scope at `p`. */
  function ChildCount(t: WaveNode, p: Path): nat
    requires IsScope(t, p)
  {
    |At(t, p).value.children|
  }

  /** A `SCOPE` token on a non-empty stack. */
  function Open(b: Builder, ident: string): (r: Builder)
    requires Inv(b) && |b.scope| > 0
    ensures Inv(r)
  {
    var top := b.scope[|b.scope| - 1];
    var c := Struct(ident, []);
    AddChildKeepsAll(b.root, top, c);
    NewChildAt(b.root, top, c);
    b.(root := AddChild(b.root, top, c), scope := b.scope + [top + [ChildCount(b.root, top)]])
  }

  /** A `VAR` token on a non-empty stack. */
  function Declare(b: Builder, varType: string, size: nat, idCode: string, reference: string): (r: Builder)
    requires Inv(b) && |b.scope| > 0
    ensures Inv(r)
  {
    var top := b.scope[|b.scope| - 1];
    var c := Signal(reference, varType, size, []);
    AddChildKeepsAll(b.root, top, c);
    NewChildAt(b.root, top, c);
    b.(root := AddChild(b.root, top, c), byId := b.byId[idCode := top + [ChildCount(b.root, top)]])
  }

  /** A `CHANGE_SCALAR` or `CHANGE_VECTOR` token for a declared identifier. */
  function Record(b: Builder, idCode: string, v: Value): (r: Builder)
    requires Inv(b) && idCode in b.byId
    ensures Inv(r)
  {
    var p := b.byId[idCode];
    var s := Sample(b.time, FormatValue(v, At(b.root, p).value.width));
    AddSampleKeepsAll(b.root, p, s);
    b.(root := AddSample(b.root, p, s))
  }

  /** One iteration of the helper's loop. */
  function Step(b: Builder, tok: Token): (r: Result<Builder, ConvertError>)
    requires Inv(b)
    ensures r.Success? ==> Inv(r.value)
  {
    match tok
    case Scope(ident) =>
      if |b.scope| == 0 then Failure(ScopeIndexError) else Success(Open(b, ident))
    case Upscope =>
      if |b.scope| == 0 then Failure(PopFromEmptyStack) else Success(b.(scope := b.scope[..|b.scope| - 1]))
    case Var(varType, size, idCode, reference) =>
      if |b.scope| == 0 then Failure(ScopeIndexError) else Success(Declare(b, varType, size, idCode, reference))
    case ChangeTime(t) => Success(b.(time := t))
    case ChangeScalar(idCode, v) =>
      if idCode in b.byId then Success(Record(b, idCode, v)) else Failure(UnknownIdCode(idCode))
    case ChangeVector(idCode, v) =>
      if idCode in b.byId then Success(Record(b, idCode, v)) else Failure(UnknownIdCode(idCode))
    case OtherToken => Success(b)
  }

  /** The helper's state after the loop has consumed `tokens`, or the exception that stopped it. */
  function Run(tokens: seq<Token>): (r: Result<Builder, ConvertError>)
    ensures r.Success? ==> Inv(r.value)
    decreases |tokens|
  {
    if tokens == [] then Success(Initial())
    else
      match Run(tokens[..|tokens| - 1])
      case Failure(e) => Failure(e)
      case Success(b) => Step(b, tokens[|tokens| - 1])
  }

  /** The helper's return value: the root when it has several children, else its only (last) child. */
  function Finish(root: WaveNode): (r: Result<WaveNode, ConvertError>)
    requires root.Struct?
    ensures r.Success? <==> |root.children| >= 1
    ensures |root.children| > 1 ==> r == Success(root)
    ensures |root.children| == 1 ==> r == Success(root.children[0])
    ensures |root.children| == 0 ==> r == Failure(NoChildren)
  {
    if |root.children| > 1 then Success(root)
    else if |root.children| == 0 then Failure(NoChildren)
    else Success(root.children[|root.children| - 1])
  }

  /** `vcd_to_d3wave` on a dump made of `tokens`. */
  function Convert(tokens: seq<Token>): (r: Result<WaveNode, ConvertError>)
    ensures r.Success? <==> Run(tokens).Success? && |Run(tokens).value.root.children| >= 1
    ensures Run(tokens).Failure? ==> r == Failure(Run(tokens).error)
    ensures Run(tokens).Success? && r.Failure? ==> r.error == NoChildren
    ensures r.Success? && |Run(tokens).value.root.children| > 1 ==> r.value.name == "design"
  {
    match Run(tokens)
    case Failure(e) => Failure(e)
    case Success(b) => Finish(b.root)
  }

  /** The helper's loop, updating its four locals token by token. */
  method VcdToD3Wave(tokens: seq<Token>) returns (r: Result<WaveNode, ConvertError>)
    ensures r == Convert(tokens)
  {
    var root := Struct("design", []);
    var scope: seq<Path> := [[]];
    var byId: map<string, Path> := map[];
    var time: nat := 0;
    for i := 0 to |tokens|
      invariant Run(tokens[..i]) == Success(Builder(root, scope, byId, time))
    {
      RunExtends(tokens, i, Builder(root, scope, byId, time));
      var tok := tokens[i];
      var raised: Option<ConvertError> := None;
      if tok.Scope? || tok.Var? {
        if |scope| == 0 {
          raised := Some(ScopeIndexError);
        } else {
          var top := scope[|scope| - 1];
          var n := |At(root, top).value.children|;
          if tok.Scope? {
            root := AddChild(root, top, Struct(tok.ident, []));
            scope := scope + [top + [n]];
          } else {
            root := AddChild(root, top, Signal(tok.reference, tok.varType, tok.size, []));
            byId := byId[tok.idCode := top + [n]];
          }
        }
      } else if tok.Upscope? {
        if |scope| == 0 {
          raised := Some(PopFromEmptyStack);
        } else {
          scope := scope[..|scope| - 1];
        }
      } else if tok.ChangeTime? {
        time := tok.time;
      } else if tok.ChangeScalar? || tok.ChangeVector? {
        if tok.idCode !in byId {
          raised := Some(UnknownIdCode(tok.idCode));
        } else {
          var p := byId[tok.idCode];
          root := AddSample(root, p, Sample(time, FormatValue(tok.value, At(root, p).value.width)));
        }
      }
      if raised.Some? {
        FailureSticks(tokens, i + 1);
        return Failure(raised.value);
      }
    }
    assert tokens[..|tokens|] == tokens;
    if |root.children| > 1 {
      r := Success(root);
    } else if |root.children| == 0 {
      r := Failure(NoChildren);
    } else {
      r := Success(root.children[|root.children| - 1]);
    }
  }

  // ----- Properties -----

  /** Once a token raises, the rest of the dump is not looked at. */
  lemma {:induction false} FailureSticks(tokens: seq<Token>, i: nat)
    requires i <= |tokens| && Run(tokens[..i]).Failure?
    ensures Run(tokens) == Run(tokens[..i])
    decreases |tokens| - i
  {
    if i < |tokens| {
      assert tokens[..i + 1][..i] == tokens[..i];
      FailureSticks(tokens, i + 1);
    } else {
      assert tokens[..i] == tokens;
    }
  }

  /**
   * A `SCOPE` token appends an empty scope to the children of the scope on
   * top of the stack and pushes it; signals are untouched. On an empty stack
   * it raises `IndexError`.
   */
  lemma ScopeOpensChild(b: Builder, ident: string)
    requires Inv(b)
    ensures |b.scope| == 0 ==> Step(b, Scope(ident)) == Failure(ScopeIndexError)
    ensures |b.scope| > 0 ==>
      var top := b.scope[|b.scope| - 1];
      var r := Step(b, Scope(ident));
      && r.Success? && |r.value.scope| == |b.scope| + 1 && r.value.scope[..|b.scope|] == b.scope
      && r.value.scope[|b.scope|][..|top|] == top
      && At(r.value.root, r.value.scope[|b.scope|]) == Some(Struct(ident, []))
      && At(r.value.root, top).value.children == At(b.root, top).value.children + [Struct(ident, [])]
      && r.value.byId == b.byId && r.value.time == b.time
      && (forall q :: IsLeaf(b.root, q) ==> At(r.value.root, q) == At(b.root, q))
  {
    if |b.scope| > 0 {
      var top := b.scope[|b.scope| - 1];
      var r := Step(b, Scope(ident));
      NewChildAt(b.root, top, Struct(ident, []));
      AddChildAt(b.root, top, Struct(ident, []));
      AddChildKeepsAll(b.root, top, Struct(ident, []));
      assert r.value.scope[..|b.scope|] == b.scope;
      assert r.value.scope[|b.scope|][..|top|] == top;
    }
  }

  /** An `UPSCOPE` token pops the stack and changes nothing else; on an empty stack it raises `IndexError`. */
  lemma UpscopeCloses(b: Builder)
    requires Inv(b)
    ensures |b.scope| == 0 ==> Step(b, Upscope) == Failure(PopFromEmptyStack)
    ensures |b.scope| > 0 ==>
      var r := Step(b, Upscope);
      && r.Success? && r.value.scope + [b.scope[|b.scope| - 1]] == b.scope
      && r.value.root == b.root && r.value.byId == b.byId && r.value.time == b.time
  {
  }

  /**
   * A `VAR` token appends a signal without samples to the scope on top of the
   * stack and indexes it by its identifier code, replacing any earlier signal
   * of that code in the index (the earlier one stays in the tree).
   */
  lemma VarDeclaresSignal(b: Builder, varType: string, size: nat, idCode: string, reference: string)
    requires Inv(b)
    ensures |b.scope| == 0 ==> Step(b, Var(varType, size, idCode, reference)) == Failure(ScopeIndexError)
    ensures |b.scope| > 0 ==>
      var top := b.scope[|b.scope| - 1];
      var r := Step(b, Var(varType, size, idCode, reference));
      && r.Success? && idCode in r.value.byId
      && r.value.byId[idCode][..|top|] == top && |r.value.byId[idCode]| == |top| + 1
      && At(r.value.root, r.value.byId[idCode]) == Some(Signal(reference, varType, size, []))
      && (forall id :: id in b.byId && id != idCode ==> id in r.value.byId && r.value.byId[id] == b.byId[id])
      && r.value.byId.Keys == b.byId.Keys + {idCode}
      && r.value.scope == b.scope && r.value.time == b.time
      && (forall q :: IsLeaf(b.root, q) ==> At(r.value.root, q) == At(b.root, q))
  {
    if |b.scope| > 0 {
      var top := b.scope[|b.scope| - 1];
      var c := Signal(reference, varType, size, []);
      var r := Step(b, Var(varType, size, idCode, reference));
      NewChildAt(b.root, top, c);
      AddChildKeepsAll(b.root, top, c);
      assert r.value.byId[idCode][..|top|] == top;
    }
  }

  /**
   * A value change appends one `[time, value]` pair, stamped with the current
   * time, to the signal its identifier code names, with integer values
   * formatted to the signal's width; every other signal is untouched. An
   * identifier no variable declared raises `KeyError`.
   */
  lemma ChangeRecordsSample(b: Builder, tok: Token)
    requires Inv(b) && (tok.ChangeScalar? || tok.ChangeVector?)
    ensures tok.idCode !in b.byId ==> Step(b, tok) == Failure(UnknownIdCode(tok.idCode))
    ensures tok.idCode in b.byId ==>
      var p := b.byId[tok.idCode];
      var leaf := At(b.root, p).value;
      var r := Step(b, tok);
      && r.Success?
      && At(r.value.root, p) == Some(leaf.(data := leaf.data + [Sample(b.time, FormatValue(tok.value, leaf.width))]))
      && r.value.scope == b.scope && r.value.byId == b.byId && r.value.time == b.time
      && (forall q :: IsLeaf(b.root, q) && q != p ==> At(r.value.root, q) == At(b.root, q))
  {
    if tok.idCode in b.byId {
      var p := b.byId[tok.idCode];
      var s := Sample(b.time, FormatValue(tok.value, At(b.root, p).value.width));
      AddSampleAt(b.root, p, s);
      AddSampleKeepsAll(b.root, p, s);
    }
  }

  /**
   * The returned tree: the synthetic root when the dump declared several
   * top-level nodes, the single top-level node otherwise, and `IndexError`
   * when it declared none.
   */
  lemma ConvertResult(tokens: seq<Token>)
    ensures Run(tokens).Failure? ==> Convert(tokens) == Failure(Run(tokens).error)
    ensures Run(tokens).Success? ==>
      var root := Run(tokens).value.root;
      && (Convert(tokens).Success? <==> |root.children| >= 1)
      && (|root.children| > 1 ==> Convert(tokens) == Success(root) && root.name == "design")
      && (|root.children| == 1 ==> Convert(tokens) == Success(root.children[0]))
  {
  }

  /** A dump of one scope `top` declaring a two-bit signal `count` that is 0 at time 0 and 1 at time 1. */
  function CounterDump(): seq<Token>
  {
    [Scope("top"), Var("wire", 2, "!", "count"), Upscope,
     ChangeTime(0), ChangeVector("!", IntValue(0)),
     ChangeTime(1), ChangeVector("!", IntValue(1))]
  }

  /** The tree while the counter dump is read, once `count` is declared. */
  function CounterTree(data: seq<Sample>): WaveNode
  {
    Struct("design", [Struct("top", [Signal("count", "wire", 2, data)])])
  }

  /** One more token of a dump whose prefix has been read. */
  lemma RunExtends(tokens: seq<Token>, k: nat, b: Builder)
    requires k < |tokens| && Run(tokens[..k]) == Success(b)
    ensures Run(tokens[..k + 1]) == Step(b, tokens[k])
  {
    assert tokens[..k + 1][..k] == tokens[..k];
  }

  /** A time change on a dump whose prefix has been read. */
  lemma RunSetsTime(tokens: seq<Token>, k: nat, b: Builder)
    requires k < |tokens| && tokens[k].ChangeTime? && Run(tokens[..k]) == Success(b)
    ensures Run(tokens[..k + 1]) == Success(b.(time := tokens[k].time))
  {
    RunExtends(tokens, k, b);
  }

  lemma CounterOpensTop(b: Builder)
    requires Inv(b) && b == Initial()
    ensures Step(b, Scope("top")) == Success(Builder(Struct("design", [Struct("top", [])]), [[], [0]], map[], 0))
  {
    assert AddChild(b.root, [], Struct("top", [])) == Struct("design", [Struct("top", [])]);
    assert ChildCount(b.root, []) == 0;
    assert b.scope[|b.scope| - 1] == [];
    assert [] + [0] == [0];
    assert Open(b, "top") == Builder(Struct("design", [Struct("top", [])]), [[], [0]], map[], 0);
  }

  lemma CounterDeclaresCount(b: Builder)
    requires Inv(b) && b == Builder(Struct("design", [Struct("top", [])]), [[], [0]], map[], 0)
    ensures Step(b, Var("wire", 2, "!", "count")) == Success(Builder(CounterTree([]), [[], [0]], map["!" := [0, 0]], 0))
  {
    var sig := Signal("count", "wire", 2, []);
    assert [0][1..] == [];
    assert AddChild(Struct("top", []), [], sig) == Struct("top", [sig]);
    assert AddChild(b.root, [0], sig) == CounterTree([]);
    assert [0] + [0] == [0, 0];
  }

  lemma CounterRecords(b: Builder, n: nat, before: seq<Sample>, after: seq<Sample>)
    requires Inv(b) && b == Builder(CounterTree(before), [[]], map["!" := [0, 0]], n)
    requires n < 2 && after == before + [Sample(n, FormatValue(IntValue(n), 2))]
    ensures Step(b, ChangeVector("!", IntValue(n))) == Success(b.(root := CounterTree(after)))
  {
    var s := Sample(n, FormatValue(IntValue(n), 2));
    var sig := Signal("count", "wire", 2, before);
    assert [0, 0][1..] == [0] && [0][1..] == [];
    assert AddSample(sig, [], s) == sig.(data := after);
    assert [sig][0 := sig.(data := after)] == [sig.(data := after)];
    assert AddSample(Struct("top", [sig]), [0], s) == Struct("top", [sig.(data := after)]);
    assert [Struct("top", [sig])][0 := Struct("top", [sig.(data := after)])] == [Struct("top", [sig.(data := after)])];
    assert AddSample(b.root, [0, 0], s) == CounterTree(after);
    assert At(b.root, [0, 0]) == Some(sig);
  }

  lemma TwoDigitValues()
    ensures FormatValue(IntValue(0), 2) == "00" && FormatValue(IntValue(1), 2) == "01"
  {
    assert Decimal(0) == "0" && Decimal(1) == "1";
  }

  /** The helper's state once the counter dump's header (up to the closing of `top`) has been read. */
  lemma CounterDumpHeader()
    ensures Run(CounterDump()[..3]) == Success(Builder(CounterTree([]), [[]], map["!" := [0, 0]], 0))
  {
    var tokens := CounterDump();
    assert tokens[..0] == [];
    var b1 := Builder(Struct("design", [Struct("top", [])]), [[], [0]], map[], 0);
    RunExtends(tokens, 0, Initial());
    CounterOpensTop(Initial());
    var b2 := Builder(CounterTree([]), [[], [0]], map["!" := [0, 0]], 0);
    RunExtends(tokens, 1, b1);
    CounterDeclaresCount(b1);
    RunExtends(tokens, 2, b2);
  }

  /** The helper's state once the counter dump's first value has been recorded. */
  lemma CounterDumpFirstValue()
    ensures Run(CounterDump()[..5]) == Success(Builder(CounterTree([Sample(0, "00")]), [[]], map["!" := [0, 0]], 0))
  {
    var tokens := CounterDump();
    var b3 := Builder(CounterTree([]), [[]], map["!" := [0, 0]], 0);
    CounterDumpHeader();
    RunSetsTime(tokens, 3, b3);
    ReadFirstValue(tokens, b3);
  }

  lemma ReadFirstValue(tokens: seq<Token>, b4: Builder)
    requires tokens == CounterDump()
    requires b4 == Builder(CounterTree([]), [[]], map["!" := [0, 0]], 0) && Run(tokens[..4]) == Success(b4)
    ensures Run(tokens[..5]) == Success(b4.(root := CounterTree([Sample(0, "00")])))
  {
    RunExtends(tokens, 4, b4);
    TwoDigitValues();
    CounterRecords(b4, 0, [], [Sample(0, "00")]);
  }

  /** The helper's state once the whole counter dump has been read. */
  lemma CounterDumpRead()
    ensures Run(CounterDump()[..7]) == Success(Builder(CounterTree([Sample(0, "00"), Sample(1, "01")]), [[]], map["!" := [0, 0]], 1))
  {
    var tokens := CounterDump();
    var b5 := Builder(CounterTree([Sample(0, "00")]), [[]], map["!" := [0, 0]], 0);
    CounterDumpFirstValue();
    RunSetsTime(tokens, 5, b5);
    ReadLastValue(tokens, b5.(time := 1));
  }

  lemma ReadLastValue(tokens: seq<Token>, b6: Builder)
    requires tokens == CounterDump()
    requires b6 == Builder(CounterTree([Sample(0, "00")]), [[]], map["!" := [0, 0]], 1) && Run(tokens[..6]) == Success(b6)
    ensures Run(tokens[..7]) == Success(b6.(root := CounterTree([Sample(0, "00"), Sample(1, "01")])))
  {
    RunExtends(tokens, 6, b6);
    TwoDigitValues();
    CounterRecords(b6, 1, [Sample(0, "00")], [Sample(0, "00"), Sample(1, "01")]);
  }

  /**
   * The counter dump becomes the scope `top` alone (the synthetic root is
   * dropped), with the two values written as two-digit strings.
   */
  lemma CounterDumpConverts()
    ensures Convert(CounterDump())
         == Success(Struct("top", [Signal("count", "wire", 2, [Sample(0, "00"), Sample(1, "01")])]))
  {
    CounterDumpRead();
    assert CounterDump()[..7] == CounterDump();
  }
}
