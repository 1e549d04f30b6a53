/** Sessions: every line recompiles and reruns the whole script, and calls made before are not made again. */
module Repl {
  import opened Syntax
  import opened Values
  import opened Machine
  import opened Lockstep
  import opened Replay
  import opened Retyping
  import opened ByteCode
  import opened InstanceNames
  import Evaluation
  import Correctness
  import TameScripts

  // ===== Running a script again after its types have changed: while control flow stays the same, its calls are
  // answered from the cache.

  // ---------- instructions that stand at the same places ----------

  /** Calls, names and bindings agree; what values are computed with need not. */
  predicate SameRole(a: IR, b: IR) {
    && (a.InvokeFunction? <==> b.InvokeFunction?)
    && (a.GenerateName? || b.GenerateName? || a.AssignVar? || b.AssignVar? ==> a == b)
  }

  ghost predicate SameRoles(code: seq<IR>, prog: seq<IR>) {
    hide *;
    |code| <= |prog| && forall i :: 0 <= i < |code| ==> SameRole(code[i], prog[i])
  }

  lemma BareRole(a: IR, b: IR, k: nat)
    requires BareIR(a) == BareIR(b)
    ensures SameRole(a, ByteCode.Relabel(b, k))
  {
  }

  lemma {:induction false} BareRoles(code: seq<IR>, other: seq<IR>, k: nat, more: seq<IR>)
    requires BareCode(code) == BareCode(other)
    ensures SameRoles(code, Extended(other, k, more))
  {
    hide BareIR, SameRole;
    assert |code| == |other|;
    var prog := Extended(other, k, more);
    forall i | 0 <= i < |code| ensures SameRole(code[i], prog[i]) {
      assert BareCode(code)[i] == BareCode(other)[i];
      BareRole(code[i], other[i], k);
    }
  }

  // ---------- the session and the recording of the old program ----------

  /** The same positions and answers; the arguments may have other types. */
  ghost predicate SameAnswers(a: seq<Answered>, b: seq<Answered>) {
    |a| == |b| && forall i :: 0 <= i < |a| ==> a[i].position == b[i].position && a[i].answer == b[i].answer
  }

  /** For m steps the new program is where the old one has been. */
  ghost predicate SameFlow<S>(o: Outside<S>, code: seq<IR>, prog: seq<IR>, base: ReplHost<S>, c: Config<ReplHost<S>>,
                              t: Config<Tape>, m: nat) {
    hide *;
    forall i: nat :: i <= m ==>
      var x, y := RunN(ReplWorld(o), prog, c, i), RunN(RecordOf(o, base), code, t, i);
      x.Run? && y.Run? && x.pc == y.pc
  }

  /** Same place, same variables bound, and of the host only the count of names and the trace have changed. */
  ghost predicate Follows<S>(c: Config<ReplHost<S>>, t: Config<Tape>, base: ReplHost<S>) {
    hide *;
    && c.Run? && t.Run? && c.pc == t.pc && c.st.env.Keys == t.st.env.Keys && t.st.h.ok
    && c.st.h == base.(names := base.names.(count := t.st.h.count), trace := c.st.h.trace)
    && SameAnswers(c.st.h.trace, t.st.h.trace)
  }

  lemma {:induction false} EnvStays<H>(w: World<H>, ir: IR, p: nat, st: State<H>)
    requires hide *; !TalksToHost(ir) && !ir.AssignVar?
    ensures Exec(w, ir, p, st).Next? ==> Exec(w, ir, p, st).st.env == st.env
    ensures Exec(w, ir, p, st).Goto? ==> Exec(w, ir, p, st).st.env == st.env
  {
    hide Operation, Arity, TopN, TopSink, Values.Compute;
  }

  lemma {:induction false} PureFollows<S>(o: Outside<S>, code: seq<IR>, prog: seq<IR>, c: Config<ReplHost<S>>,
                                          t: Config<Tape>, base: ReplHost<S>)
    requires hide InvokeIn, NameIn, Step, RecordOf, SameRole, SameAnswers;
             Follows(c, t, base) && t.pc < |code| <= |prog| && SameRole(code[t.pc], prog[t.pc]) && !TalksToHost(code[t.pc])
    requires var x, y := Step(ReplWorld(o), prog, c), Step(RecordOf(o, base), code, t); x.Run? && y.Run? && x.pc == y.pc
    ensures Follows(Step(ReplWorld(o), prog, c), Step(RecordOf(o, base), code, t), base)
  {
    hide Exec, FindLabel, SameAnswers, ReplWorld, CachedResult;
    var w, v := ReplWorld(o), RecordOf(o, base);
    var ir, jr := code[t.pc], prog[t.pc];
    ExecAlike(w, w, jr, c.pc + 1, c.pc + 1, c.st.stack, c.st.env, c.st.h, c.st.h);
    ExecAlike(v, v, ir, t.pc + 1, t.pc + 1, t.st.stack, t.st.env, t.st.h, t.st.h);
    assert State(c.st.stack, c.st.env, c.st.h) == c.st && State(t.st.stack, t.st.env, t.st.h) == t.st;
    if ir.AssignVar? {
      BindsOne(w, jr, c.pc + 1, c.st);
      BindsOne(v, ir, t.pc + 1, t.st);
    } else {
      EnvStays(w, jr, c.pc + 1, c.st);
      EnvStays(v, ir, t.pc + 1, t.st);
    }
  }

  lemma {:induction false} BindsOne<H>(w: World<H>, ir: IR, p: nat, st: State<H>)
    requires hide *; ir.AssignVar?
    ensures var e := Exec(w, ir, p, st); e.Stop? || (e.Next? && e.st.env.Keys == st.env.Keys + {ir.variable})
  {
    hide Machine.Compute, Invoke, GenerateNameFor, SinkAsList, CheckEmpty, IsBool;
  }

  lemma {:induction false} CallFollows<S>(o: Outside<S>, code: seq<IR>, prog: seq<IR>, c: Config<ReplHost<S>>,
                                          t: Config<Tape>, base: ReplHost<S>)
    requires hide InvokeIn, NameIn, Step, RecordOf, SameRole;
             Follows(c, t, base) && t.pc < |code| <= |prog| && SameRole(code[t.pc], prog[t.pc]) && code[t.pc].InvokeFunction?
    requires LastIndex(base) >= |code|
    requires var x, y := Step(ReplWorld(o), prog, c), Step(RecordOf(o, base), code, t); x.Run? && y.Run? && y.st.h.ok
    ensures Follows(Step(ReplWorld(o), prog, c), Step(RecordOf(o, base), code, t), base)
  {
    hide Exec, Asked, FindLabel, Understood, ArgsToHost;
    InvokeAsks(ReplWorld(o), prog[c.pc], c.pc + 1, c.st);
    InvokeAsks(RecordOf(o, base), code[t.pc], t.pc + 1, t.st);
  }

  lemma {:induction false} NameFollows<S>(o: Outside<S>, code: seq<IR>, prog: seq<IR>, c: Config<ReplHost<S>>,
                                          t: Config<Tape>, base: ReplHost<S>)
    requires hide InvokeIn, NameIn, Step, RecordOf, SameRole, SameAnswers;
             Follows(c, t, base) && t.pc < |code| <= |prog| && SameRole(code[t.pc], prog[t.pc]) && code[t.pc].GenerateName?
    requires var x, y := Step(ReplWorld(o), prog, c), Step(RecordOf(o, base), code, t); x.Run? && y.Run? && y.st.h.ok
    ensures Follows(Step(ReplWorld(o), prog, c), Step(RecordOf(o, base), code, t), base)
  {
    hide Exec, FindLabel, AsInstanceVariable, SameAnswers, ArgsToHost, CachedResult, Understood;
    NameAsks(ReplWorld(o), prog[c.pc], c.pc + 1, c.st);
    NameAsks(RecordOf(o, base), code[t.pc], t.pc + 1, t.st);
    assert forall v :: v in c.st.env <==> v in c.st.env.Keys;
    assert forall v :: v in t.st.env <==> v in t.st.env.Keys;
  }

  lemma {:induction false} StepFollows<S>(o: Outside<S>, code: seq<IR>, prog: seq<IR>, c: Config<ReplHost<S>>,
                                          t: Config<Tape>, base: ReplHost<S>)
    requires hide *;
             t.Run? && Follows(c, t, base) && t.pc < |code| && SameRoles(code, prog) && LastIndex(base) >= |code|
    requires var x, y := Step(ReplWorld(o), prog, c), Step(RecordOf(o, base), code, t);
             x.Run? && y.Run? && x.pc == y.pc && y.st.h.ok
    ensures Follows(Step(ReplWorld(o), prog, c), Step(RecordOf(o, base), code, t), base)
  {
    hide Step, ReplWorld, Follows, SameRole;
    if code[t.pc].InvokeFunction? {
      CallFollows(o, code, prog, c, t, base);
    } else if code[t.pc].GenerateName? {
      NameFollows(o, code, prog, c, t, base);
    } else {
      PureFollows(o, code, prog, c, t, base);
    }
  }

  /** As long as the new program goes where the old one went, its calls are answered from the cache, with the old answers;
      the host is not asked and nothing is written. */
  lemma {:induction false} FlowFollows<S>(o: Outside<S>, code: seq<IR>, prog: seq<IR>, c: Config<ReplHost<S>>,
                                          t: Config<Tape>, base: ReplHost<S>, m: nat) returns (n: nat)
    requires hide *; Follows(c, t, base) && SameRoles(code, prog) && LastIndex(base) >= |code|
    requires SameFlow(o, code, prog, base, c, t, m)
    requires var end := RunN(RecordOf(o, base), code, t, m); end.Run? && end.pc == |code| && end.st.h.ok
    ensures Follows(RunN(ReplWorld(o), prog, c, n), RunN(RecordOf(o, base), code, t, m), base)
    decreases m
  {
    hide Exec, Step, Recorded, ReplWorld, SameRoles, Follows;
    var w, v := ReplWorld(o), RecordOf(o, base);
    Stands(c, t, base);
    if t.pc >= |code| {
      HaltedStays(v, code, t, m);
      n := 0;
    } else {
      assert m > 0;
      var next, after := Step(v, code, t), Step(w, prog, c);
      assert RunN(w, prog, after, 0) == RunN(w, prog, c, 1) && RunN(v, code, next, 0) == RunN(v, code, t, 1);
      RunOk(o.text, base.cache, base.names.cache, code, next, m - 1);
      StepFollows(o, code, prog, c, t, base);
      forall i: nat | i <= m - 1 ensures
        var x, y := RunN(w, prog, after, i), RunN(v, code, next, i);
        x.Run? && y.Run? && x.pc == y.pc
      {
        assert RunN(w, prog, c, i + 1) == RunN(w, prog, after, i) && RunN(v, code, t, i + 1) == RunN(v, code, next, i);
      }
      n := FlowFollows(o, code, prog, after, next, base, m - 1);
      n := n + 1;
    }
  }

  lemma Stands<S>(c: Config<ReplHost<S>>, t: Config<Tape>, base: ReplHost<S>)
    requires Follows(c, t, base)
    ensures c.Run? && t.Run? && c.pc == t.pc
  {
  }

  // ---------- a guard that is known before the run ----------

  /** Every call among the first b instructions has an entry in the cache. */
  ghost predicate CallsCached<S>(prog: seq<IR>, b: nat, h: ReplHost<S>) {
    forall p :: 0 <= p < b && p < |prog| && prog[p].InvokeFunction? ==> p + 1 in h.cache
  }

  /** Log, cache and last position are as they were, and the calls d have got what the cache holds for their positions. */
  ghost predicate OnlyFromCache<S>(a: ReplHost<S>, b: ReplHost<S>, d: seq<Answered>) {
    && b.log == a.log && b.cache == a.cache && b.last == a.last && b.trace == a.trace + d
    && forall x :: x in d ==> FromCache(a, x)
  }

  ghost predicate FromCache<S>(h: ReplHost<S>, x: Answered) { CachedResult(h, x.position) == Some(x.answer) }

  lemma {:induction false} GuardedStep<S>(o: Outside<S>, prog: seq<IR>, pc: nat, a: ReplHost<S>, b: ReplHost<S>,
                                          bound: nat) returns (d: seq<Answered>)
    requires Advanced(o, prog, pc, a, b) && CallsCached(prog, bound, a) && LastIndex(a) >= bound && pc < bound
    ensures OnlyFromCache(a, b, d)
  {
    hide ArgsToHost, Understood, ByteCode.Generate;
    d := b.trace[if |a.trace| <= |b.trace| then |a.trace| else |b.trace|..];
    assert a.trace + [] == a.trace;
  }

  lemma {:induction false} CacheTwice<S>(a: ReplHost<S>, b: ReplHost<S>, c: ReplHost<S>, d: seq<Answered>, e: seq<Answered>)
    requires OnlyFromCache(a, b, d) && OnlyFromCache(b, c, e)
    ensures OnlyFromCache(a, c, d + e)
  {
    assert (a.trace + d) + e == a.trace + (d + e);
    forall x | x in d + e ensures FromCache(a, x) {
      assert x in d || x in e;
      assert x in e ==> FromCache(b, x);
    }
  }

  lemma NothingAsked<S>(a: ReplHost<S>)
    ensures OnlyFromCache(a, a, [])
  {
    assert a.trace + [] == a.trace;
  }

  lemma {:induction false} CachedStill<S>(prog: seq<IR>, b: nat, a: ReplHost<S>, c: ReplHost<S>, d: seq<Answered>)
    requires CallsCached(prog, b, a) && OnlyFromCache(a, c, d)
    ensures CallsCached(prog, b, c) && LastIndex(c) == LastIndex(a)
  {
  }

  /** Under the guard every program, wherever it goes, is answered from the cache until it gets behind b. */
  lemma {:induction false} GuardedRun<S>(o: Outside<S>, prog: seq<IR>, c: Config<ReplHost<S>>, b: nat, m: nat)
      returns (n: nat, d: seq<Answered>)
    requires CallsCached(prog, b, HostOf(c)) && LastIndex(HostOf(c)) >= b
    ensures n <= m && OnlyFromCache(HostOf(c), HostOf(RunN(ReplWorld(o), prog, c, n)), d)
    ensures n == m || Past(RunN(ReplWorld(o), prog, c, n), b)
    decreases m
  {
    hide Step, ReplWorld, Advanced, OnlyFromCache, CallsCached;
    if m == 0 || Past(c, b) {
      n, d := 0, [];
      NothingAsked(HostOf(c));
    } else {
      var next := Step(ReplWorld(o), prog, c);
      StepAdvances(o, prog, c);
      var first := GuardedStep(o, prog, c.pc, HostOf(c), HostOf(next), b);
      CachedStill(prog, b, HostOf(c), HostOf(next), first);
      var rest;
      n, rest := GuardedRun(o, prog, next, b, m - 1);
      CacheTwice(HostOf(c), HostOf(next), HostOf(RunN(ReplWorld(o), prog, next, n)), first, rest);
      n, d := n + 1, first + rest;
    }
  }

  /** The run has failed or has got to position b. */
  predicate Past<H>(c: Config<H>, b: nat) { c.Failed? || c.pc >= b }

  /** The call has an answer in the host. */
  predicate Answerable<S>(o: Outside<S>, host: S, c: CallRecord) {
    hide *;
    var args := ArgsToHost(c.args);
    args.Some? && Understood(o.call(host, HostCall(c.component, c.worker, c.name, args.value, c.result)).1, c.result).Some?
  }

  /** The step makes a call that the cache does not answer and the host does. */
  ghost predicate MakesCall<S>(o: Outside<S>, prog: seq<IR>, c: Config<ReplHost<S>>) {
    hide *;
    && c.Run? && c.pc < |prog| && prog[c.pc].InvokeFunction?
    && Asked(o.text, prog[c.pc], c.st.stack, c.st.env).Some?
    && CachedResult(c.st.h, c.pc + 1).None?
    && Answerable(o, c.st.h.host, Asked(o.text, prog[c.pc], c.st.stack, c.st.env).value.0)
  }

  /** The guard cannot be spared: a step appends to the log exactly if it makes a call at a position without a usable entry
      and gets an answer, and then it appends this call. */
  lemma LogGrowsExactly<S>(o: Outside<S>, prog: seq<IR>, c: Config<ReplHost<S>>)
    ensures hide Answerable, Asked, CachedResult, InvokeIn, NameIn, Step;
            var before, after := HostOf(c).log, HostOf(Step(ReplWorld(o), prog, c)).log;
            if MakesCall(o, prog, c) then
              |after| == |before| + 1 && after[..|before|] == before && after[|before|].position == c.pc + 1
            else after == before
  {
    hide Exec, Asked, FindLabel, ArgsToHost, Understood, Advanced, CachedResult;
    if c.Run? && c.pc < |prog| && prog[c.pc].InvokeFunction? {
      InvokeAsks(ReplWorld(o), prog[c.pc], c.pc + 1, c.st);
    } else if c.Run? {
      StepAdvances(o, prog, c);
      QuietElsewhere(o, prog, c.pc, c.st.h, HostOf(Step(ReplWorld(o), prog, c)));
    }
  }

  lemma {:induction false} QuietElsewhere<S>(o: Outside<S>, prog: seq<IR>, pc: nat, a: ReplHost<S>, b: ReplHost<S>)
    requires hide *; Advanced(o, prog, pc, a, b) && !(pc < |prog| && prog[pc].InvokeFunction?)
    ensures b.log == a.log
  {
    hide CalledAt;
  }

  /** Step i of the run makes such a call. */
  ghost predicate CallsAt<S>(o: Outside<S>, prog: seq<IR>, c: Config<ReplHost<S>>, i: nat) {
    MakesCall(o, prog, RunN(ReplWorld(o), prog, c, i))
  }

  lemma {:induction false} CallsLater<S>(o: Outside<S>, prog: seq<IR>, c: Config<ReplHost<S>>, i: nat)
    ensures hide *; CallsAt(o, prog, c, 0) == MakesCall(o, prog, c)
    ensures CallsAt(o, prog, c, i + 1) == CallsAt(o, prog, Step(ReplWorld(o), prog, c), i)
  {
    hide Step, ReplWorld, MakesCall;
  }

  /** A run leaves the log as it is exactly if none of its steps makes such a call. */
  lemma {:induction false} LogStaysExactly<S>(o: Outside<S>, prog: seq<IR>, c: Config<ReplHost<S>>, m: nat)
    ensures HostOf(c).log <= HostOf(RunN(ReplWorld(o), prog, c, m)).log
    ensures HostOf(RunN(ReplWorld(o), prog, c, m)).log == HostOf(c).log <==> forall i: nat :: i < m ==> !CallsAt(o, prog, c, i)
    decreases m
  {
    hide Step, ReplWorld, MakesCall, CallsAt;
    if m > 0 {
      var next := Step(ReplWorld(o), prog, c);
      LogGrowsExactly(o, prog, c);
      LogStaysExactly(o, prog, next, m - 1);
      CallsLater(o, prog, c, 0);
      if exists i: nat :: i < m - 1 && CallsAt(o, prog, next, i) {
        var i: nat :| i < m - 1 && CallsAt(o, prog, next, i);
        CallsLater(o, prog, c, i);
      } else {
        forall i: nat | 0 < i < m ensures !CallsAt(o, prog, c, i) {
          CallsLater(o, prog, c, i - 1);
        }
      }
    }
  }

  // ===== A session: every line recompiles and reruns the whole script, and calls made before are not made again.

  // ---------- the front end ----------

  /** What parsing and type inference make of a script: typed statements or one of two kinds of errors. */
  datatype Parsed = SyntaxError | TypeError | Typed(es: seq<Expr>)

  type FrontEnd = string -> Parsed

  const SEPARATOR: string := ";\n"

  function AsText(lines: seq<string>): string {
    if lines == [] then "" else if |lines| == 1 then lines[0] else AsText(lines[..|lines| - 1]) + SEPARATOR + lines[|lines| - 1]
  }

  /** A line is itself, and the first lines stand before the others, with one separator between. */
  lemma {:induction false} TextInOrder(a: seq<string>, b: seq<string>)
    requires a != [] && b != []
    ensures |a| == 1 ==> AsText(a) == a[0]
    ensures AsText(a + b) == AsText(a) + ";\n" + AsText(b)
    decreases |b|
  {
    var n := |a + b| - 1;
    if |b| == 1 {
      assert (a + b)[..n] == a;
    } else {
      TextInOrder(a, b[..|b| - 1]);
      assert (a + b)[..n] == a + b[..|b| - 1];
      assert (AsText(a) + ";\n" + AsText(b[..|b| - 1])) + SEPARATOR + b[|b| - 1]
          == AsText(a) + ";\n" + (AsText(b[..|b| - 1]) + SEPARATOR + b[|b| - 1]);
    }
  }

  /** The statements of a script; an empty one has none. */
  function Statements(front: FrontEnd, lines: seq<string>): Option<seq<Expr>> {
    if lines == [] then Some([]) else
    match front(AsText(lines))
    case Typed(es) => Some(es)
    case _ => None
  }

  /** With the next line the statements before it are as they were. */
  ghost predicate StatementsStay(front: FrontEnd, lines: seq<string>, line: string) {
    var a, b := Statements(front, lines), Statements(front, lines + [line]);
    a.Some? && b.Some? ==> a.value <= b.value
  }

  /** With the next line the statements before it may have other types, as when a literal takes the type of a parameter it
      is used for later. */
  ghost predicate StatementsRetyped(front: FrontEnd, lines: seq<string>, line: string) {
    hide *;
    var a, b := Statements(front, lines), Statements(front, lines + [line]);
    a.Some? && b.Some? ==> |a.value| <= |b.value| && BareAll(a.value) == BareAll(b.value[..|a.value|])
  }

  datatype Compiled = NotParsed | NotCompiled | Program(code: seq<IR>)

  function Compile(front: FrontEnd, text: string): Compiled {
    hide *;
    match front(text)
    case SyntaxError => NotParsed
    case TypeError => NotCompiled
    case Typed(es) =>
      var g := GenChunks(Plainly(es), 0);
      if g.Ok? then Program(g.value.code) else NotCompiled
  }

  /** The program of a script; an empty script has an empty one. */
  function CodeOf(front: FrontEnd, lines: seq<string>): Option<seq<IR>> {
    if lines == [] then Some([]) else
    match Compile(front, AsText(lines))
    case Program(code) => Some(code)
    case _ => None
  }

  // ---------- sessions ----------

  /** Lines of the script, the host as the session sees it, and (to state properties) the calls of the committed lines. */
  datatype Session<S> = Session(lines: seq<string>, h: ReplHost<S>, committed: seq<Answered>)

  datatype LineResult = Nothing | CompilationError | RuntimeError | Result(r: RibResult)

  function NewSession<S>(host: S): Session<S> {
    Session([], ReplHost(map[], None, NO_NAMES, host, [], []), [])
  }

  /** The characters with the property White_Space of Unicode. */
  predicate IsSpace(c: char) {
    var n := c as int;
    9 <= n <= 13 || 0x2000 <= n <= 0x200A || n in {0x20, 0x85, 0xA0, 0x1680, 0x2028, 0x2029, 0x202F, 0x205F, 0x3000}
  }

  function TrimLeft(s: string): string { if s != [] && IsSpace(s[0]) then TrimLeft(s[1..]) else s }

  function TrimRight(s: string): string { if s != [] && IsSpace(s[|s| - 1]) then TrimRight(s[..|s| - 1]) else s }

  /** One closing semicolon goes, then the white space around. */
  function Prepared(line: string): string {
    TrimLeft(TrimRight(if line != [] && line[|line| - 1] == ';' then line[..|line| - 1] else line))
  }

  predicate Blank(s: string) { forall c :: c in s ==> IsSpace(c) }

  /** White space around something that neither begins nor ends with any. */
  predicate Around(a: string, t: string, b: string, s: string) {
    s == a + t + b && Blank(a) && Blank(b) && (t != [] ==> !IsSpace(t[0]) && !IsSpace(t[|t| - 1]))
  }

  lemma {:induction false} LeftTrimmed(s: string)
    ensures exists a :: Blank(a) && s == a + TrimLeft(s)
    ensures TrimLeft(s) != [] ==> !IsSpace(TrimLeft(s)[0])
  {
    hide IsSpace;
    if s != [] && IsSpace(s[0]) {
      LeftTrimmed(s[1..]);
      var a :| Blank(a) && s[1..] == a + TrimLeft(s[1..]);
      assert Blank([s[0]] + a) && s == ([s[0]] + a) + TrimLeft(s);
    } else {
      assert Blank([]) && s == [] + TrimLeft(s);
    }
  }

  lemma {:induction false} RightTrimmed(s: string)
    ensures exists b :: Blank(b) && s == TrimRight(s) + b
    ensures TrimRight(s) != [] ==> !IsSpace(TrimRight(s)[|TrimRight(s)| - 1])
  {
    hide IsSpace;
    if s != [] && IsSpace(s[|s| - 1]) {
      RightTrimmed(s[..|s| - 1]);
      var b :| Blank(b) && s[..|s| - 1] == TrimRight(s[..|s| - 1]) + b;
      assert Blank(b + [s[|s| - 1]]) && s == TrimRight(s) + (b + [s[|s| - 1]]);
    } else {
      assert Blank([]) && s == TrimRight(s) + [];
    }
  }

  /** What is left of a line is the line without one closing semicolon and without the white space around. */
  lemma PreparedLine(line: string)
    ensures var s := if line != [] && line[|line| - 1] == ';' then line[..|line| - 1] else line;
            exists a, b :: Around(a, Prepared(line), b, s)
  {
    hide TrimLeft, TrimRight, IsSpace;
    var s := if line != [] && line[|line| - 1] == ';' then line[..|line| - 1] else line;
    RightTrimmed(s);
    LeftTrimmed(TrimRight(s));
    var b :| Blank(b) && s == TrimRight(s) + b;
    var a :| Blank(a) && TrimRight(s) == a + Prepared(line);
    assert Around(a, Prepared(line), b, s);
  }

  function StartOfRun<S>(h: ReplHost<S>): Config<ReplHost<S>> {
    Run(0, State([], map[], h.(names := Reset(h.names), trace := [])))
  }

  /** One line. The run of its program takes the given number of steps. */
  function ExecuteLine<S>(front: FrontEnd, o: Outside<S>, s: Session<S>, line: string, steps: nat): (Session<S>, LineResult) {
    hide *;
    if line == "" then (s, Nothing) else
    var lines := s.lines + [Prepared(line)];
    match Compile(front, AsText(lines))
    case NotParsed => (s, CompilationError)
    case NotCompiled => (s.(h := s.h.(names := Reset(s.h.names))), CompilationError)
    case Program(code) =>
      var end := RunN(ReplWorld(o), code, StartOfRun(s.h), steps);
      var result := Finish(code, end);
      if result.Some? then (Session(lines, HostOf(end).(last := Some(|code|)), HostOf(end).trace), Result(result.value))
      else (s.(h := HostOf(end)), RuntimeError)
  }

  /** The script, the cache and the last position are forgotten; names are not. */
  function ClearAll<S>(s: Session<S>): Session<S> {
    Session([], s.h.(cache := map[], last := None), [])
  }

  // ---------- what holds between the lines ----------

  const BLANK_TAPE: Config<Tape> := Run(0, State([], map[], Tape(0, [], true)))

  ghost predicate RepeatsIn<S>(o: Outside<S>, code: seq<IR>, h: ReplHost<S>, committed: seq<Answered>, m: nat) {
    hide *;
    var end := RunN(RecordOf(o, h), code, BLANK_TAPE, m);
    end.Run? && end.pc == |code| && end.st.h.ok && end.st.h.trace == committed
  }

  /** The cache alone answers all calls of the program, in the committed order and with the committed answers. */
  ghost predicate Repeats<S>(o: Outside<S>, code: seq<IR>, h: ReplHost<S>, committed: seq<Answered>) {
    exists m :: RepeatsIn(o, code, h, committed, m)
  }

  ghost predicate Settled<S>(front: FrontEnd, o: Outside<S>, s: Session<S>) {
    hide *;
    var code := CodeOf(front, s.lines);
    && code.Some? && LastIndex(s.h) == |code.value|
    && Repeats(o, code.value, s.h, s.committed)
    && Increasing(s.committed)
  }

  lemma NewSettled<S>(front: FrontEnd, o: Outside<S>, host: S)
    ensures Settled(front, o, NewSession(host))
  {
    hide Step, ByteCode.Generate, Compile, InstanceNames.Generate;
    var s := NewSession(host);
    assert RunN(RecordOf(o, s.h), [], BLANK_TAPE, 0) == BLANK_TAPE;
    assert RepeatsIn(o, [], s.h, [], 0);
  }

  lemma ClearSettled<S>(front: FrontEnd, o: Outside<S>, s: Session<S>)
    ensures Settled(front, o, ClearAll(s))
  {
    hide Step, ByteCode.Generate, Compile, InstanceNames.Generate;
    assert RunN(RecordOf(o, ClearAll(s).h), [], BLANK_TAPE, 0) == BLANK_TAPE;
    assert RepeatsIn(o, [], ClearAll(s).h, [], 0);
  }

  // ---------- the program of the next line ----------

  lemma FrontCompiles(es: seq<Expr>, more: seq<Expr>, n: nat)
    requires hide *; GenChunks(Plainly(es + more), n).Ok?
    ensures GenChunks(Plainly(more), n).Ok? && GenChunks(Plainly(es), GenChunks(Plainly(more), n).value.last).Ok?
    decreases |more|
  {
    hide Gen, GenChunks, Weight;
    if more == [] {
      assert es + more == es;
      ByteCode.EmptyChunks(n);
    } else {
      var front, last := more[..|more| - 1], more[|more| - 1];
      assert (es + front) + [last] == es + more && front + [last] == more;
      ByteCode.LastChunk(es + front, last, n);
      ByteCode.LastChunk(front, last, n);
      FrontCompiles(es, front, Gen(last, n).value.last);
    }
  }

  /** The old program with its labels moved, then the code of the new statements, whose jumps stay there. */
  lemma Grows(es: seq<Expr>, all: seq<Expr>) returns (k: nat, more: seq<IR>)
    requires hide *; es <= all && GenChunks(Plainly(es), 0).Ok? && GenChunks(Plainly(all), 0).Ok?
    ensures GenChunks(Plainly(all), 0).value.code == Extended(GenChunks(Plainly(es), 0).value.code, k, more)
    ensures ClosedFrom(GenChunks(Plainly(all), 0).value.code, |GenChunks(Plainly(es), 0).value.code|)
  {
    hide Gen, GenChunks, Weight;
    var rest := all[|es|..];
    assert all == es + rest;
    FrontCompiles(es, rest, 0);
    ByteCode.AppendStatements(es, rest, 0);
    var old_, new_ := GenChunks(Plainly(es), 0).value, GenChunks(Plainly(rest), 0).value;
    k, more := new_.last, new_.code;
    NewJumpsStay(all, rest, ByteCode.Shift(old_.code, k), more);
  }

  lemma PlainLabels(es: seq<Expr>)
    requires hide *; GenChunks(Plainly(es), 0).Ok?
    ensures ByteCode.CodeGood(GenChunks(Plainly(es), 0).value, [], 0)
  {
    hide Gen, GenChunks, ByteCode.CodeGood;
    ByteCode.TailsOfPlainly(es);
    ByteCode.ChunksLabels(Plainly(es), 0, 0);
  }

  lemma {:induction false} NewJumpsStay(all: seq<Expr>, rest: seq<Expr>, before: seq<IR>, more: seq<IR>)
    requires hide *; GenChunks(Plainly(all), 0).Ok? && GenChunks(Plainly(rest), 0).Ok?
    requires GenChunks(Plainly(all), 0).value.code == before + more && GenChunks(Plainly(rest), 0).value.code == more
    ensures ClosedFrom(before + more, |before|)
  {
    hide Gen, GenChunks, FindLabel, Plainly;
    PlainLabels(all);
    PlainLabels(rest);
    var prog := before + more;
    forall q | |before| <= q < |prog| && ByteCode.IsJump(prog[q]) && FindLabel(prog, prog[q].target).Some?
      ensures FindLabel(prog, prog[q].target).value >= |before|
    {
      assert prog[q] == more[q - |before|] && prog[q] in more;
      var r := FindLabel(prog, prog[q].target).value;
      var i :| 0 <= i < |more| && more[i] == Label(prog[q].target);
      assert prog[|before| + i] == prog[r];
    }
  }

  /** Whether statements compile does not depend on where labels start. */
  lemma CompilesAnywhere(es: seq<Expr>, n: nat)
    requires hide *; GenChunks(Plainly(es), n).Ok?
    ensures GenChunks(Plainly(es), 0).Ok?
  {
    hide Gen, GenChunks, Weight;
    ByteCode.ChunksShift(Plainly(es), 0, n);
    ByteCode.ShiftPlainly(es, n);
  }

  lemma CodeIsStatements(front: FrontEnd, lines: seq<string>)
    requires hide *; CodeOf(front, lines).Some?
    ensures var es := Statements(front, lines);
            es.Some? && GenChunks(Plainly(es.value), 0).Ok? && CodeOf(front, lines).value == GenChunks(Plainly(es.value), 0).value.code
  {
    hide Gen, GenChunks, Weight;
    if lines == [] {
      ByteCode.EmptyChunks(0);
      assert Plainly([]) == [];
    }
  }

  /** The program of the script so far is the beginning of the next program, up to its labels. */
  lemma NextProgram(front: FrontEnd, lines: seq<string>, line: string) returns (k: nat, more: seq<IR>)
    requires hide *; StatementsStay(front, lines, line)
    requires CodeOf(front, lines).Some? && CodeOf(front, lines + [line]).Some?
    ensures var code := CodeOf(front, lines + [line]).value;
            code == Extended(CodeOf(front, lines).value, k, more) && ClosedFrom(code, |CodeOf(front, lines).value|)
  {
    hide Gen, GenChunks, Weight, CodeOf, Statements;
    CodeIsStatements(front, lines);
    CodeIsStatements(front, lines + [line]);
    k, more := Grows(Statements(front, lines).value, Statements(front, lines + [line]).value);
  }

  /** When statements have been retyped, the next program still has the same calls, names and bindings at the same places. */
  lemma NextRetyped(front: FrontEnd, lines: seq<string>, line: string)
    requires hide *; StatementsRetyped(front, lines, line)
    requires CodeOf(front, lines).Some? && CodeOf(front, lines + [line]).Some?
    ensures SameRoles(CodeOf(front, lines).value, CodeOf(front, lines + [line]).value)
    ensures ClosedFrom(CodeOf(front, lines + [line]).value, |CodeOf(front, lines).value|)
  {
    hide Gen, GenChunks, Weight, CodeOf, Statements, SameRoles, BareCode, BareAll, ClosedFrom, Extended, Bare, BareIR,
         ChunksWeight;
    CodeIsStatements(front, lines);
    CodeIsStatements(front, lines + [line]);
    var es, all := Statements(front, lines).value, Statements(front, lines + [line]).value;
    var now, rest := all[..|es|], all[|es|..];
    assert all == now + rest;
    FrontCompiles(now, rest, 0);
    CompilesAnywhere(now, GenChunks(Plainly(rest), 0).value.last);
    var k, more := Grows(now, all);
    SameScripts(es, now);
    BareRoles(GenChunks(Plainly(es), 0).value.code, GenChunks(Plainly(now), 0).value.code, k, more);
  }

  // ---------- rerunning ----------

  function Rewound<S>(h: ReplHost<S>): ReplHost<S> { h.(names := Reset(h.names), trace := []) }

  lemma StartMirrors<S>(h: ReplHost<S>)
    ensures Mirrors(StartOfRun(h), BLANK_TAPE, Rewound(h)) && Follows(StartOfRun(h), BLANK_TAPE, Rewound(h))
  {
  }

  /** After n steps the run stands at position b; the host has not been asked and nothing has been written, and these calls
      have been answered. */
  ghost predicate Quiet<S>(o: Outside<S>, prog: seq<IR>, h: ReplHost<S>, b: nat, answered: seq<Answered>, n: nat) {
    hide *;
    var c := RunN(ReplWorld(o), prog, StartOfRun(h), n);
    && c.Run? && c.pc == b
    && c.st.h.host == h.host && c.st.h.log == h.log && c.st.h.cache == h.cache && c.st.h.last == h.last
    && c.st.h.names.cache == h.names.cache && c.st.h.trace == answered
  }

  /** Whatever is appended to a settled script, its own part runs without the host: no call is made, nothing is written,
      and the calls get the answers they had before. */
  lemma {:induction false} ReplayMakesNoCalls<S>(o: Outside<S>, code: seq<IR>, h: ReplHost<S>, committed: seq<Answered>,
                                                 k: nat, more: seq<IR>)
      returns (n: nat)
    requires hide *; LastIndex(h) == |code| && Repeats(o, code, h, committed)
    ensures Quiet(o, Extended(code, k, more), h, |code|, committed, n)
  {
    hide Step, RunN, Recorded, ReplWorld, Extended, Follows;
    var m :| RepeatsIn(o, code, h, committed, m);
    StartMirrors(h);
    n := PrefixMirrors(o, code, k, more, StartOfRun(h), BLANK_TAPE, Rewound(h), m);
  }

  /** The recorded run of the old program, and the run of the new one at the same positions. */
  ghost predicate FlowIn<S>(o: Outside<S>, code: seq<IR>, prog: seq<IR>, h: ReplHost<S>, committed: seq<Answered>, m: nat) {
    RepeatsIn(o, code, h, committed, m) && SameFlow(o, code, prog, Rewound(h), StartOfRun(h), BLANK_TAPE, m)
  }

  ghost predicate FlowStays<S>(o: Outside<S>, code: seq<IR>, prog: seq<IR>, h: ReplHost<S>, committed: seq<Answered>) {
    exists m :: FlowIn(o, code, prog, h, committed, m)
  }

  /** The same for a script whose types have changed, as long as that does not change where it goes: no call is made, and
      every position gets its old answer. */
  lemma {:induction false} RetypedMakesNoCalls<S>(o: Outside<S>, code: seq<IR>, prog: seq<IR>, h: ReplHost<S>,
                                                  committed: seq<Answered>)
      returns (n: nat, answered: seq<Answered>)
    requires hide *; LastIndex(h) == |code| && SameRoles(code, prog) && FlowStays(o, code, prog, h, committed)
    ensures Quiet(o, prog, h, |code|, answered, n) && SameAnswers(answered, committed)
  {
    hide Step, RunN, Recorded, ReplWorld, SameRoles, SameFlow, SameAnswers, Mirrors;
    var m :| FlowIn(o, code, prog, h, committed, m);
    StartMirrors(h);
    n := FlowFollows(o, code, prog, StartOfRun(h), BLANK_TAPE, Rewound(h), m);
    answered := RunN(ReplWorld(o), prog, StartOfRun(h), n).st.h.trace;
  }

  /** After n steps the run has failed or got to position b; these calls have been answered, and nothing is in the log or in
      the cache that was not there. */
  ghost predicate Silent<S>(o: Outside<S>, prog: seq<IR>, h: ReplHost<S>, b: nat, answered: seq<Answered>, n: nat) {
    var c := RunN(ReplWorld(o), prog, StartOfRun(h), n);
    Past(c, b) && HostOf(c).log == h.log && HostOf(c).cache == h.cache && HostOf(c).last == h.last && HostOf(c).trace == answered
  }

  lemma {:induction false} QuietIsSilent<S>(o: Outside<S>, prog: seq<IR>, h: ReplHost<S>, b: nat, answered: seq<Answered>,
                                            n: nat)
    requires Quiet(o, prog, h, b, answered, n)
    ensures Silent(o, prog, h, b, answered, n)
  {
    hide RunN, ReplWorld;
  }

  /** If every call of the committed part has an entry in the cache, then the part is silent wherever it goes, and all its
      answers come from the cache. */
  lemma {:induction false} CachedMakesNoCalls<S>(o: Outside<S>, prog: seq<IR>, h: ReplHost<S>, b: nat, steps: nat)
      returns (n: nat, answered: seq<Answered>)
    requires LastIndex(h) == b && b <= |prog| && CallsCached(prog, b, h)
    requires Halted(prog, RunN(ReplWorld(o), prog, StartOfRun(h), steps))
    ensures Silent(o, prog, h, b, answered, n) && forall x :: x in answered ==> FromCache(h, x)
  {
    hide RunN, ReplWorld, Step;
    assert CallsCached(prog, b, HostOf(StartOfRun(h)));
    n, answered := GuardedRun(o, prog, StartOfRun(h), b, steps);
    assert [] + answered == answered;
    forall x | x in answered ensures FromCache(h, x) {
      assert FromCache(StartOfRun(h).st.h, x);
    }
  }

  /** A run cut where its silent part ends: from there on every answer comes from the host and is in the log. */
  lemma {:induction false} RunSplits<S>(o: Outside<S>, prog: seq<IR>, h: ReplHost<S>, b: nat, answered: seq<Answered>,
                                        n: nat, steps: nat)
      returns (d: seq<Answered>)
    requires LastIndex(h) == b && Silent(o, prog, h, b, answered, n) && ClosedFrom(prog, b)
    requires Halted(prog, RunN(ReplWorld(o), prog, StartOfRun(h), steps))
    ensures var end := HostOf(RunN(ReplWorld(o), prog, StartOfRun(h), steps));
            end.log == h.log + d && end.trace == answered + d && forall x :: x in d ==> x.position > b
  {
    hide Step, RunN, ReplWorld, ClosedFrom;
    var w := ReplWorld(o);
    var c0 := StartOfRun(h);
    var mid := RunN(w, prog, c0, n);
    var rest := if n <= steps then steps - n else 0;
    if n <= steps {
      RunNPlus(w, prog, c0, n, rest);
    } else {
      RunNPlus(w, prog, c0, steps, n - steps);
      HaltedStays(w, prog, RunN(w, prog, c0, steps), n - steps);
      RunNZero(w, prog, mid);
    }
    if mid.Failed? {
      HaltedStays(w, prog, mid, rest);
      d := [];
      assert h.log + [] == h.log && answered + [] == answered;
    } else {
      d := NewCalls(o, prog, mid, rest);
    }
  }

  lemma RunNZero<H>(w: World<H>, prog: seq<IR>, c: Config<H>)
    ensures hide *; RunN(w, prog, c, 0) == c
  {
    hide Step;
  }

  // ---------- one line ----------

  /** The run of the line comes to an end in this many steps. */
  ghost predicate Ends<S>(front: FrontEnd, o: Outside<S>, s: Session<S>, line: string, steps: nat) {
    hide *;
    var c := Compile(front, AsText(s.lines + [Prepared(line)]));
    c.Program? ==> Halted(c.code, RunN(ReplWorld(o), c.code, StartOfRun(s.h), steps))
  }

  /** The run ends, and a line that is committed has no call in a loop. */
  ghost predicate Orderly<S>(front: FrontEnd, o: Outside<S>, s: Session<S>, line: string, steps: nat) {
    hide *;
    var c := Compile(front, AsText(s.lines + [Prepared(line)]));
    && Ends(front, o, s, line, steps)
    && (c.Program? && ExecuteLine(front, o, s, line, steps).1.Result? ==> NoCallInLoop(c.code))
  }

  lemma {:induction false} InBounds<H>(w: World<H>, prog: seq<IR>, c: Config<H>, m: nat)
    requires hide *; c.Run? ==> c.pc <= |prog|
    ensures RunN(w, prog, c, m).Run? ==> RunN(w, prog, c, m).pc <= |prog|
    decreases m
  {
    hide Exec;
    if m > 0 {
      InBounds(w, prog, Step(w, prog, c), m - 1);
    }
  }

  /** The committed run can be repeated from the cache it leaves. */
  lemma {:induction false} CommittedRepeats<S>(o: Outside<S>, code: seq<IR>, h: ReplHost<S>, steps: nat)
    requires hide *; NoCallInLoop(code)
    requires var end := RunN(ReplWorld(o), code, StartOfRun(h), steps); end.Run? && Halted(code, end)
    ensures var b := HostOf(RunN(ReplWorld(o), code, StartOfRun(h), steps));
            Repeats(o, code, b.(last := Some(|code|)), b.trace) && Increasing(b.trace)
  {
    hide Step, RunN, Recorded, ReplWorld, NoCallInLoop;
    var end := RunN(ReplWorld(o), code, StartOfRun(h), steps);
    InBounds(ReplWorld(o), code, StartOfRun(h), steps);
    RunRecorded(o, code, StartOfRun(h), BLANK_TAPE, steps);
    assert RepeatsIn(o, code, end.st.h.(last := Some(|code|)), end.st.h.trace, steps);
    var d := AnswersInOrder(o, code, StartOfRun(h), steps);
    assert [] + d == d;
  }

  /** A failed run leaves the committed part of the cache as it was. */
  lemma {:induction false} FailureRepeats<S>(o: Outside<S>, code: seq<IR>, h: ReplHost<S>, committed: seq<Answered>,
                                             b: ReplHost<S>)
    requires hide *; Repeats(o, code, h, committed)
    requires forall j :: j <= |code| && j in h.cache ==> j in b.cache && b.cache[j] == h.cache[j]
    requires forall k :: k in h.names.cache ==> k in b.names.cache && b.names.cache[k] == h.names.cache[k]
    ensures Repeats(o, code, b, committed)
  {
    hide Step, RunN, Recorded;
    var m :| RepeatsIn(o, code, h, committed, m);
    RunRicher(o.text, code, BLANK_TAPE, m, h.cache, h.names.cache, b.cache, b.names.cache);
    assert RepeatsIn(o, code, b, committed, m);
  }

  /** Whatever types inference gives to the statements before it, every line whose run ends, and which has no call in a loop
      when it succeeds, leaves a session that repeats its committed calls from the cache. A line that fails changes neither
      the script nor what is committed. */
  lemma {:induction false} ExecuteSettles<S>(front: FrontEnd, o: Outside<S>, s: Session<S>, line: string, steps: nat)
    requires Settled(front, o, s) && Orderly(front, o, s, line, steps)
    ensures var (after, r) := ExecuteLine(front, o, s, line, steps);
            && Settled(front, o, after)
            && (r.RuntimeError? ==> after.lines == s.lines && after.committed == s.committed && after.h.last == s.h.last)
            && (r.CompilationError? || r.Nothing? ==> after.(h := s.h) == s && after.h.log == s.h.log && after.h.host == s.h.host
                                                      && after.h.cache == s.h.cache && after.h.last == s.h.last)
  {
    hide Step, RunN, Recorded, ReplWorld, NoCallInLoop, Finish, Repeats, Settled, Increasing, CodeOf, Compile,
         Orderly, StartOfRun;
    if line != "" {
      match Compile(front, AsText(s.lines + [Prepared(line)]))
      case NotParsed =>
      case NotCompiled =>
        NamesReset(front, o, s);
      case Program(code) =>
        ProgramSettles(front, o, s, line, steps);
    }
  }

  lemma NamesReset<S>(front: FrontEnd, o: Outside<S>, s: Session<S>)
    requires Settled(front, o, s)
    ensures Settled(front, o, s.(h := s.h.(names := Reset(s.h.names))))
  {
    hide Step, RunN, Recorded, CodeOf, Increasing;
    var code := CodeOf(front, s.lines).value;
    var m :| RepeatsIn(o, code, s.h, s.committed, m);
    assert RepeatsIn(o, code, s.h.(names := Reset(s.h.names)), s.committed, m);
  }

  lemma {:induction false} ProgramSettles<S>(front: FrontEnd, o: Outside<S>, s: Session<S>, line: string, steps: nat)
    requires Settled(front, o, s) && Orderly(front, o, s, line, steps) && line != ""
    requires Compile(front, AsText(s.lines + [Prepared(line)])).Program?
    ensures var (after, r) := ExecuteLine(front, o, s, line, steps);
            && Settled(front, o, after)
            && (r.Result? || r.RuntimeError?)
            && (r.RuntimeError? ==> after.lines == s.lines && after.committed == s.committed && after.h.last == s.h.last)
  {
    hide Step, RunN, Recorded, ReplWorld, NoCallInLoop, Finish, Repeats, Increasing, Compile, CodeOf;
    var code := Compile(front, AsText(s.lines + [Prepared(line)])).code;
    var end := RunN(ReplWorld(o), code, StartOfRun(s.h), steps);
    RunKeeps(o, code, StartOfRun(s.h), steps);
    if Finish(code, end).Some? {
      FinishedRuns(code, end);
      CommittedRepeats(o, code, s.h, steps);
      CodeOfLines(front, s.lines, Prepared(line));
    } else {
      FailureRepeats(o, CodeOf(front, s.lines).value, s.h, s.committed, HostOf(end));
    }
  }

  // ---------- the calls of one line ----------

  /** What the script does before the line stays as it is: its statements have not changed, or only their types have and
      that does not change where it goes. */
  ghost predicate CourseStays<S>(front: FrontEnd, o: Outside<S>, s: Session<S>, line: string) {
    hide *;
    var a, b := CodeOf(front, s.lines), CodeOf(front, s.lines + [Prepared(line)]);
    a.Some? && b.Some? ==>
      || StatementsStay(front, s.lines, Prepared(line))
      || (StatementsRetyped(front, s.lines, Prepared(line)) && FlowStays(o, a.value, b.value, s.h, s.committed))
  }

  /** The types before the line may change where the script goes, but all its calls have an entry in the cache; this is known
      before the line is run. */
  ghost predicate Guarded<S>(front: FrontEnd, s: Session<S>, line: string) {
    hide *;
    var a, b := CodeOf(front, s.lines), CodeOf(front, s.lines + [Prepared(line)]);
    a.Some? && b.Some? ==> StatementsRetyped(front, s.lines, Prepared(line)) && CallsCached(b.value, |a.value|, s.h)
  }

  /** Either way the script before the line makes no call again. */
  ghost predicate PrefixStays<S>(front: FrontEnd, o: Outside<S>, s: Session<S>, line: string) {
    CourseStays(front, o, s, line) || Guarded(front, s, line)
  }

  /** The line has called the host for d and nothing else. If it succeeds these calls are committed last; if not, the
      committed calls are as before. */
  ghost predicate Calls<S>(s: Session<S>, after: Session<S>, r: LineResult, d: seq<Answered>) {
    && after.h.log == s.h.log + d
    && (forall x :: x in d ==> x.position > LastIndex(s.h))
    && (r.Result? ==> EndsWith(after.committed, d))
    && (!r.Result? ==> after.committed == s.committed)
    && (r.CompilationError? || r.Nothing? ==> d == [])
  }

  ghost predicate EndsWith(all: seq<Answered>, d: seq<Answered>) { |d| <= |all| && all[|all| - |d|..] == d }

  /** In front of d there are the earlier calls, with their positions and answers. */
  ghost predicate Adds(before: seq<Answered>, now: seq<Answered>, d: seq<Answered>) {
    |now| == |before| + |d| && now[|before|..] == d && SameAnswers(now[..|before|], before)
  }

  /** In front of d there are calls that got their answers from the cache. */
  ghost predicate AddsToCached<S>(h: ReplHost<S>, now: seq<Answered>, d: seq<Answered>) {
    |d| <= |now| && forall i :: 0 <= i < |now| - |d| ==> FromCache(h, now[i])
  }

  lemma {:induction false} PrefixQuiet<S>(front: FrontEnd, o: Outside<S>, s: Session<S>,
                                          line: string) returns (answered: seq<Answered>, n: nat)
    requires hide Compile, FlowStays, LastIndex, Repeats, ReplWorld, RunN, StartOfRun, Statements, StatementsRetyped,
                  Quiet, CodeOf, ClosedFrom, SameAnswers, Prepared, Increasing;
             Settled(front, o, s) && CourseStays(front, o, s, line) && CodeOf(front, s.lines + [Prepared(line)]).Some?
    ensures var code, prog := CodeOf(front, s.lines).value, CodeOf(front, s.lines + [Prepared(line)]).value;
            Quiet(o, prog, s.h, |code|, answered, n) && ClosedFrom(prog, |code|)
    ensures SameAnswers(answered, s.committed)
    ensures StatementsStay(front, s.lines, Prepared(line)) ==> answered == s.committed
  {
    hide Repeats, CodeOf, StatementsStay, StatementsRetyped, Quiet, ClosedFrom, FlowStays, Extended, SameRoles;
    var code, prog := CodeOf(front, s.lines).value, CodeOf(front, s.lines + [Prepared(line)]).value;
    if StatementsStay(front, s.lines, Prepared(line)) {
      var k, more := NextProgram(front, s.lines, Prepared(line));
      n := ReplayMakesNoCalls(o, code, s.h, s.committed, k, more);
      answered := s.committed;
    } else {
      NextRetyped(front, s.lines, Prepared(line));
      n, answered := RetypedMakesNoCalls(o, code, prog, s.h, s.committed);
    }
  }

  lemma {:induction false} PrefixSilent<S>(front: FrontEnd, o: Outside<S>, s: Session<S>, line: string, steps: nat)
      returns (answered: seq<Answered>, n: nat)
    requires hide *; Settled(front, o, s) && PrefixStays(front, o, s, line) && Ends(front, o, s, line, steps)
    requires Compile(front, AsText(s.lines + [Prepared(line)])).Program?
    ensures var prog := Compile(front, AsText(s.lines + [Prepared(line)])).code;
            Silent(o, prog, s.h, LastIndex(s.h), answered, n) && ClosedFrom(prog, LastIndex(s.h))
    ensures CourseStays(front, o, s, line) ==> SameAnswers(answered, s.committed)
    ensures StatementsStay(front, s.lines, Prepared(line)) ==> answered == s.committed
    ensures !CourseStays(front, o, s, line) ==> forall x :: x in answered ==> FromCache(s.h, x)
  {
    hide CodeOf, Compile, StatementsStay, StatementsRetyped, Quiet, Silent, ClosedFrom, CallsCached, SameRoles,
         Settled, RunN, FromCache, SameAnswers, FlowStays, ArgsToHost, ByteCode.Generate, InstanceNames.Generate,
         Understood;
    CodeOfLines(front, s.lines, Prepared(line));
    LastOfSettled(front, o, s);
    var prog := CodeOf(front, s.lines + [Prepared(line)]).value;
    if CourseStays(front, o, s, line) {
      answered, n := PrefixQuiet(front, o, s, line);
      QuietIsSilent(o, prog, s.h, LastIndex(s.h), answered, n);
    } else {
      NextRetyped(front, s.lines, Prepared(line));
      RolesFit(CodeOf(front, s.lines).value, prog);
      n, answered := CachedMakesNoCalls(o, prog, s.h, LastIndex(s.h), steps);
    }
  }

  lemma RolesFit(code: seq<IR>, prog: seq<IR>)
    requires SameRoles(code, prog)
    ensures |code| <= |prog|
  {
    hide SameRole;
  }

  /** The calls a line has made. */
  lemma {:induction false} ExecuteCalls<S>(front: FrontEnd, o: Outside<S>, s: Session<S>, line: string,
                                           steps: nat) returns (d: seq<Answered>)
    requires Settled(front, o, s) && Ends(front, o, s, line, steps) && PrefixStays(front, o, s, line)
    ensures var (after, r) := ExecuteLine(front, o, s, line, steps);
            && Calls(s, after, r, d)
            && (r.Result? && CourseStays(front, o, s, line) ==> Adds(s.committed, after.committed, d))
            && (r.Result? && StatementsStay(front, s.lines, Prepared(line)) ==> after.committed == s.committed + d)
            && (r.Result? && !CourseStays(front, o, s, line) ==> AddsToCached(s.h, after.committed, d))
  {
    hide Step, RunN, ReplWorld, Finish, Settled, CodeOf, StatementsStay, SameAnswers, Silent, ClosedFrom, CourseStays,
         Guarded, FromCache, Compile, PrefixStays, StartOfRun, Prepared, AsText;
    var compiled := Compile(front, AsText(s.lines + [Prepared(line)]));
    d := [];
    assert s.h.log + [] == s.h.log;
    if line != "" && compiled.Program? {
      var answered, n := PrefixSilent(front, o, s, line, steps);
      d := RunSplits(o, compiled.code, s.h, LastIndex(s.h), answered, n, steps);
      var all := answered + d;
      if CourseStays(front, o, s, line) {
        AnswersCount(answered, s.committed);
      }
      assert all[..|answered|] == answered && all[|answered|..] == d;
    }
  }

  lemma AnswersCount(a: seq<Answered>, b: seq<Answered>)
    requires SameAnswers(a, b)
    ensures |a| == |b|
  {
  }

  lemma LastOfSettled<S>(front: FrontEnd, o: Outside<S>, s: Session<S>)
    requires hide *; Settled(front, o, s)
    ensures CodeOf(front, s.lines).Some? && LastIndex(s.h) == |CodeOf(front, s.lines).value|
  {
    hide Repeats, CodeOf, LastIndex, Increasing;
  }

  lemma FinishedRuns<H>(prog: seq<IR>, c: Config<H>)
    requires Finish(prog, c).Some?
    ensures c.Run?
  {
  }

  lemma CodeOfLines(front: FrontEnd, lines: seq<string>, line: string)
    requires hide *; Compile(front, AsText(lines + [line])).Program?
    ensures CodeOf(front, lines + [line]) == Some(Compile(front, AsText(lines + [line])).code)
  {
    hide Compile;
  }

  /** Entries behind the last position, such as those of failed lines, are never read. */
  lemma {:induction false} LateEntriesUnread<S>(o: Outside<S>, h: ReplHost<S>, other: map<nat, Option<ValueAndType>>,
                                                position: nat, c: CallRecord)
    requires hide *;
             forall j :: j <= LastIndex(h) ==> (j in other <==> j in h.cache) && (j in h.cache ==> other[j] == h.cache[j])
    ensures var (a, x) := InvokeIn(o, h, position, c);
            var (b, y) := InvokeIn(o, h.(cache := other), position, c);
            x == y && a.host == b.host && a.log == b.log && a.trace == b.trace
  {
    hide Understood, ArgsToHost;
  }

  /** In a loop the replay differs: all calls of an instruction get the answer its last call has got. */
  lemma {:induction false} LoopsAreNotRepeated<S>(o: Outside<S>, h: ReplHost<S>, position: nat, c: CallRecord, d: CallRecord,
                                                  last: nat)
    requires position > LastIndex(h) && last >= position
    requires var (h1, x) := InvokeIn(o, h, position, c); x.Some? && InvokeIn(o, h1, position, d).1.Some?
    ensures var (h1, x) := InvokeIn(o, h, position, c);
            var (h2, y) := InvokeIn(o, h1, position, d);
            var again := h2.(last := Some(last));
            InvokeIn(o, again, position, c).1 == y && InvokeIn(o, again, position, d).1 == y
  {
    hide ArgsToHost, Understood;
  }

  // ---------- the session as an object ----------

  class ReplState<S(!new)> {
    var ribScript: seq<string>
    var invocationResults: map<nat, Option<ValueAndType>>
    var lastExecutedInstruction: Option<nat>
    var instanceCount: nat
    var workerNameCache: map<nat, string>
    var host: S
    var log: seq<Answered>
    var trace: seq<Answered>
    var committed: seq<Answered>

    function Host(): ReplHost<S>
      reads this
    {
      ReplHost(invocationResults, lastExecutedInstruction, Names(instanceCount, workerNameCache), host, log, trace)
    }

    ghost function Now(): Session<S>
      reads this
    {
      Session(ribScript, Host(), committed)
    }

    constructor (start: S)
      ensures Now() == NewSession(start)
    {
      ribScript, invocationResults, lastExecutedInstruction := [], map[], None;
      instanceCount, workerNameCache, host := 0, map[], start;
      log, trace, committed := [], [], [];
    }

    method UpdateCache(position: nat, result: Option<ValueAndType>)
      modifies this`invocationResults
      ensures invocationResults == old(invocationResults)[position := result]
    {
      invocationResults := invocationResults[position := result];
    }

    method GetCachedResult(position: nat) returns (r: Option<Option<ValueAndType>>)
      ensures r == CachedResult(Host(), position)
    {
      var last := if lastExecutedInstruction.Some? then lastExecutedInstruction.value else 0;
      if position > last {
        return None;
      }
      if position in invocationResults {
        return Some(invocationResults[position]);
      }
      return None;
    }

    /** The call behind an instruction: from the cache, or from the host. */
    method Invoke(o: Outside<S>, position: nat, c: CallRecord) returns (r: Option<Option<ValueAndType>>)
      modifies this
      ensures hide *; (Host(), r) == InvokeIn(o, old(Host()), position, c)
      ensures Passed(o, old(Host()), position, c, host, r)
      ensures ribScript == old(ribScript) && committed == old(committed)
    {
      hide Understood, ArgsToHost, CachedResult, TopN, Passed;
      CallPassed(o, Host(), position, c);
      r := GetCachedResult(position);
      if r.Some? {
        trace := trace + [Answered(position, c, r.value)];
        return;
      }
      var args := ArgsToHost(c.args);
      if args.None? {
        return None;
      }
      var (s, reply) := o.call(host, HostCall(c.component, c.worker, c.name, args.value, c.result));
      host := s;
      r := Understood(reply, c.result);
      if r.Some? {
        UpdateCache(position, r.value);
        log := log + [Answered(position, c, r.value)];
        trace := trace + [Answered(position, c, r.value)];
      }
    }

    method GenerateWorkerName(o: Outside<S>) returns (name: string)
      modifies this
      ensures hide *; (Host(), name) == NameIn(o, old(Host()))
      ensures ribScript == old(ribScript) && committed == old(committed)
    {
      hide NameFor;
      instanceCount := instanceCount + 1;
      if instanceCount in workerNameCache {
        return workerNameCache[instanceCount];
      }
      var (s, uuid) := o.uuid(host);
      host := s;
      name := NameFor(instanceCount, uuid);
      workerNameCache := workerNameCache[instanceCount := name];
    }

    method ResetInstanceCount()
      modifies this`instanceCount
      ensures Host() == old(Host()).(names := Reset(old(Host()).names))
    {
      instanceCount := 0;
    }

    method Clear()
      modifies this
      ensures Now() == ClearAll(old(Now()))
    {
      ribScript, invocationResults, lastExecutedInstruction := [], map[], None;
      committed := [];
    }

    method UpdateRib(line: string)
      modifies this`ribScript
      ensures ribScript == old(ribScript) + [line]
    {
      ribScript := ribScript + [line];
    }

    method RemoveLastRibExpression()
      modifies this`ribScript
      ensures ribScript == if old(ribScript) == [] then [] else old(ribScript)[..|old(ribScript)| - 1]
    {
      if ribScript != [] {
        ribScript := ribScript[..|ribScript| - 1];
      }
    }

    /** Runs a program; the last position only moves when the run succeeds. */
    method Eval(o: Outside<S>, code: seq<IR>, ghost steps: nat) returns (r: Option<RibResult>)
      requires hide *; instanceCount == 0
      requires Halted(code, RunN(ReplWorld(o), code, StartOfRun(Host()), steps))
      modifies this
      ensures ribScript == old(ribScript)
      ensures var end := RunN(ReplWorld(o), code, StartOfRun(old(Host())), steps);
              && r == Finish(code, end)
              && Host() == (if r.Some? then HostOf(end).(last := Some(|code|)) else HostOf(end))
              && committed == if r.Some? then HostOf(end).trace else old(committed)
    {
      hide RunN, Exec, Finish, InvokeIn, NameIn, Weight, Evaluation.Fold, Evaluation.Truth;
      trace := [];
      var start := Host();
      assert StartOfRun(old(Host())) == Run(0, State([], map[], start));
      var h: ReplHost<S>;
      r, h := Interpret(ReplWorld(o), code, map[], start, steps);
      invocationResults, lastExecutedInstruction := h.cache, h.last;
      instanceCount, workerNameCache, host := h.names.count, h.names.cache, h.host;
      log, trace := h.log, h.trace;
      if r.Some? {
        lastExecutedInstruction := Some(|code|);
        committed := h.trace;
      }
    }

    /** A line: append it, compile the whole script, run the whole program, and take the line back on any error. */
    method Execute(front: FrontEnd, o: Outside<S>, line: string, ghost steps: nat) returns (r: LineResult)
      requires hide *; Ends(front, o, Now(), line, steps)
      modifies this
      ensures (Now(), r) == ExecuteLine(front, o, old(Now()), line, steps)
      ensures old(Settled(front, o, Now())) && old(Orderly(front, o, Now(), line, steps)) ==> Settled(front, o, Now())
      ensures old(Settled(front, o, Now())) && old(PrefixStays(front, o, Now(), line)) ==> exists d :: Calls(old(Now()), Now(), r, d)
    {
      hide RunN, Finish, PrefixStays, Settled, GenChunks, NoCallInLoop, AsText, Orderly, Calls, ArmsCost, Bare,
           BareAll, BinaryPlan, CachedResult, CallPlan, ChunkWeight, Exprs, FlowIn, InvokeIn, LeafPlan, ListPlan,
           MatchPlan, NameIn, RangePlan, RecordPlan, SelectPlan, UnaryPlan, WeightAll, WeightFields, WitOfAll,
           WitOfCases, WitOfFields, CourseStays, Evaluation.EvalAll, Gen;
      if Settled(front, o, Now()) && Orderly(front, o, Now(), line, steps) {
        ExecuteSettles(front, o, Now(), line, steps);
      }
      if Settled(front, o, Now()) && PrefixStays(front, o, Now(), line) {
        ghost var d := ExecuteCalls(front, o, Now(), line, steps);
      }
      if line == "" {
        return Nothing;
      }
      UpdateRib(Prepared(line));
      match front(AsText(ribScript)) {
        case SyntaxError =>
          RemoveLastRibExpression();
          return CompilationError;
        case TypeError =>
          ResetInstanceCount();
          RemoveLastRibExpression();
          return CompilationError;
        case Typed(es) =>
          ResetInstanceCount();
          var compiled := FromExpr(Mk(Block(es)));
          BlockIsChunks(es);
          if compiled.Err? {
            RemoveLastRibExpression();
            return CompilationError;
          }
          var result := Eval(o, compiled.value, steps);
          if result.None? {
            RemoveLastRibExpression();
            return RuntimeError;
          }
          return Result(result.value);
      }
    }
  }

  lemma BlockIsChunks(es: seq<Expr>)
    ensures hide *; Gen(Mk(Block(es)), 0) == GenChunks(Plainly(es), 0)
  {
    hide Gen, GenChunks, Weight, MatchPlan, LeafPlan, CallPlan, SelectPlan;
    GenUnfold(Mk(Block(es)), 0);
    assert PlanOf(Mk(Block(es)), 0) == Operands(es, []);
    var g := GenChunks(Plainly(es), 0);
    if g.Ok? {
      assert g.value.code + [] == g.value.code;
    }
  }

  // ===== Whole sessions: what the log of the host holds after any mix of lines and clearings.

  // ---------- events ----------

  datatype Happening = Entered(line: string, steps: nat) | Cleared

  function After<S>(front: FrontEnd, o: Outside<S>, s: Session<S>, e: Happening): Session<S> {
    match e
    case Entered(line, steps) => ExecuteLine(front, o, s, line, steps).0
    case Cleared => ClearAll(s)
  }

  predicate Succeeds<S>(front: FrontEnd, o: Outside<S>, s: Session<S>, e: Happening) {
    hide *;
    e.Entered? && ExecuteLine(front, o, s, e.line, e.steps).1.Result?
  }

  function RunSession<S>(front: FrontEnd, o: Outside<S>, s: Session<S>, events: seq<Happening>): Session<S>
    decreases |events|
  {
    hide *;
    if events == [] then s
    else After(front, o, RunSession(front, o, s, events[..|events| - 1]), events[|events| - 1])
  }

  /** The session before event i. */
  function At<S>(front: FrontEnd, o: Outside<S>, s: Session<S>, events: seq<Happening>, i: nat): Session<S>
    requires hide *; i <= |events|
  {
    RunSession(front, o, s, events[..i])
  }

  lemma {:induction false} AtFront<S>(front: FrontEnd, o: Outside<S>, s: Session<S>, events: seq<Happening>, i: nat)
    requires hide *; events != [] && i < |events|
    ensures At(front, o, s, events, i) == At(front, o, s, events[..|events| - 1], i)
  {
    hide RunSession;
    assert events[..|events| - 1][..i] == events[..i];
  }

  lemma {:induction false} AtEnd<S>(front: FrontEnd, o: Outside<S>, s: Session<S>, events: seq<Happening>)
    ensures hide *; At(front, o, s, events, |events|) == RunSession(front, o, s, events)
  {
    hide RunSession;
    assert events[..|events|] == events;
  }

  /** Every line that is entered comes to an end, and has no call in a loop if it succeeds. */
  ghost predicate AllOrderly<S>(front: FrontEnd, o: Outside<S>, s: Session<S>, events: seq<Happening>) {
    hide *;
    forall i :: 0 <= i < |events| && events[i].Entered?
      ==> Orderly(front, o, At(front, o, s, events, i), events[i].line, events[i].steps)
  }

  /** No line makes the script before it call again. */
  ghost predicate PrefixesStay<S>(front: FrontEnd, o: Outside<S>, s: Session<S>, events: seq<Happening>) {
    hide *;
    forall i :: 0 <= i < |events| && events[i].Entered? ==> PrefixStays(front, o, At(front, o, s, events, i), events[i].line)
  }

  /** No line changes what the script does before it. */
  ghost predicate CoursesStay<S>(front: FrontEnd, o: Outside<S>, s: Session<S>, events: seq<Happening>) {
    hide *;
    forall i :: 0 <= i < |events| && events[i].Entered? ==> CourseStays(front, o, At(front, o, s, events, i), events[i].line)
  }

  /** No line retypes the statements before it. */
  ghost predicate NoneRetyped<S>(front: FrontEnd, o: Outside<S>, s: Session<S>, events: seq<Happening>) {
    hide *;
    forall i :: 0 <= i < |events| && events[i].Entered?
      ==> StatementsStay(front, At(front, o, s, events, i).lines, Prepared(events[i].line))
  }

  lemma {:induction false} FrontOrderly<S>(front: FrontEnd, o: Outside<S>, s: Session<S>, events: seq<Happening>)
    requires hide *; events != []
    ensures AllOrderly(front, o, s, events) ==> AllOrderly(front, o, s, events[..|events| - 1])
    ensures CoursesStay(front, o, s, events) ==> CoursesStay(front, o, s, events[..|events| - 1])
    ensures NoneRetyped(front, o, s, events) ==> NoneRetyped(front, o, s, events[..|events| - 1])
  {
    hide At, Orderly, CourseStays, StatementsStay;
    forall i | 0 <= i < |events| - 1
      ensures At(front, o, s, events, i) == At(front, o, s, events[..|events| - 1], i)
    {
      AtFront(front, o, s, events, i);
    }
  }

  // ---------- lines that end ----------

  /** A line comes to an end when its script is disciplined, although the session answers by position. */
  lemma LineEnds<S(!new)>(front: FrontEnd, o: Outside<S>, s: Session<S>, line: string) returns (steps: nat)
    requires hide *; var es := Statements(front, s.lines + [Prepared(line)]);
             es.Some? ==> Evaluation.Discipline(Mk(Block(es.value))).Some?
    ensures Ends(front, o, s, line, steps)
  {
    hide Step, RunN, ReplWorld, Gen, GenChunks, Evaluation.Discipline, AsText;
    steps := 0;
    var es := Statements(front, s.lines + [Prepared(line)]);
    if es.Some? {
      BlockIsChunks(es.value);
      if Gen(Mk(Block(es.value)), 0).Ok? {
        steps := Correctness.DisciplinedEnds(ReplWorld(o), Mk(Block(es.value)), StartOfRun(s.h).st);
      }
    }
  }

  /** So it is when the statements of its script are bindings and tame expressions. */
  lemma TameLineEnds<S(!new)>(front: FrontEnd, o: Outside<S>, s: Session<S>, line: string) returns (steps: nat)
    requires hide *; var es := Statements(front, s.lines + [Prepared(line)]);
             es.Some? ==> forall i :: 0 <= i < |es.value| ==> TameScripts.TameStatement(es.value[i], false)
    ensures Ends(front, o, s, line, steps)
  {
    hide Ends, Evaluation.Discipline, AsText, TameScripts.TameStatement;
    var es := Statements(front, s.lines + [Prepared(line)]);
    if es.Some? {
      TameScripts.TameScript(es.value);
    }
    steps := LineEnds(front, o, s, line);
  }

  // ---------- repeating what is committed ----------

  /** Over every session that mixes lines that succeed, do not compile or fail, and clearings, whatever inference makes of
      earlier lines: rerunning the committed script makes no call and repeats all answers. */
  lemma {:induction false} SessionsSettle<S>(front: FrontEnd, o: Outside<S>, s: Session<S>, events: seq<Happening>)
    requires Settled(front, o, s) && AllOrderly(front, o, s, events)
    ensures Settled(front, o, RunSession(front, o, s, events))
    decreases |events|
  {
    hide Settled, Orderly, ExecuteLine, CoursesStay, Evaluation.Eval;
    if events != [] {
      var n := |events| - 1;
      FrontOrderly(front, o, s, events);
      SessionsSettle(front, o, s, events[..n]);
      var before := RunSession(front, o, s, events[..n]);
      match events[n] {
        case Entered(line, steps) =>
          assert At(front, o, s, events, n) == before;
          ExecuteSettles(front, o, before, line, steps);
        case Cleared => ClearSettled(front, o, before);
      }
    }
  }

  /** In the terms of a fresh session: the committed script runs again to its end, gives every committed call its answer, and
      leaves host and log alone. */
  lemma {:induction false} CommittedRunsAgain<S>(front: FrontEnd, o: Outside<S>, host: S,
                                                 events: seq<Happening>) returns (steps: nat)
    requires hide *; AllOrderly(front, o, NewSession(host), events)
    ensures var s := RunSession(front, o, NewSession(host), events);
            var code := CodeOf(front, s.lines);
            && code.Some? && Increasing(s.committed)
            && var again := RunN(ReplWorld(o), code.value, StartOfRun(s.h), steps);
               again.Run? && again.pc == |code.value| && again.st.h.trace == s.committed
               && again.st.h.host == s.h.host && again.st.h.log == s.h.log
  {
    hide Step, RunN, ReplWorld, RunSession, CodeOf, Increasing, AllOrderly, Repeats, Extended;
    NewSettled(front, o, host);
    SessionsSettle(front, o, NewSession(host), events);
    var s := RunSession(front, o, NewSession(host), events);
    var code := CodeOf(front, s.lines).value;
    NothingAppended(code);
    steps := ReplayMakesNoCalls(o, code, s.h, s.committed, 0, []);
  }

  lemma NothingAppended(code: seq<IR>)
    ensures hide *; Extended(code, 0, []) == code
  {
    assert forall i :: 0 <= i < |code| ==> ByteCode.Relabel(code[i], 0) == code[i];
  }

  // ---------- the calls of one event ----------

  lemma {:induction false} EventCalls<S>(front: FrontEnd, o: Outside<S>, s: Session<S>,
                                         e: Happening) returns (d: seq<Answered>)
    requires hide CodeOf, Compile, Evaluation.Eval, ExecuteLine, FlowStays, Guarded, Repeats, ReplWorld, RunN,
                  StartOfRun, Statements, StatementsRetyped, Weight;
             Settled(front, o, s)
    requires e.Entered? ==> Ends(front, o, s, e.line, e.steps) && PrefixStays(front, o, s, e.line)
    ensures After(front, o, s, e).h.log == s.h.log + d && forall x :: x in d ==> x.position > LastIndex(s.h)
    ensures Succeeds(front, o, s, e) && CourseStays(front, o, s, e.line) ==> Adds(s.committed, After(front, o, s, e).committed, d)
    ensures Succeeds(front, o, s, e) && StatementsStay(front, s.lines, Prepared(e.line))
            ==> After(front, o, s, e).committed == s.committed + d
    ensures e.Entered? && !Succeeds(front, o, s, e) ==> After(front, o, s, e).committed == s.committed
    ensures e.Cleared? ==> After(front, o, s, e).committed == [] && d == []
  {
    hide Settled, Ends, PrefixStays, CourseStays, ExecuteLine, SameAnswers, StatementsStay, Adds;
    match e {
      case Entered(line, steps) => d := ExecuteCalls(front, o, s, line, steps);
      case Cleared =>
        d := [];
        assert s.h.log + [] == s.h.log;
    }
  }

  /** Over every session in which retyped lines find all earlier calls in the cache, no line calls at a committed position. */
  lemma {:induction false} NothingCalledAgain<S>(front: FrontEnd, o: Outside<S>, s: Session<S>, events: seq<Happening>,
                                                 i: nat, j: nat)
    requires hide *; Settled(front, o, s) && AllOrderly(front, o, s, events) && PrefixesStay(front, o, s, events)
    requires i < |events|
    ensures var before, after := At(front, o, s, events, i).h, At(front, o, s, events, i + 1).h;
            && before.log <= after.log
            && (|before.log| <= j < |after.log| ==> after.log[j].position > LastIndex(before))
  {
    hide Settled, Orderly, PrefixStays, After, RunSession, ExecuteLine, FlowStays, RunN, StartOfRun, ReplWorld,
         CodeOf, Compile, Ends, CourseStays;
    var front_ := events[..i];
    FirstOrderly(front, o, s, events, i);
    SessionsSettle(front, o, s, front_);
    var before := At(front, o, s, events, i);
    OrderlyEnds(front, o, before, events[i]);
    AtNext(front, o, s, events, i);
    var d := EventCalls(front, o, before, events[i]);
    if |before.h.log| <= j < |before.h.log + d| {
      assert (before.h.log + d)[j] == d[j - |before.h.log|];
    }
  }

  lemma {:induction false} AtNext<S>(front: FrontEnd, o: Outside<S>, s: Session<S>, events: seq<Happening>, i: nat)
    requires hide *; i < |events|
    ensures At(front, o, s, events, i + 1) == After(front, o, At(front, o, s, events, i), events[i])
  {
    hide After;
    assert events[..i + 1][..i] == events[..i];
  }

  lemma {:induction false} FirstOrderly<S>(front: FrontEnd, o: Outside<S>, s: Session<S>, events: seq<Happening>, i: nat)
    requires hide *; AllOrderly(front, o, s, events) && i < |events|
    ensures AllOrderly(front, o, s, events[..i])
  {
    hide RunSession, Orderly;
    forall k | 0 <= k < i ensures At(front, o, s, events[..i], k) == At(front, o, s, events, k) {
      assert events[..i][..k] == events[..k];
    }
  }

  // ---------- where committed calls are in the log ----------

  /** A line that succeeds keeps its calls until the session is cleared. */
  ghost predicate Kept<S>(front: FrontEnd, o: Outside<S>, s: Session<S>, events: seq<Happening>, i: nat)
    requires hide *; i < |events|
  {
    Succeeds(front, o, At(front, o, s, events, i), events[i]) && forall k :: i < k < |events| ==> events[k].Entered?
  }

  /** Entry j of the log has been made by event i. */
  ghost predicate MadeBy<S>(front: FrontEnd, o: Outside<S>, s: Session<S>, events: seq<Happening>, i: nat, j: nat)
    requires hide *; i < |events|
  {
    |At(front, o, s, events, i).h.log| <= j < |At(front, o, s, events, i + 1).h.log|
  }

  ghost predicate MadeByKept<S>(front: FrontEnd, o: Outside<S>, s: Session<S>, events: seq<Happening>, j: nat) {
    hide *;
    exists i :: 0 <= i < |events| && Kept(front, o, s, events, i) && MadeBy(front, o, s, events, i, j)
  }

  /** The calls stand at these places of the log, once and in order, with their positions and answers. */
  ghost predicate Stand(calls: seq<Answered>, log: seq<Answered>, places: seq<nat>) {
    && |places| == |calls|
    && (forall a, b :: 0 <= a < b < |places| ==> places[a] < places[b])
    && (forall a :: 0 <= a < |places| ==> (
          && places[a] < |log|
          && log[places[a]].position == calls[a].position
          && log[places[a]].answer == calls[a].answer))
  }

  /** These places of the log hold the committed calls, once and in order, and exactly the calls made by kept lines. */
  ghost predicate Holds<S>(front: FrontEnd, o: Outside<S>, s: Session<S>, events: seq<Happening>, places: seq<nat>) {
    var now := RunSession(front, o, s, events);
    && Stand(now.committed, now.h.log, places)
    && (forall j: nat :: j in places <==> MadeByKept(front, o, s, events, j))
  }

  lemma {:induction false} MadeByFront<S>(front: FrontEnd, o: Outside<S>, s: Session<S>, events: seq<Happening>, j: nat)
    requires hide *; events != []
    ensures var n := |events| - 1;
            MadeByKept(front, o, s, events, j)
            <==> (events[n].Entered? && MadeByKept(front, o, s, events[..n], j))
                 || (Succeeds(front, o, At(front, o, s, events, n), events[n]) && MadeBy(front, o, s, events, n, j))
  {
    hide At, Succeeds;
    var n := |events| - 1;
    forall i | 0 <= i < n
      ensures events[n].Entered? ==> (Kept(front, o, s, events, i) <==> Kept(front, o, s, events[..n], i))
      ensures MadeBy(front, o, s, events, i, j) <==> MadeBy(front, o, s, events[..n], i, j)
    {
      AtFront(front, o, s, events, i);
      AtFront(front, o, s, events, i + 1);
    }
    if events[n].Entered? && MadeByKept(front, o, s, events[..n], j) {
      var i :| 0 <= i < n && Kept(front, o, s, events[..n], i) && MadeBy(front, o, s, events[..n], i, j);
      assert Kept(front, o, s, events, i) && MadeBy(front, o, s, events, i, j);
    }
    if Succeeds(front, o, At(front, o, s, events, n), events[n]) && MadeBy(front, o, s, events, n, j) {
      assert Kept(front, o, s, events, n);
    }
    if MadeByKept(front, o, s, events, j) {
      var i :| 0 <= i < |events| && Kept(front, o, s, events, i) && MadeBy(front, o, s, events, i, j);
      if i < n {
        assert Kept(front, o, s, events[..n], i) && MadeBy(front, o, s, events[..n], i, j);
      }
    }
  }

  function From(start: nat, count: nat): (r: seq<nat>)
    ensures |r| == count && forall i :: 0 <= i < count ==> r[i] == start + i
  {
    seq(count, i => start + i)
  }

  lemma {:induction false} SameAt(a: seq<Answered>, b: seq<Answered>, d: seq<Answered>, i: nat)
    requires Adds(b, a, d) && i < |a|
    ensures i < |b| ==> a[i].position == b[i].position && a[i].answer == b[i].answer
    ensures i >= |b| ==> a[i] == d[i - |b|]
  {
  }

  lemma {:induction false} StandMore(calls: seq<Answered>, log: seq<Answered>, places: seq<nat>, d: seq<Answered>,
                                     now: seq<Answered>)
    requires Stand(calls, log, places) && Adds(calls, now, d)
    ensures Stand(now, log + d, places + From(|log|, |d|))
  {
    hide Adds;
    AddsCount(calls, now, d);
    var all := places + From(|log|, |d|);
    forall a | 0 <= a < |all| ensures all[a] < |log + d| && (log + d)[all[a]].position == now[a].position
                                      && (log + d)[all[a]].answer == now[a].answer
    {
      SameAt(now, calls, d, a);
    }
  }

  lemma {:induction false} InMore(places: seq<nat>, start: nat, count: nat, j: nat)
    ensures j in places + From(start, count) <==> j in places || start <= j < start + count
  {
    var all := places + From(start, count);
    if start <= j < start + count {
      assert all[|places| + (j - start)] == j;
    }
    if j in places {
      var a :| 0 <= a < |places| && places[a] == j;
      assert all[a] == j;
    }
  }

  lemma {:induction false} HoldsMore<S>(front: FrontEnd, o: Outside<S>, s: Session<S>, events: seq<Happening>,
                                        places: seq<nat>, d: seq<Answered>)
    requires hide *; events != [] && Holds(front, o, s, events[..|events| - 1], places)
    requires var before, now := RunSession(front, o, s, events[..|events| - 1]), RunSession(front, o, s, events);
             && Succeeds(front, o, before, events[|events| - 1])
             && now.h.log == before.h.log + d && Adds(before.committed, now.committed, d)
    ensures var before := RunSession(front, o, s, events[..|events| - 1]);
            Holds(front, o, s, events, places + From(|before.h.log|, |d|))
  {
    hide RunSession, Succeeds, MadeByKept, Adds, Stand;
    var n := |events| - 1;
    var before, now := RunSession(front, o, s, events[..n]), RunSession(front, o, s, events);
    StandMore(before.committed, before.h.log, places, d, now.committed);
    SucceedsEntered(front, o, before, events[n]);
    forall j: nat ensures j in places + From(|before.h.log|, |d|) <==> MadeByKept(front, o, s, events, j) {
      MadeByFront(front, o, s, events, j);
      AtEnd(front, o, s, events);
      InMore(places, |before.h.log|, |d|, j);
    }
  }

  lemma AddsCount(a: seq<Answered>, b: seq<Answered>, d: seq<Answered>)
    requires Adds(a, b, d)
    ensures |b| == |a| + |d|
  {
  }

  /** Every committed call is in the log once and in order, and all the rest of the log has been made by lines that failed or
      before a clearing. */
  lemma {:induction false} LoggedOnce<S>(front: FrontEnd, o: Outside<S>, s: Session<S>, events: seq<Happening>)
      returns (places: seq<nat>)
    requires hide After, At, CodeOf, CourseStays, ByteCode.After, LastIndex, MadeByKept, Orderly, Repeats,
                  StatementsStay;
             Settled(front, o, s) && s.committed == []
    requires AllOrderly(front, o, s, events) && CoursesStay(front, o, s, events)
    ensures Holds(front, o, s, events, places)
    ensures NoneRetyped(front, o, s, events)
            ==> var now := RunSession(front, o, s, events);
                forall a :: 0 <= a < |places| ==> now.h.log[places[a]] == now.committed[a]
    decreases |events|
  {
    hide Settled, Orderly, CourseStays, StatementsStay, MadeByKept, After, Succeeds, Adds, Compile, Guarded,
         ReplWorld, RunN, StartOfRun, ExecuteLine, Ends;
    if events == [] {
      places := [];
      NothingMade(front, o, s);
    } else {
      var n := |events| - 1;
      FrontOrderly(front, o, s, events);
      var before, now := RunSession(front, o, s, events[..n]), RunSession(front, o, s, events);
      assert At(front, o, s, events, n) == before;
      OrderlyEnds(front, o, before, events[n]);
      places := LoggedOnce(front, o, s, events[..n]);
      SessionsSettle(front, o, s, events[..n]);
      CourseIsPrefix(front, o, before, events[n]);
      var d := EventCalls(front, o, before, events[n]);
      SucceedsEntered(front, o, before, events[n]);
      if Succeeds(front, o, before, events[n]) {
        AddsCount(before.committed, now.committed, d);
        HoldsMore(front, o, s, events, places, d);
        places := places + From(|before.h.log|, |d|);
      } else {
        HoldsStill(front, o, s, events, places, d);
        places := if events[n].Entered? then places else [];
      }
    }
  }

  lemma NothingMade<S>(front: FrontEnd, o: Outside<S>, s: Session<S>)
    ensures forall j: nat :: !MadeByKept(front, o, s, [], j)
  {
    hide Kept, MadeBy;
  }

  lemma {:induction false} CourseIsPrefix<S>(front: FrontEnd, o: Outside<S>, s: Session<S>, e: Happening)
    ensures hide *; e.Entered? && CourseStays(front, o, s, e.line) ==> PrefixStays(front, o, s, e.line)
  {
    hide CourseStays, Guarded;
  }

  lemma {:induction false} OrderlyEnds<S>(front: FrontEnd, o: Outside<S>, s: Session<S>, e: Happening)
    ensures hide *; e.Entered? && Orderly(front, o, s, e.line, e.steps) ==> Ends(front, o, s, e.line, e.steps)
  {
    hide Ends, ExecuteLine, Compile;
  }

  lemma {:induction false} SucceedsEntered<S>(front: FrontEnd, o: Outside<S>, s: Session<S>, e: Happening)
    ensures Succeeds(front, o, s, e) ==> e.Entered?
  {
    hide ExecuteLine;
  }

  lemma {:induction false} HoldsStill<S>(front: FrontEnd, o: Outside<S>, s: Session<S>, events: seq<Happening>,
                                         places: seq<nat>, d: seq<Answered>)
    requires hide *; events != [] && Holds(front, o, s, events[..|events| - 1], places)
    requires var before, now := RunSession(front, o, s, events[..|events| - 1]), RunSession(front, o, s, events);
             var e := events[|events| - 1];
             && !Succeeds(front, o, before, e) && now.h.log == before.h.log + d
             && now.committed == if e.Entered? then before.committed else []
    ensures Holds(front, o, s, events, if events[|events| - 1].Entered? then places else [])
  {
    hide RunSession, Succeeds, MadeByKept;
    forall j: nat ensures MadeByKept(front, o, s, events, j)
                          <==> events[|events| - 1].Entered? && MadeByKept(front, o, s, events[..|events| - 1], j)
    {
      MadeByFront(front, o, s, events, j);
    }
  }

  /** The whole of it for a fresh session. */
  lemma {:induction false} ExactlyOnce<S>(front: FrontEnd, o: Outside<S>, host: S,
                                          events: seq<Happening>) returns (steps: nat, places: seq<nat>)
    requires hide After, At, Compile, CourseStays, InvokeIn, ByteCode.After, MadeByKept, NameIn, Orderly,
                  StatementsStay, Step, CodeOf;
             AllOrderly(front, o, NewSession(host), events) && CoursesStay(front, o, NewSession(host), events)
    ensures Holds(front, o, NewSession(host), events, places)
    ensures NoneRetyped(front, o, NewSession(host), events)
            ==> var now := RunSession(front, o, NewSession(host), events);
                forall a :: 0 <= a < |places| ==> now.h.log[places[a]] == now.committed[a]
    ensures var s := RunSession(front, o, NewSession(host), events);
            var code := CodeOf(front, s.lines);
            && code.Some? && Increasing(s.committed)
            && var again := RunN(ReplWorld(o), code.value, StartOfRun(s.h), steps);
               again.Run? && again.pc == |code.value| && again.st.h.trace == s.committed
               && again.st.h.host == s.h.host && again.st.h.log == s.h.log
  {
    hide Step, RunN, ReplWorld, RunSession, CodeOf, Increasing, AllOrderly, Repeats, Extended, Holds, At, CourseStays;
    NewSettled(front, o, host);
    places := LoggedOnce(front, o, NewSession(host), events);
    steps := CommittedRunsAgain(front, o, host, events);
  }

  // ---------- names ----------

  lemma {:induction false} EventKeepsNames<S>(front: FrontEnd, o: Outside<S>, s: Session<S>, e: Happening)
    ensures hide *; var after := After(front, o, s, e);
            forall k :: k in s.h.names.cache ==> k in after.h.names.cache && after.h.names.cache[k] == s.h.names.cache[k]
  {
    hide Step, RunN, ReplWorld, Finish, AsText, Evaluation.Collect, Evaluation.EvalAll, Evaluation.EvalBlock,
         Evaluation.Fold, Evaluation.Combine, ByteCode.Generate, Gen, Compile;
    if e.Entered? && e.line != "" {
      match Compile(front, AsText(s.lines + [Prepared(e.line)]))
      case NotParsed =>
      case NotCompiled =>
      case Program(code) => RunKeeps(o, code, StartOfRun(s.h), e.steps);
    }
  }

  /** The k-th name of a session, once made, is the k-th name for good: through lines of any outcome, and through clearings. */
  lemma {:induction false} NamesOutliveClearing<S>(front: FrontEnd, o: Outside<S>, s: Session<S>, events: seq<Happening>)
    ensures hide *; var now := RunSession(front, o, s, events);
            forall k :: k in s.h.names.cache ==> k in now.h.names.cache && now.h.names.cache[k] == s.h.names.cache[k]
    decreases |events|
  {
    hide After;
    if events != [] {
      NamesOutliveClearing(front, o, s, events[..|events| - 1]);
      EventKeepsNames(front, o, RunSession(front, o, s, events[..|events| - 1]), events[|events| - 1]);
    }
  }
}
