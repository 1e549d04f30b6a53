/** Calls with a cache of earlier results: running a program again gives every call the answer it had before. */
module Replay {
  import opened Syntax
  import opened Values
  import opened Machine
  import opened HostValues
  import opened InstanceNames
  import opened Lockstep
  import ByteCode

  // ---------- the host as a session sees it ----------

  /** A call that got an answer, with the position of its instruction. */
  datatype Answered = Answered(position: nat, call: CallRecord, answer: Option<ValueAndType>)

  datatype HostCall = HostCall(component: int, instance: string, function_: string, args: seq<HostValue>, result: Option<WitType>)

  datatype HostReply = Refused | Replied(v: Option<HostValue>)

  /** The world outside a session: the host with its state, fresh identifiers, and the printing of values. */
  datatype Outside<!S> = Outside(call: (S, HostCall) -> (S, HostReply), uuid: S -> (S, string), text: ValueAndType -> string)

  /** What calls can see and change: the cache, the position up to which it may be used, the names, the host; and, only
      to state properties, the calls that reached the host in this session and all calls answered in the present run. */
  datatype ReplHost<S> = ReplHost(cache: map<nat, Option<ValueAndType>>, last: Option<nat>, names: Names, host: S,
                                  log: seq<Answered>, trace: seq<Answered>)

  function LastIndex<S>(h: ReplHost<S>): nat { if h.last.Some? then h.last.value else 0 }

  function CachedResult<S>(h: ReplHost<S>, position: nat): Option<Option<ValueAndType>> {
    if position > LastIndex(h) then None
    else if position in h.cache then Some(h.cache[position])
    else None
  }

  function ArgsToHost(args: seq<ValueAndType>): Option<seq<HostValue>> {
    hide *;
    if args == [] then Some([]) else
    var a, rest := ToHost(args[0].value, args[0].typ), ArgsToHost(args[1..]);
    if a.Some? && rest.Some? then Some([a.value] + rest.value) else None
  }

  /** A reply as a result of the call; None when it cannot be understood. */
  function Understood(reply: HostReply, result: Option<WitType>): Option<Option<ValueAndType>> {
    hide *;
    match reply
    case Refused => None
    case Replied(None) => Some(None)
    case Replied(Some(v)) =>
      if result.None? then None
      else
        var x := FromHost(v, result.value);
        if x.Some? then Some(Some(VT(x.value, result.value))) else None
  }

  /** A call: answered from the cache, or by the host; only answers that are understood are remembered. */
  function InvokeIn<S>(o: Outside<S>, h: ReplHost<S>, position: nat, c: CallRecord): (ReplHost<S>, Option<Option<ValueAndType>>) {
    hide *;
    var known := CachedResult(h, position);
    if known.Some? then (h.(trace := h.trace + [Answered(position, c, known.value)]), known)
    else
      var args := ArgsToHost(c.args);
      if args.None? then (h, None) else
      var (s, reply) := o.call(h.host, HostCall(c.component, c.worker, c.name, args.value, c.result));
      var answer := Understood(reply, c.result);
      if answer.None? then (h.(host := s), None)
      else
        var made := Answered(position, c, answer.value);
        (h.(host := s, cache := h.cache[position := answer.value], log := h.log + [made], trace := h.trace + [made]), answer)
  }

  // ---------- which call reaches the host ----------

  predicate Sendable(c: CallRecord) {
    hide *;
    forall a :: a in c.args ==> ToHost(a.value, a.typ).Some?
  }

  /** The component, the instance, the function and the type of the result of the call, and its arguments one by one. */
  predicate Sent(c: CallRecord, sent: HostCall) {
    hide *;
    && sent.component == c.component && sent.instance == c.worker && sent.function_ == c.name && sent.result == c.result
    && |sent.args| == |c.args| && forall i :: 0 <= i < |c.args| ==> ToHost(c.args[i].value, c.args[i].typ) == Some(sent.args[i])
  }

  lemma {:induction false} ArgsInOrder(args: seq<ValueAndType>)
    ensures hide *; ArgsToHost(args).Some? <==> forall a :: a in args ==> ToHost(a.value, a.typ).Some?
    ensures ArgsToHost(args).Some? ==>
      var hs := ArgsToHost(args).value;
      |hs| == |args| && forall i :: 0 <= i < |args| ==> ToHost(args[i].value, args[i].typ) == Some(hs[i])
    decreases |args|
  {
    hide ToHost;
    if args != [] {
      ArgsInOrder(args[1..]);
      assert forall a :: a in args <==> a == args[0] || a in args[1..];
      if ArgsToHost(args).Some? {
        var hs := ArgsToHost(args).value;
        forall i | 0 < i < |args| ensures ToHost(args[i].value, args[i].typ) == Some(hs[i]) {
          assert args[i] == args[1..][i - 1];
        }
      }
    }
  }

  /** There is only one such call. */
  lemma SentOnce(c: CallRecord, a: HostCall, b: HostCall)
    requires hide *; Sent(c, a) && Sent(c, b)
    ensures a == b
  {
    hide ToHost;
    assert forall i :: 0 <= i < |a.args| ==> Some(a.args[i]) == Some(b.args[i]);
    assert a.args == b.args;
  }

  /** The host is left alone exactly if the cache has an answer or some argument cannot be sent; else it gets the call. */
  ghost predicate Passed<S>(o: Outside<S>, h: ReplHost<S>, position: nat, c: CallRecord, host: S, r: Option<Option<ValueAndType>>) {
    hide *;
    var known := CachedResult(h, position);
    if known.Some? then host == h.host && r == known
    else if !Sendable(c) then host == h.host && r == None
    else exists sent :: Sent(c, sent) && Obtained(o, h.host, sent, host, r)
  }

  ghost predicate Obtained<S>(o: Outside<S>, before: S, sent: HostCall, host: S, r: Option<Option<ValueAndType>>) {
    hide *;
    var (s, reply) := o.call(before, sent);
    && host == s
    && match reply
       case Refused => r == None
       case Replied(None) => r == Some(None)
       case Replied(Some(v)) =>
         if sent.result.None? || FromHost(v, sent.result.value).None? then r == None
         else r == Some(Some(VT(FromHost(v, sent.result.value).value, sent.result.value)))
  }

  lemma {:induction false} CallPassed<S>(o: Outside<S>, h: ReplHost<S>, position: nat, c: CallRecord)
    ensures hide *; Passed(o, h, position, c, InvokeIn(o, h, position, c).0.host, InvokeIn(o, h, position, c).1)
  {
    hide ToHost, ArgsToHost, FromHost;
    ArgsInOrder(c.args);
    if CachedResult(h, position).None? && Sendable(c) {
      var sent := HostCall(c.component, c.worker, c.name, ArgsToHost(c.args).value, c.result);
      assert Sent(c, sent) && Obtained(o, h.host, sent, InvokeIn(o, h, position, c).0.host, InvokeIn(o, h, position, c).1);
    }
  }

  function NameIn<S>(o: Outside<S>, h: ReplHost<S>): (ReplHost<S>, string) {
    if h.names.count + 1 in h.names.cache then
      var (n, name) := Generate(h.names, "");
      (h.(names := n), name)
    else
      var (s, uuid) := o.uuid(h.host);
      var (n, name) := Generate(h.names, uuid);
      (h.(names := n, host := s), name)
  }

  function ReplWorld<S>(o: Outside<S>): World<ReplHost<S>> {
    World((h: ReplHost<S>, p: nat, c: CallRecord) => InvokeIn(o, h, p, c), (h: ReplHost<S>) => NameIn(o, h), o.text)
  }

  // ---------- the host as a recording ----------

  datatype Tape = Tape(count: nat, trace: seq<Answered>, ok: bool)

  /** A world without a host: all it can do is to repeat. */
  function Recorded(text: ValueAndType -> string, cache: map<nat, Option<ValueAndType>>, names: map<nat, string>): World<Tape> {
    hide *;
    World((t: Tape, p: nat, c: CallRecord) =>
            if p in cache then (t.(trace := t.trace + [Answered(p, c, cache[p])]), Some(cache[p])) else (t.(ok := false), None),
          (t: Tape) => if t.count + 1 in names then (t.(count := t.count + 1), names[t.count + 1]) else (t.(ok := false), ""),
          text)
  }

  // ---------- from the recording to the session ----------

  /** The session is where the recording is; of its host only the count of names and the trace have changed. */
  ghost predicate Mirrors<S>(c: Config<ReplHost<S>>, t: Config<Tape>, base: ReplHost<S>) {
    && c.Run? && t.Run? && c.pc == t.pc && c.st.stack == t.st.stack && c.st.env == t.st.env && t.st.h.ok
    && c.st.h == base.(names := base.names.(count := t.st.h.count), trace := t.st.h.trace)
  }

  function RecordOf<S>(o: Outside<S>, h: ReplHost<S>): World<Tape> { Recorded(o.text, h.cache, h.names.cache) }

  /** A program whose labels are moved, with something behind it. */
  function Extended(code: seq<IR>, k: nat, more: seq<IR>): seq<IR> { ByteCode.Shift(code, k) + more }

  lemma {:induction false} PureStepMirrors<S>(o: Outside<S>, code: seq<IR>, k: nat, more: seq<IR>, c: Config<ReplHost<S>>,
                                              t: Config<Tape>, base: ReplHost<S>)
    requires hide InvokeIn, NameIn, Step, Extended, RecordOf, TalksToHost;
             Mirrors(c, t, base) && t.pc < |code| && !TalksToHost(code[t.pc])
    requires Step(RecordOf(o, base), code, t).Run?
    ensures Mirrors(Step(ReplWorld(o), Extended(code, k, more), c), Step(RecordOf(o, base), code, t), base)
  {
    hide Exec, FindLabel, Generate, InvokeIn, NameIn, ByteCode.Relabel, TalksToHost;
    var ir := code[t.pc];
    var prog := Extended(code, k, more);
    assert prog[c.pc] == ByteCode.Relabel(ir, k);
    ExecMoved(ReplWorld(o), ir, k, c.pc + 1, c.st);
    ExecAlike(ReplWorld(o), RecordOf(o, base), ir, c.pc + 1, t.pc + 1, c.st.stack, c.st.env, c.st.h, t.st.h);
    assert State(c.st.stack, c.st.env, c.st.h) == c.st && State(t.st.stack, t.st.env, t.st.h) == t.st;
    match Exec(RecordOf(o, base), ir, t.pc + 1, t.st)
    case Goto(l, _) => FindMoved(code, k, more, l);
    case _ =>
  }

  lemma {:induction false} InvokeMirrors<S>(o: Outside<S>, code: seq<IR>, k: nat, more: seq<IR>, c: Config<ReplHost<S>>,
                                            t: Config<Tape>, base: ReplHost<S>)
    requires hide InvokeIn, NameIn, Step, Extended, RecordOf;
             Mirrors(c, t, base) && t.pc < |code| && code[t.pc].InvokeFunction? && LastIndex(base) >= |code|
    requires Step(RecordOf(o, base), code, t).Run? && Step(RecordOf(o, base), code, t).st.h.ok
    ensures Mirrors(Step(ReplWorld(o), Extended(code, k, more), c), Step(RecordOf(o, base), code, t), base)
  {
    hide Exec, Asked, FindLabel, FromHost, ArgsToHost;
    var ir := code[t.pc];
    var prog := Extended(code, k, more);
    assert prog[c.pc] == ByteCode.Relabel(ir, k) == ir;
    InvokeAsks(ReplWorld(o), ir, c.pc + 1, c.st);
    InvokeAsks(RecordOf(o, base), ir, t.pc + 1, t.st);
  }

  lemma {:induction false} NameMirrors<S>(o: Outside<S>, code: seq<IR>, k: nat, more: seq<IR>, c: Config<ReplHost<S>>,
                                          t: Config<Tape>, base: ReplHost<S>)
    requires hide InvokeIn, NameIn, Step, Extended, RecordOf;
             Mirrors(c, t, base) && t.pc < |code| && code[t.pc].GenerateName?
    requires Step(RecordOf(o, base), code, t).Run? && Step(RecordOf(o, base), code, t).st.h.ok
    ensures Mirrors(Step(ReplWorld(o), Extended(code, k, more), c), Step(RecordOf(o, base), code, t), base)
  {
    hide Exec, FindLabel, AsInstanceVariable, Understood, ArgsToHost;
    var ir := code[t.pc];
    var prog := Extended(code, k, more);
    assert prog[c.pc] == ByteCode.Relabel(ir, k) == ir;
    NameAsks(ReplWorld(o), ir, c.pc + 1, c.st);
    NameAsks(RecordOf(o, base), ir, t.pc + 1, t.st);
  }

  lemma {:induction false} StepMirrors<S>(o: Outside<S>, code: seq<IR>, k: nat, more: seq<IR>, c: Config<ReplHost<S>>,
                                          t: Config<Tape>, base: ReplHost<S>)
    requires hide *; t.Run? && Mirrors(c, t, base) && t.pc < |code| && LastIndex(base) >= |code|
    requires Step(RecordOf(o, base), code, t).Run? && Step(RecordOf(o, base), code, t).st.h.ok
    ensures Mirrors(Step(ReplWorld(o), Extended(code, k, more), c), Step(RecordOf(o, base), code, t), base)
  {
    hide Exec, FindLabel, Mirrors, Step, RecordOf, ReplWorld, Extended;
    if code[t.pc].InvokeFunction? {
      InvokeMirrors(o, code, k, more, c, t, base);
    } else if code[t.pc].GenerateName? {
      NameMirrors(o, code, k, more, c, t, base);
    } else {
      PureStepMirrors(o, code, k, more, c, t, base);
    }
  }

  /** A recording that has failed once stays failed. */
  lemma StepOk(text: ValueAndType -> string, cache: map<nat, Option<ValueAndType>>, names: map<nat, string>, code: seq<IR>,
               t: Config<Tape>)
    requires HostOf(Step(Recorded(text, cache, names), code, t)).ok
    ensures HostOf(t).ok
  {
    hide Exec, FindLabel, AsInstanceVariable, Asked, StrVT;
    if t.Run? && t.pc < |code| {
      var w := Recorded(text, cache, names);
      var ir := code[t.pc];
      if ir.InvokeFunction? {
        InvokeAsks(w, ir, t.pc + 1, t.st);
      } else if ir.GenerateName? {
        NameAsks(w, ir, t.pc + 1, t.st);
      } else {
        ExecAlike(w, w, ir, t.pc + 1, t.pc + 1, t.st.stack, t.st.env, t.st.h, t.st.h);
        assert State(t.st.stack, t.st.env, t.st.h) == t.st;
      }
    }
  }

  lemma {:induction false} RunOk(text: ValueAndType -> string, cache: map<nat, Option<ValueAndType>>,
                                 names: map<nat, string>, code: seq<IR>, t: Config<Tape>, m: nat)
    requires HostOf(RunN(Recorded(text, cache, names), code, t, m)).ok
    ensures HostOf(t).ok
    decreases m
  {
    hide Exec, Step, Recorded;
    if m > 0 {
      RunOk(text, cache, names, code, Step(Recorded(text, cache, names), code, t), m - 1);
      StepOk(text, cache, names, code, t);
    }
  }

  /** While the program of the recording lasts, the session follows it, without its host: whatever stands behind that
      program and wherever its labels have gone. */
  lemma {:induction false} PrefixMirrors<S>(o: Outside<S>, code: seq<IR>, k: nat, more: seq<IR>, c: Config<ReplHost<S>>,
                                            t: Config<Tape>, base: ReplHost<S>, m: nat) returns (n: nat)
    requires hide *; Mirrors(c, t, base) && LastIndex(base) >= |code|
    requires var end := RunN(RecordOf(o, base), code, t, m); end.Run? && end.pc == |code| && end.st.h.ok
    ensures Mirrors(RunN(ReplWorld(o), Extended(code, k, more), c, n), RunN(RecordOf(o, base), code, t, m), base)
    decreases m
  {
    hide Exec, Step, Recorded, ReplWorld, Extended;
    var w := RecordOf(o, base);
    if t.pc >= |code| {
      HaltedStays(w, code, t, m);
      n := 0;
    } else {
      assert m > 0;
      var next := Step(w, code, t);
      RunOk(o.text, base.cache, base.names.cache, code, next, m - 1);
      if next.Failed? {
        HaltedStays(w, code, next, m - 1);
      }
      StepMirrors(o, code, k, more, c, t, base);
      n := PrefixMirrors(o, code, k, more, Step(ReplWorld(o), Extended(code, k, more), c), next, base, m - 1);
      n := n + 1;
    }
  }

  // ---------- instructions outside of loops ----------

  /** No backward jump leads over a call. */
  ghost predicate NoCallInLoop(prog: seq<IR>) {
    forall p, q, r :: 0 <= r <= p <= q < |prog| && ByteCode.IsJump(prog[q]) && FindLabel(prog, prog[q].target) == Some(r)
      ==> !prog[p].InvokeFunction?
  }

  lemma {:induction false} GotoIsJump<H>(w: World<H>, ir: IR, p: nat, st: State<H>)
    requires hide Exec; Exec(w, ir, p, st).Goto?
    ensures ByteCode.IsJump(ir) && Exec(w, ir, p, st).target == ir.target
  {
    hide Machine.Compute, CheckEmpty, Advance, AddToSink, SinkAsList, Invoke, GenerateNameFor;
    if !ByteCode.IsJump(ir) {
      OnlyJumps(w, ir, p, st);
    }
  }

  /** Behind a call there is no way back to it. */
  lemma {:induction false} StaysPast<H>(w: World<H>, prog: seq<IR>, c: Config<H>, p: nat)
    requires hide *; NoCallInLoop(prog) && c.Run? && p < c.pc && p < |prog| && prog[p].InvokeFunction?
    ensures Step(w, prog, c).Run? ==> p < Step(w, prog, c).pc
  {
    hide Exec, FindLabel;
    if c.pc < |prog| && Exec(w, prog[c.pc], c.pc + 1, c.st).Goto? {
      GotoIsJump(w, prog[c.pc], c.pc + 1, c.st);
    }
  }

  // ---------- what one step does to the host of a session ----------

  ghost predicate CalledAt<S>(o: Outside<S>, a: ReplHost<S>, b: ReplHost<S>, position: nat) {
    exists c :: b == InvokeIn(o, a, position, c).0
  }

  /** Either nothing, or one answered call, or one name, or a call without an answer. */
  ghost predicate Advanced<S>(o: Outside<S>, prog: seq<IR>, pc: nat, a: ReplHost<S>, b: ReplHost<S>) {
    hide *;
    || a == b
    || (pc < |prog| && prog[pc].InvokeFunction? && CalledAt(o, a, b, pc + 1))
    || (pc < |prog| && prog[pc].GenerateName? && b == NameIn(o, a).0)
  }

  lemma StepAdvances<S>(o: Outside<S>, prog: seq<IR>, c: Config<ReplHost<S>>)
    ensures hide *; c.Run? ==> Advanced(o, prog, c.pc, c.st.h, HostOf(Step(ReplWorld(o), prog, c)))
  {
    hide Exec, FindLabel, Asked, InvokeIn, NameIn, AsInstanceVariable, NameFor;
    if c.Run? && c.pc < |prog| {
      var w := ReplWorld(o);
      var ir := prog[c.pc];
      if ir.InvokeFunction? {
        InvokeAsks(w, ir, c.pc + 1, c.st);
      } else if ir.GenerateName? {
        NameAsks(w, ir, c.pc + 1, c.st);
      } else {
        ExecAlike(w, w, ir, c.pc + 1, c.pc + 1, c.st.stack, c.st.env, c.st.h, c.st.h);
        assert State(c.st.stack, c.st.env, c.st.h) == c.st;
      }
    }
  }

  /** Names are never replaced, entries of the cache only by a call at their position that may not use the cache. */
  lemma {:induction false} AdvancedKeeps<S>(o: Outside<S>, prog: seq<IR>, pc: nat, a: ReplHost<S>, b: ReplHost<S>)
    requires hide *; Advanced(o, prog, pc, a, b)
    ensures b.last == a.last
    ensures forall k :: k in a.names.cache ==> k in b.names.cache && b.names.cache[k] == a.names.cache[k]
    ensures forall k :: k in a.cache && (k <= LastIndex(a) || k != pc + 1) ==> k in b.cache && b.cache[k] == a.cache[k]
    ensures forall k :: k in b.cache && k !in a.cache ==> k == pc + 1
    ensures pc < |prog| && !prog[pc].InvokeFunction? ==> b.cache == a.cache && b.trace == a.trace && b.log == a.log
  {
    hide ArgsToHost, Understood;
  }

  /** No name is ever replaced, and no entry of the cache that may be used. */
  lemma {:induction false} RunKeeps<S>(o: Outside<S>, prog: seq<IR>, c: Config<ReplHost<S>>, m: nat)
    ensures hide *; var b := HostOf(RunN(ReplWorld(o), prog, c, m)); var a := HostOf(c);
            && b.last == a.last
            && (forall k :: k in a.names.cache ==> k in b.names.cache && b.names.cache[k] == a.names.cache[k])
            && (forall k :: k <= LastIndex(a) && k in a.cache ==> k in b.cache && b.cache[k] == a.cache[k])
    decreases m
  {
    hide Step, ReplWorld, Advanced;
    if m > 0 {
      RunKeeps(o, prog, Step(ReplWorld(o), prog, c), m - 1);
      if c.Run? {
        StepAdvances(o, prog, c);
        AdvancedKeeps(o, prog, c.pc, c.st.h, HostOf(Step(ReplWorld(o), prog, c)));
      } else {
        FailedStays(o, prog, c);
      }
    }
  }

  lemma FailedStays<S>(o: Outside<S>, prog: seq<IR>, c: Config<ReplHost<S>>)
    requires c.Failed?
    ensures Step(ReplWorld(o), prog, c) == c
  {
    hide ReplWorld, Exec;
  }

  /** An entry that may be used, or whose call lies behind, is kept to the end. */
  lemma {:induction false} RunKeepsEntry<S>(o: Outside<S>, prog: seq<IR>, c: Config<ReplHost<S>>, m: nat, p: nat)
    requires hide *; p + 1 in HostOf(c).cache
    requires p + 1 <= LastIndex(HostOf(c)) || (NoCallInLoop(prog) && p < |prog| && prog[p].InvokeFunction? && (c.Run? ==> p < c.pc))
    ensures var b := HostOf(RunN(ReplWorld(o), prog, c, m)); p + 1 in b.cache && b.cache[p + 1] == HostOf(c).cache[p + 1]
    decreases m
  {
    hide Step, ReplWorld, Advanced, NoCallInLoop;
    if m > 0 {
      var next := Step(ReplWorld(o), prog, c);
      if c.Run? {
        StepAdvances(o, prog, c);
        AdvancedKeeps(o, prog, c.pc, c.st.h, HostOf(next));
        if p + 1 > LastIndex(HostOf(c)) {
          StaysPast(ReplWorld(o), prog, c, p);
        }
      } else {
        FailedStays(o, prog, c);
      }
      RunKeepsEntry(o, prog, next, m - 1, p);
    }
  }

  // ---------- from the session to the recording ----------

  /** The recording is where the session is. */
  ghost predicate Recording<S>(t: Config<Tape>, c: Config<ReplHost<S>>) {
    c.Run? && t == Run(c.pc, State(c.st.stack, c.st.env, Tape(c.st.h.names.count, c.st.h.trace, true)))
  }

  /** The recording knows what this step will ask for. */
  ghost predicate Knows<S>(cache: map<nat, Option<ValueAndType>>, names: map<nat, string>, pc: nat, b: ReplHost<S>) {
    && (pc + 1 in b.cache ==> pc + 1 in cache && cache[pc + 1] == b.cache[pc + 1])
    && (forall k :: k in b.names.cache ==> k in names && names[k] == b.names.cache[k])
  }

  lemma {:induction false} InvokeRecorded<S>(o: Outside<S>, prog: seq<IR>, c: Config<ReplHost<S>>, t: Config<Tape>,
                                             cache: map<nat, Option<ValueAndType>>, names: map<nat, string>)
    requires hide InvokeIn, NameIn, Step, Recorded, Knows;
             Recording(t, c) && c.pc < |prog| && prog[c.pc].InvokeFunction?
    requires var next := Step(ReplWorld(o), prog, c); next.Run? && Knows(cache, names, c.pc, next.st.h)
    ensures Recording(Step(Recorded(o.text, cache, names), prog, t), Step(ReplWorld(o), prog, c))
    ensures c.pc + 1 in Step(ReplWorld(o), prog, c).st.h.cache
  {
    hide Exec, Asked, FindLabel, ArgsToHost, Understood, Generate;
    InvokeAsks(ReplWorld(o), prog[c.pc], c.pc + 1, c.st);
    InvokeAsks(Recorded(o.text, cache, names), prog[c.pc], c.pc + 1, t.st);
  }

  lemma {:induction false} NameRecorded<S>(o: Outside<S>, prog: seq<IR>, c: Config<ReplHost<S>>, t: Config<Tape>,
                                           cache: map<nat, Option<ValueAndType>>, names: map<nat, string>)
    requires hide InvokeIn, NameIn, Step, Recorded;
             Recording(t, c) && c.pc < |prog| && prog[c.pc].GenerateName?
    requires var next := Step(ReplWorld(o), prog, c);
             next.Run? && forall k :: k in next.st.h.names.cache ==> k in names && names[k] == next.st.h.names.cache[k]
    ensures Recording(Step(Recorded(o.text, cache, names), prog, t), Step(ReplWorld(o), prog, c))
  {
    hide Exec, FindLabel, AsInstanceVariable, ArgsToHost, CachedResult, Understood, Reset;
    NameAsks(ReplWorld(o), prog[c.pc], c.pc + 1, c.st);
    NameAsks(Recorded(o.text, cache, names), prog[c.pc], c.pc + 1, t.st);
  }

  lemma {:induction false} PureRecorded<S>(o: Outside<S>, prog: seq<IR>, c: Config<ReplHost<S>>, t: Config<Tape>,
                                           cache: map<nat, Option<ValueAndType>>, names: map<nat, string>)
    requires hide InvokeIn, NameIn, Step, Recorded, TalksToHost;
             Recording(t, c) && c.pc < |prog| && !TalksToHost(prog[c.pc]) && Step(ReplWorld(o), prog, c).Run?
    ensures Recording(Step(Recorded(o.text, cache, names), prog, t), Step(ReplWorld(o), prog, c))
  {
    hide Exec, FindLabel, Generate, InvokeIn, NameIn;
    ExecAlike(ReplWorld(o), Recorded(o.text, cache, names), prog[c.pc], c.pc + 1, c.pc + 1, c.st.stack, c.st.env, c.st.h, t.st.h);
    assert State(c.st.stack, c.st.env, c.st.h) == c.st && State(t.st.stack, t.st.env, t.st.h) == t.st;
  }

  /** A finished run without calls in loops is repeated by the recording of what the cache holds afterwards. */
  lemma {:induction false} RunRecorded<S>(o: Outside<S>, prog: seq<IR>, c: Config<ReplHost<S>>, t: Config<Tape>, m: nat)
    requires hide *; NoCallInLoop(prog) && c.Run? && Recording(t, c) && RunN(ReplWorld(o), prog, c, m).Run?
    ensures var end := RunN(ReplWorld(o), prog, c, m);
            Recording(RunN(Recorded(o.text, end.st.h.cache, end.st.h.names.cache), prog, t, m), end)
    decreases m
  {
    hide Step, ReplWorld, Recorded, Recording, NoCallInLoop;
    if m > 0 {
      var end := RunN(ReplWorld(o), prog, c, m);
      var w := Recorded(o.text, end.st.h.cache, end.st.h.names.cache);
      var next := Step(ReplWorld(o), prog, c);
      if next.Failed? {
        HaltedStays(ReplWorld(o), prog, next, m - 1);
      }
      StepRecorded(o, prog, c, t, m);
      RunRecorded(o, prog, next, Step(w, prog, t), m - 1);
    }
  }

  lemma {:induction false} StepRecorded<S>(o: Outside<S>, prog: seq<IR>, c: Config<ReplHost<S>>, t: Config<Tape>, m: nat)
    requires hide *; NoCallInLoop(prog) && c.Run? && Recording(t, c) && m > 0
    requires RunN(ReplWorld(o), prog, Step(ReplWorld(o), prog, c), m - 1).Run? && Step(ReplWorld(o), prog, c).Run?
    ensures var end := RunN(ReplWorld(o), prog, Step(ReplWorld(o), prog, c), m - 1);
            Recording(Step(Recorded(o.text, end.st.h.cache, end.st.h.names.cache), prog, t), Step(ReplWorld(o), prog, c))
  {
    hide Step, ReplWorld, Recorded, Recording, NoCallInLoop, RunN;
    var next := Step(ReplWorld(o), prog, c);
    var end := RunN(ReplWorld(o), prog, next, m - 1);
    var cache, names := end.st.h.cache, end.st.h.names.cache;
    RunKeeps(o, prog, next, m - 1);
    if c.pc >= |prog| {
      HaltedRecorded(o, prog, c, t, cache, names);
    } else if prog[c.pc].InvokeFunction? {
      PastCall(o, prog, c);
      RunKeepsEntry(o, prog, next, m - 1, c.pc);
      InvokeRecorded(o, prog, c, t, cache, names);
    } else if prog[c.pc].GenerateName? {
      NameRecorded(o, prog, c, t, cache, names);
    } else {
      PureRecorded(o, prog, c, t, cache, names);
    }
  }

  lemma {:induction false} HaltedRecorded<S>(o: Outside<S>, prog: seq<IR>, c: Config<ReplHost<S>>, t: Config<Tape>,
                                             cache: map<nat, Option<ValueAndType>>, names: map<nat, string>)
    requires hide InvokeIn, NameIn, Step; Recording(t, c) && c.pc >= |prog|
    ensures Recording(Step(Recorded(o.text, cache, names), prog, t), Step(ReplWorld(o), prog, c))
  {
    hide Exec, ReplWorld;
  }

  lemma PastCall<S>(o: Outside<S>, prog: seq<IR>, c: Config<ReplHost<S>>)
    requires hide *; c.Run? && c.pc < |prog| && prog[c.pc].InvokeFunction? && Step(ReplWorld(o), prog, c).Run?
    ensures Step(ReplWorld(o), prog, c).pc == c.pc + 1
    ensures c.pc + 1 in Step(ReplWorld(o), prog, c).st.h.cache
  {
    hide Exec, Asked, FindLabel, ArgsToHost, Understood, NameIn;
    InvokeAsks(ReplWorld(o), prog[c.pc], c.pc + 1, c.st);
  }

  // ---------- a recording with more in it ----------

  ghost predicate Richer(cache: map<nat, Option<ValueAndType>>, names: map<nat, string>, code: seq<IR>,
                         cache2: map<nat, Option<ValueAndType>>, names2: map<nat, string>) {
    && (forall k :: k <= |code| && k in cache ==> k in cache2 && cache2[k] == cache[k])
    && (forall k :: k in names ==> k in names2 && names2[k] == names[k])
  }

  lemma {:induction false} StepRicher(text: ValueAndType -> string, code: seq<IR>, t: Config<Tape>,
                                      cache: map<nat, Option<ValueAndType>>, names: map<nat, string>,
                                      cache2: map<nat, Option<ValueAndType>>, names2: map<nat, string>)
    requires Richer(cache, names, code, cache2, names2)
    requires HostOf(Step(Recorded(text, cache, names), code, t)).ok
    ensures Step(Recorded(text, cache2, names2), code, t) == Step(Recorded(text, cache, names), code, t)
  {
    hide Exec, FindLabel, AsInstanceVariable, Asked;
    if t.Run? && t.pc < |code| {
      var w, v := Recorded(text, cache, names), Recorded(text, cache2, names2);
      var ir := code[t.pc];
      if ir.InvokeFunction? {
        InvokeAsks(w, ir, t.pc + 1, t.st);
        InvokeAsks(v, ir, t.pc + 1, t.st);
      } else if ir.GenerateName? {
        NameAsks(w, ir, t.pc + 1, t.st);
        NameAsks(v, ir, t.pc + 1, t.st);
      } else {
        ExecAlike(w, v, ir, t.pc + 1, t.pc + 1, t.st.stack, t.st.env, t.st.h, t.st.h);
        assert State(t.st.stack, t.st.env, t.st.h) == t.st;
      }
    }
  }

  lemma {:induction false} RunRicher(text: ValueAndType -> string, code: seq<IR>, t: Config<Tape>, m: nat,
                                     cache: map<nat, Option<ValueAndType>>, names: map<nat, string>,
                                     cache2: map<nat, Option<ValueAndType>>, names2: map<nat, string>)
    requires Richer(cache, names, code, cache2, names2)
    requires HostOf(RunN(Recorded(text, cache, names), code, t, m)).ok
    ensures RunN(Recorded(text, cache2, names2), code, t, m) == RunN(Recorded(text, cache, names), code, t, m)
    decreases m
  {
    hide Step, Recorded, Richer;
    if m > 0 {
      var next := Step(Recorded(text, cache, names), code, t);
      RunOk(text, cache, names, code, next, m - 1);
      StepRicher(text, code, t, cache, names, cache2, names2);
      RunRicher(text, code, next, m - 1, cache, names, cache2, names2);
    }
  }

  // ---------- calls of the part that is new ----------

  /** No jump leads from the part behind b to the part before. */
  ghost predicate ClosedFrom(prog: seq<IR>, b: nat) {
    forall q :: b <= q < |prog| && ByteCode.IsJump(prog[q]) && FindLabel(prog, prog[q].target).Some?
      ==> FindLabel(prog, prog[q].target).value >= b
  }

  lemma {:induction false} StaysNew<H>(w: World<H>, prog: seq<IR>, c: Config<H>, b: nat)
    requires hide *; ClosedFrom(prog, b) && c.Run? && c.pc >= b
    ensures Step(w, prog, c).Run? ==> Step(w, prog, c).pc >= b
  {
    hide Exec, FindLabel;
    if c.pc < |prog| && Exec(w, prog[c.pc], c.pc + 1, c.st).Goto? {
      GotoIsJump(w, prog[c.pc], c.pc + 1, c.st);
    }
  }

  /** The answers d came from the host, and only entries behind the last position have been written. */
  ghost predicate OnlyNew<S>(a: ReplHost<S>, b: ReplHost<S>, d: seq<Answered>) {
    && b.last == a.last && b.log == a.log + d && b.trace == a.trace + d
    && (forall x :: x in d ==> x.position > LastIndex(a))
    && (forall k :: k <= LastIndex(a) ==> (k in b.cache <==> k in a.cache) && (k in a.cache ==> b.cache[k] == a.cache[k]))
  }

  lemma {:induction false} AdvancedNew<S>(o: Outside<S>, prog: seq<IR>, pc: nat, a: ReplHost<S>,
                                          b: ReplHost<S>) returns (d: seq<Answered>)
    requires Advanced(o, prog, pc, a, b) && pc >= LastIndex(a)
    ensures OnlyNew(a, b, d)
  {
    hide ArgsToHost, Understood;
    d := b.log[if |a.log| <= |b.log| then |a.log| else |b.log|..];
    assert a.log + [] == a.log && a.trace + [] == a.trace;
  }

  lemma {:induction false} OnlyNewTwice<S>(a: ReplHost<S>, b: ReplHost<S>, c: ReplHost<S>, d: seq<Answered>,
                                           e: seq<Answered>)
    requires OnlyNew(a, b, d) && OnlyNew(b, c, e)
    ensures OnlyNew(a, c, d + e)
  {
    assert (a.log + d) + e == a.log + (d + e) && (a.trace + d) + e == a.trace + (d + e);
  }

  /** Behind the last position every answer comes from the host. */
  lemma {:induction false} NewCalls<S>(o: Outside<S>, prog: seq<IR>, c: Config<ReplHost<S>>,
                                       m: nat) returns (d: seq<Answered>)
    requires hide *; c.Run? && c.pc >= LastIndex(c.st.h) && ClosedFrom(prog, LastIndex(c.st.h))
    ensures OnlyNew(c.st.h, HostOf(RunN(ReplWorld(o), prog, c, m)), d)
    decreases m
  {
    hide Step, ReplWorld, Advanced, OnlyNew, ClosedFrom;
    if m == 0 {
      d := [];
      NothingNew(c.st.h);
    } else {
      var next := Step(ReplWorld(o), prog, c);
      StepAdvances(o, prog, c);
      var first := AdvancedNew(o, prog, c.pc, c.st.h, HostOf(next));
      AdvancedKeeps(o, prog, c.pc, c.st.h, HostOf(next));
      if next.Failed? {
        HaltedStays(ReplWorld(o), prog, next, m - 1);
        d := first;
      } else {
        StaysNew(ReplWorld(o), prog, c, LastIndex(c.st.h));
        var rest := NewCalls(o, prog, next, m - 1);
        OnlyNewTwice(c.st.h, next.st.h, HostOf(RunN(ReplWorld(o), prog, c, m)), first, rest);
        d := first + rest;
      }
    }
  }

  lemma NothingNew<S>(a: ReplHost<S>)
    ensures OnlyNew(a, a, [])
  {
    assert a.log + [] == a.log && a.trace + [] == a.trace;
  }

  // ---------- order ----------

  ghost predicate Increasing(d: seq<Answered>) {
    forall i, j :: 0 <= i < j < |d| ==> d[i].position < d[j].position
  }

  /** Later answers belong to later instructions than any call that lies behind. */
  ghost predicate Behind(prog: seq<IR>, pc: nat, d: seq<Answered>) {
    hide *;
    forall p, x :: 0 <= p < pc && p < |prog| && prog[p].InvokeFunction? && x in d ==> x.position > p + 1
  }

  lemma {:induction false} AdvancedTrace<S>(o: Outside<S>, prog: seq<IR>, pc: nat, a: ReplHost<S>,
                                            b: ReplHost<S>) returns (d: seq<Answered>)
    requires hide *; Advanced(o, prog, pc, a, b)
    ensures b.trace == a.trace + d
    ensures d == [] || (|d| == 1 && d[0].position == pc + 1 && pc < |prog| && prog[pc].InvokeFunction?)
  {
    hide ArgsToHost, Understood;
    d := b.trace[if |a.trace| <= |b.trace| then |a.trace| else |b.trace|..];
    assert a.trace + [] == a.trace;
  }

  /** Without calls in loops the answers of a run have increasing positions: no call is made twice. */
  lemma {:induction false} AnswersInOrder<S>(o: Outside<S>, prog: seq<IR>, c: Config<ReplHost<S>>,
                                             m: nat) returns (d: seq<Answered>)
    requires hide *; c.Run? && NoCallInLoop(prog)
    ensures HostOf(RunN(ReplWorld(o), prog, c, m)).trace == c.st.h.trace + d
    ensures Increasing(d) && Behind(prog, c.pc, d)
    decreases m
  {
    hide Step, ReplWorld, Advanced, NoCallInLoop;
    if m == 0 {
      d := [];
      assert c.st.h.trace + [] == c.st.h.trace;
    } else {
      var next := Step(ReplWorld(o), prog, c);
      StepAdvances(o, prog, c);
      var first := AdvancedTrace(o, prog, c.pc, c.st.h, HostOf(next));
      if next.Failed? {
        HaltedStays(ReplWorld(o), prog, next, m - 1);
        d := first;
      } else {
        var rest := AnswersInOrder(o, prog, next, m - 1);
        d := first + rest;
        assert (c.st.h.trace + first) + rest == c.st.h.trace + d;
        BehindStep(ReplWorld(o), prog, c, rest);
        OneBefore(first, rest, c.pc, prog);
      }
    }
  }

  lemma {:induction false} BehindStep<H>(w: World<H>, prog: seq<IR>, c: Config<H>, rest: seq<Answered>)
    requires hide *; NoCallInLoop(prog) && c.Run? && Step(w, prog, c).Run? && Behind(prog, Step(w, prog, c).pc, rest)
    ensures Behind(prog, c.pc, rest)
    ensures c.pc < |prog| && prog[c.pc].InvokeFunction? ==> forall x :: x in rest ==> x.position > c.pc + 1
  {
    hide Step, NoCallInLoop;
    forall p, x | 0 <= p < c.pc && p < |prog| && prog[p].InvokeFunction? && x in rest ensures x.position > p + 1 {
      StaysPast(w, prog, c, p);
    }
    if c.pc < |prog| && prog[c.pc].InvokeFunction? {
      CallGoesOn(w, prog, c);
    }
  }

  lemma CallGoesOn<H>(w: World<H>, prog: seq<IR>, c: Config<H>)
    requires hide *; c.Run? && c.pc < |prog| && prog[c.pc].InvokeFunction? && Step(w, prog, c).Run?
    ensures Step(w, prog, c).pc == c.pc + 1
  {
    hide Exec, Asked, FindLabel;
    InvokeAsks(w, prog[c.pc], c.pc + 1, c.st);
  }

  lemma {:induction false} OneBefore(first: seq<Answered>, rest: seq<Answered>, pc: nat, prog: seq<IR>)
    requires hide *; Increasing(rest) && Behind(prog, pc, rest)
    requires first == [] || (|first| == 1 && first[0].position == pc + 1 && forall x :: x in rest ==> x.position > pc + 1)
    ensures Increasing(first + rest) && Behind(prog, pc, first + rest)
  {
    if first != [] {
      var all := first + rest;
      forall i, j | 0 <= i < j < |all| ensures all[i].position < all[j].position {
        assert all[j] == rest[j - 1] && rest[j - 1] in rest;
        if i > 0 {
          assert all[i] == rest[i - 1];
        }
      }
    } else {
      assert first + rest == rest;
    }
  }
}
