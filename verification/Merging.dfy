/** The merger: the stack of tasks, what a run over the queue keeps, its completion, and the merger as it runs. */
module Merging {
  import opened Syntax
  import opened MergeTasks
  import opened Inferred

  // ===== The stack of merge tasks: how tasks are inspected, what the stack keeps, and how it is completed.

  datatype Task =
    | Inspect(path: Path, index: nat, typ: InferredType, init: bool)
    | Building(path: Path, index: nat, builder: Builder)
    | Choosing(index: nat, pointers: seq<nat>)
    | Complete(index: nat, typ: InferredType)

  /** The tasks; and, to state what holds, the path every slot stands for and the slots made for the inputs themselves. */
  datatype Stack = Stack(tasks: seq<Task>, paths: seq<Path>, roots: set<nat>)

  const EMPTY: Stack := Stack([], [], {})

  /** What is below a type: a part at its place, or an alternative at the same place. */
  datatype Kid = Kid(path: Path, typ: InferredType)

  function PartKids(path: Path, ps: seq<Part>): (ks: seq<Kid>)
    ensures hide *; |ks| == |ps| && forall i :: 0 <= i < |ps| ==> ks[i] == Kid(path + Suffix(ps[i].place), ps[i].typ)
  {
    seq(|ps|, i requires 0 <= i < |ps| => Kid(path + Suffix(ps[i].place), ps[i].typ))
  }

  function MemberKids(path: Path, ts: seq<InferredType>): (ks: seq<Kid>)
    ensures |ks| == |ts| && forall i :: 0 <= i < |ts| ==> ks[i] == Kid(path, ts[i])
  {
    seq(|ts|, i requires 0 <= i < |ts| => Kid(path, ts[i]))
  }

  function Kids(path: Path, t: InferredType): seq<Kid> {
    hide *;
    if HasParts(t) then PartKids(path, Parts(t)) else if t.inner.TAllOf? then MemberKids(path, t.inner.types) else []
  }

  function Slots(kids: seq<Kid>, i: nat): (ts: seq<Task>)
    ensures |ts| == |kids| && forall k :: 0 <= k < |kids| ==> ts[k] == Inspect(kids[k].path, i + k, kids[k].typ, false)
  {
    seq(|kids|, k requires 0 <= k < |kids| => Inspect(kids[k].path, i + k, kids[k].typ, false))
  }

  function KidPaths(kids: seq<Kid>): (r: seq<Path>)
    ensures |r| == |kids| && forall k :: 0 <= k < |kids| ==> r[k] == kids[k].path
  {
    seq(|kids|, k requires 0 <= k < |kids| => kids[k].path)
  }

  function Indices(i: nat, n: nat): (r: seq<nat>)
    ensures |r| == n && forall k :: 0 <= k < n ==> r[k] == i + k
  {
    seq(n, k => i + k)
  }

  predicate Shares(task: Task, path: Path, t: InferredType) {
    hide *;
    task.Building? && task.path == path && Suits(task.builder, t)
  }

  /** The first builder for the same path that suits the type. */
  function FindBuilder(tasks: seq<Task>, path: Path, t: InferredType): (r: Option<nat>)
    ensures hide *; r.Some? ==> r.value < |tasks| && Shares(tasks[r.value], path, t)
    ensures r.Some? ==> forall i :: 0 <= i < r.value ==> !Shares(tasks[i], path, t)
    ensures r.None? ==> forall i :: 0 <= i < |tasks| ==> !Shares(tasks[i], path, t)
  {
    if tasks == [] then None
    else if Shares(tasks[0], path, t) then Some(0)
    else var r := FindBuilder(tasks[1..], path, t); if r.Some? then Some(r.value + 1) else None
  }

  // ---------- one inspection ----------

  /** What an inspection does: a task for an existing slot or for a new one, and slots for what is below. */
  datatype Move = Move(target: Option<nat>, task: Task, kids: seq<Kid>)

  function MoveOf(tasks: seq<Task>, t: Task): Move
    requires hide MoveOf, NewBuilder, Kids, Parts, InsertAll, Suits, Indices; t.Inspect?
  {
    var next := |tasks|;
    var kids := Kids(t.path, t.typ);
    if HasParts(t.typ) then
      var found := FindBuilder(tasks, t.path, t.typ);
      if found.Some? then
        var b := tasks[found.value];
        Move(found, b.(builder := InsertAll(b.builder, Parts(t.typ), next)), kids)
      else if !t.init && t.index < next && tasks[t.index] == t then
        Move(Some(t.index), Building(t.path, t.index, InsertAll(NewBuilder(t.typ), Parts(t.typ), next)), kids)
      else
        Move(None, Building(t.path, next, InsertAll(NewBuilder(t.typ), Parts(t.typ), next + 1)), kids)
    else if t.typ.inner.TAllOf? then
      if t.index < next then Move(Some(t.index), Choosing(t.index, Indices(next, |kids|)), kids)
      else Move(None, Choosing(next, Indices(next + 1, |kids|)), kids)
    else if !t.init then Move(if t.index < next then Some(t.index) else None, Complete(t.index, t.typ), [])
    else Move(None, Complete(next, t.typ), [])
  }

  function Base(tasks: seq<Task>, m: Move): nat { if m.target.Some? then |tasks| else |tasks| + 1 }

  function NewSlots(tasks: seq<Task>, m: Move): seq<Task> { Slots(m.kids, Base(tasks, m)) }

  function Updated(tasks: seq<Task>, m: Move): seq<Task>
    requires m.target.Some? ==> m.target.value < |tasks|
  {
    (if m.target.Some? then tasks[m.target.value := m.task] else tasks + [m.task]) + NewSlots(tasks, m)
  }

  function Apply(s: Stack, path: Path, m: Move): Stack
    requires hide *; m.target.Some? ==> m.target.value < |s.tasks|
  {
    Stack(Updated(s.tasks, m),
          (if m.target.Some? then s.paths else s.paths + [path]) + KidPaths(m.kids),
          if m.target.Some? then s.roots else s.roots + {|s.tasks|})
  }

  // ---------- the queue ----------

  function TaskSize(t: Task): nat { hide *; if t.Inspect? then Size(t.typ) else 1 }

  function QueueSize(q: seq<Task>): nat {
    hide *;
    if q == [] then 0 else TaskSize(q[0]) + QueueSize(q[1..])
  }

  lemma QueueSizeAppend(a: seq<Task>, b: seq<Task>)
    ensures QueueSize(a + b) == QueueSize(a) + QueueSize(b)
  {
    hide TaskSize;
    if a == [] {
      assert a + b == b;
    } else {
      assert (a + b)[1..] == a[1..] + b;
    }
  }

  function KidSizes(kids: seq<Kid>): nat {
    hide *;
    if kids == [] then 0 else Size(kids[0].typ) + KidSizes(kids[1..])
  }

  lemma SlotSizes(kids: seq<Kid>, i: nat)
    ensures QueueSize(Slots(kids, i)) == KidSizes(kids)
  {
    if kids != [] {
      assert Slots(kids, i)[1..] == Slots(kids[1..], i + 1);
      SlotSizes(kids[1..], i + 1);
    }
  }

  lemma PartKidSizes(path: Path, ps: seq<Part>)
    ensures KidSizes(PartKids(path, ps)) == PartSizes(ps)
  {
    hide Size;
    if ps != [] {
      assert PartKids(path, ps)[1..] == PartKids(path, ps[1..]);
      PartKidSizes(path, ps[1..]);
    }
  }

  lemma MemberKidSizes(path: Path, ts: seq<InferredType>)
    ensures KidSizes(MemberKids(path, ts)) == Sizes(ts)
  {
    hide Size;
    if ts != [] {
      assert MemberKids(path, ts)[1..] == MemberKids(path, ts[1..]);
      MemberKidSizes(path, ts[1..]);
    }
  }

  lemma KidsSmaller(path: Path, t: InferredType)
    ensures KidSizes(Kids(path, t)) < Size(t)
  {
    hide Parts, PartSizes, Sizes;
    if HasParts(t) {
      PartKidSizes(path, Parts(t));
    } else if t.inner.TAllOf? {
      MemberKidSizes(path, t.inner.types);
    }
  }

  /** What an inspection puts into the queue is smaller than the type it took out. */
  lemma QueueShrinks(tasks: seq<Task>, t: Task, queue: seq<Task>)
    requires hide *; t.Inspect?
    ensures QueueSize(queue + NewSlots(tasks, MoveOf(tasks, t))) < QueueSize([t] + queue)
  {
    hide Kids, Size, QueueSize, Slots, InsertAll, NewBuilder, FindBuilder, Parts, KidSizes, PartSizes, Shares;
    var m := MoveOf(tasks, t);
    QueueSizeAppend(queue, NewSlots(tasks, m));
    QueueSizeAppend([t], queue);
    SlotSizes(m.kids, Base(tasks, m));
    KidsSmaller(t.path, t.typ);
    OneTask(t);
  }

  lemma OneTask(t: Task)
    requires hide *; t.Inspect?
    ensures QueueSize([t]) == Size(t.typ) >= 1 && KidSizes([]) == 0
  {
    assert [t][1..] == [];
  }

  /** The tasks of the inputs. */
  function Inputs(types: seq<InferredType>): (q: seq<Task>)
    ensures |q| == |types| && forall i :: 0 <= i < |types| ==> q[i] == Inspect([], i, types[i], true)
  {
    seq(|types|, i requires 0 <= i < |types| => Inspect([], i, types[i], true))
  }

  /** A target of a move is a slot that exists. */
  lemma MoveTarget(tasks: seq<Task>, t: Task)
    requires hide *; t.Inspect?
    ensures var m := MoveOf(tasks, t); m.target.Some? ==> m.target.value < |tasks|
  {
    hide InsertAll, Parts, Kids, FindBuilder, NewBuilder, PartSizes, Shares, Size;
  }

  function Run(s: Stack, queue: seq<Task>): Stack
    decreases QueueSize(queue)
  {
    hide *;
    if queue == [] then s
    else if !queue[0].Inspect? then s
    else
      var m := MoveOf(s.tasks, queue[0]);
      MoveTarget(s.tasks, queue[0]);
      QueueShrinks(s.tasks, queue[0], queue[1..]);
      assert [queue[0]] + queue[1..] == queue;
      Run(Apply(s, queue[0].path, m), queue[1..] + NewSlots(s.tasks, m))
  }

  // ---------- completion ----------

  function TypeOf(t: Task, types: map<nat, InferredType>): InferredType {
    match t
    case Inspect(_, _, typ, _) => typ
    case Building(_, _, b) => Build(b, types)
    case Choosing(_, ptrs) => Merged(ptrs, types)
    case Complete(_, typ) => typ
  }

  function IndexOf(t: Task): nat { t.index }

  /** Types of the slots from i on, computed from the last slot down. */
  function TypesFrom(tasks: seq<Task>, i: nat): map<nat, InferredType>
    requires hide *; i <= |tasks|
    decreases |tasks| - i
  {
    if i == |tasks| then map[] else
    var later := TypesFrom(tasks, i + 1);
    later[IndexOf(tasks[i]) := TypeOf(tasks[i], later)]
  }

  function Pointers(t: Task): seq<nat> {
    match t
    case Choosing(_, ptrs) => ptrs
    case Building(_, _, RecordB(fs)) => FieldPointers(fs)
    case Building(_, _, VariantB(cs)) => CasePointers(cs)
    case Building(_, _, TupleB(items)) => ItemPointers(items)
    case Building(_, _, ListB(elem)) => elem
    case Building(_, _, OptionB(some)) => some
    case Building(_, _, ResultB(ok, error)) => (if ok.Some? then ok.value else []) + (if error.Some? then error.value else [])
    case _ => []
  }

  function FieldPointers(fs: seq<Field<seq<nat>>>): seq<nat> { if fs == [] then [] else fs[0].of + FieldPointers(fs[1..]) }

  function CasePointers(cs: seq<Field<Option<seq<nat>>>>): seq<nat> {
    if cs == [] then [] else (if cs[0].of.Some? then cs[0].of.value else []) + CasePointers(cs[1..])
  }

  function ItemPointers(items: seq<seq<nat>>): seq<nat> { if items == [] then [] else items[0] + ItemPointers(items[1..]) }

  /** Completing a task uses the types its pointers find; a task that is still inspected uses itself. */
  function UsedBy(t: Task, types: map<nat, InferredType>): set<nat> {
    if t.Inspect? then {t.index} else set j | j in Pointers(t) && j in types
  }

  /** What completing the slots from i on uses. */
  function UsedFrom(tasks: seq<Task>, i: nat): set<nat>
    requires hide *; i <= |tasks|
    decreases |tasks| - i
  {
    if i == |tasks| then {} else UsedFrom(tasks, i + 1) + UsedBy(tasks[i], TypesFrom(tasks, i + 1))
  }

  /** The types nothing has used, in the order of their indices. */
  function Results(types: map<nat, InferredType>, used: set<nat>, i: nat, n: nat): seq<InferredType>
    requires i <= n
    decreases n - i
  {
    if i == n then [] else (if i in types && i !in used then [types[i]] else []) + Results(types, used, i + 1, n)
  }

  function Finished(tasks: seq<Task>): InferredType {
    hide *;
    var final := Results(TypesFrom(tasks, 0), UsedFrom(tasks, 0), 0, |tasks|);
    if |final| == 1 then final[0] else Merge(final)
  }

  function AllOf(types: seq<InferredType>): InferredType {
    Finished(Run(EMPTY, Inputs(types)).tasks)
  }

  // ===== What the merge stack keeps from step to step, and what comes out at the end.

  // ---------- the invariant ----------

  ghost predicate Leads(t: Task, j: nat) {
    hide *;
    (t.Building? && exists q :: Points(t.builder, q, j)) || (t.Choosing? && j in t.pointers)
  }

  ghost predicate BuilderOk(s: Stack, i: nat)
    requires hide *; i < |s.tasks| == |s.paths|
  {
    s.tasks[i].Building? ==>
      && s.tasks[i].path == s.paths[i]
      && forall q, j: nat :: Points(s.tasks[i].builder, q, j) ==>
           i < j < |s.tasks| && j !in s.roots && s.paths[j] == s.paths[i] + Suffix(q)
  }

  ghost predicate ChooserOk(s: Stack, i: nat)
    requires i < |s.tasks| == |s.paths|
  {
    s.tasks[i].Choosing? ==>
      forall j :: j in s.tasks[i].pointers ==> i < j < |s.tasks| && j !in s.roots && s.paths[j] == s.paths[i]
  }

  /** A slot holds a task with its own index, pointers lead to later slots for the right paths, and slots of inputs stand
      for the empty path. */
  ghost predicate SlotOk(s: Stack, i: nat)
    requires hide *; i < |s.tasks| == |s.paths|
  {
    var t := s.tasks[i];
    && IndexOf(t) == i && BuilderOk(s, i) && ChooserOk(s, i)
    && (t.Inspect? ==> t.path == s.paths[i] && !t.init)
    && (t.Complete? ==> !HasParts(t.typ) && !t.typ.inner.TAllOf?)
    && (i in s.roots ==> s.paths[i] == [] && (t.Building? || t.Complete?))
  }

  /** Every slot was made for an input or is pointed to. */
  ghost predicate Parented(s: Stack, i: nat) {
    hide *;
    i in s.roots || exists j :: 0 <= j < |s.tasks| && Leads(s.tasks[j], i)
  }

  ghost predicate Shaped(s: Stack) {
    hide *;
    && |s.tasks| == |s.paths|
    && (forall i :: i in s.roots ==> i < |s.tasks|)
    && (forall i :: 0 <= i < |s.tasks| ==> SlotOk(s, i))
    && (forall i :: 0 <= i < |s.tasks| ==> Parented(s, i))
  }

  // ---------- moves that fit ----------

  ghost predicate FromBase(tasks: seq<Task>, m: Move, j: nat) { Base(tasks, m) <= j < Base(tasks, m) + |m.kids| }

  function PathOf(s: Stack, path: Path, m: Move): Path
    requires m.target.Some? ==> m.target.value < |s.paths|
  {
    if m.target.Some? then s.paths[m.target.value] else path
  }

  function SlotOf(s: Stack, m: Move): nat { if m.target.Some? then m.target.value else |s.tasks| }

  ghost predicate Fitting(s: Stack, path: Path, m: Move)
    requires hide *; |s.tasks| == |s.paths|
  {
    && (m.target.Some? ==> m.target.value < |s.tasks|)
    && IndexOf(m.task) == SlotOf(s, m) && !m.task.Inspect?
    && (m.task.Complete? ==> !HasParts(m.task.typ) && !m.task.typ.inner.TAllOf?)
    && (m.target.None? ==> path == [] && !m.task.Choosing?)
    && (m.target.Some? && m.target.value in s.roots ==> !m.task.Choosing?)
    && (m.task.Building? ==> m.task.path == PathOf(s, path, m))
    && (forall j: nat :: FromBase(s.tasks, m, j) ==> Leads(m.task, j))
  }

  /** Pointers of the new task are old ones of its slot, or lead to the new slots. */
  ghost predicate PointersFit(s: Stack, path: Path, m: Move)
    requires hide Points; |s.tasks| == |s.paths| && (m.target.Some? ==> m.target.value < |s.tasks|)
  {
    && (m.target.Some? ==> forall j: nat :: Leads(s.tasks[m.target.value], j) ==> Leads(m.task, j))
    && (m.task.Building? ==> forall q, j: nat :: Points(m.task.builder, q, j) ==>
          || (m.target.Some? && s.tasks[m.target.value].Building? && Points(s.tasks[m.target.value].builder, q, j))
          || (FromBase(s.tasks, m, j) && m.kids[j - Base(s.tasks, m)].path == PathOf(s, path, m) + Suffix(q)))
    && (m.task.Choosing? ==> forall j :: j in m.task.pointers ==>
          FromBase(s.tasks, m, j) && m.kids[j - Base(s.tasks, m)].path == PathOf(s, path, m))
  }

  lemma {:induction false} ApplySlots(s: Stack, path: Path, m: Move)
    requires |s.tasks| == |s.paths| && (m.target.Some? ==> m.target.value < |s.tasks|)
    ensures var n := Apply(s, path, m); var base := Base(s.tasks, m);
            && |n.tasks| == |n.paths| == base + |m.kids|
            && n.tasks[SlotOf(s, m)] == m.task && n.paths[SlotOf(s, m)] == PathOf(s, path, m)
            && (forall i :: 0 <= i < |s.tasks| ==> n.paths[i] == s.paths[i])
            && (forall i :: 0 <= i < |s.tasks| && i != SlotOf(s, m) ==> n.tasks[i] == s.tasks[i])
            && (forall i :: base <= i < base + |m.kids| ==>
                  n.tasks[i] == Inspect(m.kids[i - base].path, i, m.kids[i - base].typ, false) && n.paths[i] == m.kids[i - base].path)
            && (forall i :: i in n.roots <==> i in s.roots || (m.target.None? && i == |s.tasks|))
  {
  }

  lemma {:induction false} OldSlotOk(s: Stack, path: Path, m: Move, i: nat)
    requires hide SlotOk, Leads, Apply; Shaped(s) && Fitting(s, path, m) && i < |s.tasks| && i != SlotOf(s, m)
    ensures |Apply(s, path, m).tasks| == |Apply(s, path, m).paths| > i
    ensures SlotOk(Apply(s, path, m), i)
  {
    hide Points, Suffix, Apply, HasParts, Leads;
    ApplySlots(s, path, m);
    assert SlotOk(s, i);
  }

  lemma MovedSlotOk(s: Stack, path: Path, m: Move)
    requires hide SlotOk, PointersFit, Leads, Apply; Shaped(s) && Fitting(s, path, m) && PointersFit(s, path, m)
    ensures |Apply(s, path, m).tasks| == |Apply(s, path, m).paths| > SlotOf(s, m)
    ensures SlotOk(Apply(s, path, m), SlotOf(s, m))
  {
    hide Points, Suffix, Apply, HasParts, Leads;
    ApplySlots(s, path, m);
    if m.target.Some? {
      assert SlotOk(s, m.target.value);
    }
  }

  lemma {:induction false} NewSlotOk(s: Stack, path: Path, m: Move, i: nat)
    requires hide SlotOk, Leads, Apply; Shaped(s) && Fitting(s, path, m) && FromBase(s.tasks, m, i)
    ensures |Apply(s, path, m).tasks| == |Apply(s, path, m).paths| > i
    ensures SlotOk(Apply(s, path, m), i)
  {
    hide Points, Suffix, Apply, HasParts, Leads;
    ApplySlots(s, path, m);
  }

  lemma {:induction false} StillParented(s: Stack, path: Path, m: Move, i: nat)
    requires hide SlotOk, PointersFit, Leads, Apply;
             Shaped(s) && Fitting(s, path, m) && PointersFit(s, path, m) && i < |Apply(s, path, m).tasks|
    ensures Parented(Apply(s, path, m), i)
  {
    hide Apply, HasParts, Leads, SlotOk, Points;
    ApplySlots(s, path, m);
    var n := Apply(s, path, m);
    if i < |s.tasks| {
      assert Parented(s, i);
      if i !in s.roots {
        var j :| 0 <= j < |s.tasks| && Leads(s.tasks[j], i);
        assert Leads(n.tasks[j], i);
      }
    } else if i != SlotOf(s, m) {
      assert FromBase(s.tasks, m, i);
      assert Leads(n.tasks[SlotOf(s, m)], i);
    }
  }

  lemma ApplyShaped(s: Stack, path: Path, m: Move)
    requires hide SlotOk, PointersFit, Leads, Apply; Shaped(s) && Fitting(s, path, m) && PointersFit(s, path, m)
    ensures Shaped(Apply(s, path, m))
  {
    hide Apply, HasParts, Leads, SlotOk, Fitting, PointersFit, Parented;
    FittingTarget(s, path, m);
    ApplySlots(s, path, m);
    var n := Apply(s, path, m);
    forall i | 0 <= i < |n.tasks| ensures SlotOk(n, i) && Parented(n, i) {
      StillParented(s, path, m, i);
      if i == SlotOf(s, m) {
        MovedSlotOk(s, path, m);
      } else if i < |s.tasks| {
        OldSlotOk(s, path, m, i);
      } else {
        NewSlotOk(s, path, m, i);
      }
    }
  }

  lemma FittingTarget(s: Stack, path: Path, m: Move)
    requires hide *; |s.tasks| == |s.paths| && Fitting(s, path, m)
    ensures m.target.Some? ==> m.target.value < |s.tasks|
  {
    hide Leads;
  }

  // ---------- the moves of inspections fit ----------

  /** A task of the queue: an input that is not a set of alternatives, or a copy of what its slot holds. */
  ghost predicate Waiting(tasks: seq<Task>, t: Task) {
    && t.Inspect?
    && (t.init ==> t.path == [] && !t.typ.inner.TAllOf?)
    && (!t.init ==> t.index < |tasks| && tasks[t.index] == t)
  }

  lemma {:induction false} ExtendedBuilder(b: Builder, t: InferredType, i: nat, q: Place, j: nat)
    requires hide *; HasParts(t) && (Suits(b, t) || b == NewBuilder(t))
    ensures Points(InsertAll(b, Parts(t), i), q, j) <==> Points(b, q, j) || Numbered(Parts(t), i, q, j)
  {
    hide Points, Parts, InsertAll, Accepts, Suits, NewBuilder;
    SuitsAccepts(b, t);
    InsertAllPoints(b, Parts(t), i, q, j);
  }

  /** A builder that is extended by the parts of a type, or a new one. */
  lemma {:induction false} BuildingFits(s: Stack, t: Task, m: Move, old_: Builder)
    requires hide Fitting, Insert, Leads, NewBuilder, Parented, PartSizes, Parts, Points, Size, SlotOk, Suits,
                  PointersFit, PartKids, HasParts;
             Shaped(s) && t.Inspect? && HasParts(t.typ) && m.kids == PartKids(t.path, Parts(t.typ))
    requires m.target.Some? ==> m.target.value < |s.tasks| && s.paths[m.target.value] == t.path
    requires m.target.None? ==> t.path == []
    requires m.task == Building(t.path, SlotOf(s, m), InsertAll(old_, Parts(t.typ), Base(s.tasks, m)))
    requires old_ == NewBuilder(t.typ) || Suits(old_, t.typ)
    requires (m.target.Some? && s.tasks[m.target.value].Building? && s.tasks[m.target.value].builder == old_)
          || ((m.target.Some? ==> s.tasks[m.target.value].Inspect?) && old_ == NewBuilder(t.typ))
    ensures Fitting(s, t.path, m) && PointersFit(s, t.path, m)
  {
    hide Points, Parts, InsertAll, Suits, NewBuilder, Suffix, SlotOk, Parented, HasParts, PartSizes, Size, Shaped,
         PartKids;
    var base := Base(s.tasks, m);
    var b := m.task.builder;
    forall q, j: nat ensures Points(b, q, j) <==> Points(old_, q, j) || Numbered(Parts(t.typ), base, q, j) {
      ExtendedBuilder(old_, t.typ, base, q, j);
    }
    forall j: nat | FromBase(s.tasks, m, j) ensures Leads(m.task, j) {
      assert Numbered(Parts(t.typ), base, Parts(t.typ)[j - base].place, j);
      assert Points(b, Parts(t.typ)[j - base].place, j);
    }
    if old_ == NewBuilder(t.typ) {
      forall q, j: nat ensures !Points(old_, q, j) {
        NewPointsNowhere(t.typ, q, j);
      }
    }
    if m.target.Some? {
      var was := s.tasks[m.target.value];
      forall j: nat | Leads(was, j) ensures Leads(m.task, j) {
        var q :| was.Building? && Points(was.builder, q, j);
        assert Points(b, q, j);
      }
    }
  }

  lemma ChoosingFits(s: Stack, t: Task, m: Move)
    requires hide MoveOf, SlotOk, PointersFit, Leads;
             Shaped(s) && Waiting(s.tasks, t) && t.typ.inner.TAllOf? && m == MoveOf(s.tasks, t)
    ensures Fitting(s, t.path, m) && PointersFit(s, t.path, m)
  {
    hide Points, Parts, InsertAll, NewBuilder, Suffix, Parented, FindBuilder, PartSizes, Size;
    assert SlotOk(s, t.index);
    InspectLeads(t);
    assert !HasParts(t.typ) && m.kids == MemberKids(t.path, t.typ.inner.types);
    assert m == Move(Some(t.index), Choosing(t.index, Indices(|s.tasks|, |m.kids|)), m.kids);
    forall j: nat | FromBase(s.tasks, m, j) ensures Leads(m.task, j) {
      assert Indices(|s.tasks|, |m.kids|)[j - |s.tasks|] == j;
    }
  }

  lemma InspectLeads(t: Task)
    requires t.Inspect?
    ensures forall j: nat :: !Leads(t, j)
  {
  }

  lemma CompleteFits(s: Stack, t: Task, m: Move)
    requires hide MoveOf, SlotOk, PointersFit, Leads;
             Shaped(s) && Waiting(s.tasks, t) && !HasParts(t.typ) && !t.typ.inner.TAllOf? && m == MoveOf(s.tasks, t)
    ensures Fitting(s, t.path, m) && PointersFit(s, t.path, m)
  {
    hide Points, Parts, InsertAll, NewBuilder, Suffix, Parented, FindBuilder, Kids, SlotOk, PartSizes, Size;
    InspectLeads(t);
    if !t.init {
      assert SlotOk(s, t.index);
    }
  }

  lemma PartsFit(s: Stack, t: Task, m: Move)
    requires hide MoveOf, SlotOk, PointersFit, Leads;
             Shaped(s) && Waiting(s.tasks, t) && HasParts(t.typ) && m == MoveOf(s.tasks, t)
    ensures Fitting(s, t.path, m) && PointersFit(s, t.path, m)
  {
    hide Points, Parts, InsertAll, NewBuilder, Suffix, Parented, FindBuilder, Suits, HasParts, Fitting, PointersFit,
         PartSizes, Size;
    var found := FindBuilder(s.tasks, t.path, t.typ);
    if found.Some? {
      assert SlotOk(s, found.value);
      BuildingFits(s, t, m, s.tasks[found.value].builder);
    } else {
      if !t.init {
        assert SlotOk(s, t.index);
      }
      BuildingFits(s, t, m, NewBuilder(t.typ));
    }
  }

  lemma MoveFits(s: Stack, t: Task)
    requires hide MoveOf, SlotOk, PointersFit, Leads; Shaped(s) && Waiting(s.tasks, t)
    ensures Fitting(s, t.path, MoveOf(s.tasks, t)) && PointersFit(s, t.path, MoveOf(s.tasks, t))
  {
    hide Shaped, MoveOf, Fitting, PointersFit;
    if HasParts(t.typ) {
      PartsFit(s, t, MoveOf(s.tasks, t));
    } else if t.typ.inner.TAllOf? {
      ChoosingFits(s, t, MoveOf(s.tasks, t));
    } else {
      CompleteFits(s, t, MoveOf(s.tasks, t));
    }
  }

  // ===== What a whole run over the queue keeps: which tasks wait, and where the leaves of the inputs are.

  // ---------- one inspection ----------

  lemma {:induction false} MoveShape(s: Stack, t: Task, m: Move)
    requires hide MoveOf, SlotOk, Parts, PartSizes, Parented, Size;
             Shaped(s) && Waiting(s.tasks, t) && m == MoveOf(s.tasks, t)
    ensures m.kids == Kids(t.path, t.typ)
    ensures m.task.Complete? <==> !HasParts(t.typ) && !t.typ.inner.TAllOf?
    ensures m.target.Some? ==> m.target.value < |s.tasks|
    ensures m.target.Some? ==> s.tasks[m.target.value].Building? || (!t.init && m.target.value == t.index)
    ensures m.task.Building? || (m.target.Some? && s.tasks[m.target.value].Building?) ==> HasParts(t.typ)
    ensures m.task.Complete? ==> m.task.typ == t.typ && PathOf(s, t.path, m) == t.path
  {
    hide Points, Parts, InsertAll, NewBuilder, Suffix, Parented, FindBuilder, HasParts, Size;
    if !t.init {
      assert SlotOk(s, t.index);
    }
  }

  // ---------- waiting tasks ----------

  /** All tasks of the queue wait, each for a slot of its own. */
  ghost predicate Pending(tasks: seq<Task>, queue: seq<Task>) {
    && (forall k :: 0 <= k < |queue| ==> Waiting(tasks, queue[k]))
    && (forall k, l :: 0 <= k < l < |queue| && !queue[k].init && !queue[l].init ==> queue[k].index != queue[l].index)
  }

  lemma {:induction false} StillWaiting(s: Stack, queue: seq<Task>, t: Task, m: Move, k: nat)
    requires hide *; t.Inspect? && Shaped(s) && Pending(s.tasks, [t] + queue) && m == MoveOf(s.tasks, t) && k < |queue|
    requires m.target.Some? ==> m.target.value < |s.tasks|
    ensures queue[k].Inspect? && Waiting(Apply(s, t.path, m).tasks, queue[k])
  {
    hide Shaped, MoveOf, Apply, Kids;
    var all := [t] + queue;
    assert Waiting(s.tasks, all[0]) && Waiting(s.tasks, all[k + 1]);
    MoveShape(s, t, m);
    ShapedSizes(s);
    ApplySlots(s, t.path, m);
  }

  lemma ShapedSizes(s: Stack)
    requires Shaped(s)
    ensures |s.tasks| == |s.paths|
  {
  }

  lemma {:induction false} StillPending(s: Stack, queue: seq<Task>, t: Task, m: Move)
    requires hide *; t.Inspect? && Shaped(s) && Pending(s.tasks, [t] + queue) && m == MoveOf(s.tasks, t)
    requires m.target.Some? ==> m.target.value < |s.tasks|
    ensures Pending(Apply(s, t.path, m).tasks, queue + NewSlots(s.tasks, m))
  {
    hide Shaped, MoveOf, Apply, Kids, Waiting, Slots;
    ShapedSizes(s);
    ApplySlots(s, t.path, m);
    var n := Apply(s, t.path, m);
    var slots := NewSlots(s.tasks, m);
    var now := queue + slots;
    forall k | 0 <= k < |now| ensures Waiting(n.tasks, now[k]) && now[k].Inspect? {
      if k < |queue| {
        StillWaiting(s, queue, t, m, k);
      } else {
        NewWaiting(s, t, m, k - |queue|);
      }
    }
    forall k, l | 0 <= k < l < |now| && !now[k].init && !now[l].init ensures now[k].index != now[l].index {
      if l < |queue| {
        assert ([t] + queue)[k + 1] == now[k] && ([t] + queue)[l + 1] == now[l];
      } else if k < |queue| {
        assert ([t] + queue)[k + 1] == now[k];
        WaitingIndex(s.tasks, now[k]);
      }
    }
  }

  lemma WaitingIndex(tasks: seq<Task>, t: Task)
    requires t.Inspect? && Waiting(tasks, t) && !t.init
    ensures t.index < |tasks|
  {
  }

  lemma {:induction false} NewWaiting(s: Stack, t: Task, m: Move, k: nat)
    requires t.Inspect? && |s.tasks| == |s.paths| && k < |m.kids| && (m.target.Some? ==> m.target.value < |s.tasks|)
    ensures Waiting(Apply(s, t.path, m).tasks, NewSlots(s.tasks, m)[k])
  {
    hide Apply;
    ApplySlots(s, t.path, m);
  }

  // ---------- where the leaves are ----------

  ghost predicate KidLeaf(kids: seq<Kid>, p: Path, leaf: Mark) {
    exists k :: k in kids && HasLeaf(k.typ, k.path, p, leaf)
  }

  lemma {:induction false} PartsLeaves(path: Path, t: InferredType, p: Path, leaf: Mark)
    requires HasParts(t)
    ensures HasLeaf(t, path, p, leaf) <==>
            KidLeaf(PartKids(path, Parts(t)), p, leaf) || Stands(SkeletonOf(t), path, p, leaf)
  {
    hide Parts, Suffix, Size, HasParts, ShapeOf, Stands, SkeletonOf;
    var kids := PartKids(path, Parts(t));
    if HasLeaf(t, path, p, leaf) && !Stands(SkeletonOf(t), path, p, leaf) {
      var c :| c in Parts(t) && HasLeaf(c.typ, path + Suffix(c.place), p, leaf);
      var i :| 0 <= i < |Parts(t)| && Parts(t)[i] == c;
      assert kids[i] in kids;
    }
    if KidLeaf(kids, p, leaf) {
      var k :| k in kids && HasLeaf(k.typ, k.path, p, leaf);
      var i :| 0 <= i < |kids| && kids[i] == k;
      assert Parts(t)[i] in Parts(t);
    }
  }

  lemma {:induction false} MembersLeaves(path: Path, ts: seq<InferredType>, p: Path, leaf: Mark)
    ensures AnyLeaf(ts, path, p, leaf) <==> KidLeaf(MemberKids(path, ts), p, leaf)
  {
    hide HasLeaf, Size, MemberKids;
    var kids := MemberKids(path, ts);
    if AnyLeaf(ts, path, p, leaf) {
      var x :| x in ts && HasLeaf(x, path, p, leaf);
      var i :| 0 <= i < |ts| && ts[i] == x;
      assert kids[i] in kids;
    }
    if KidLeaf(kids, p, leaf) {
      var k :| k in kids && HasLeaf(k.typ, k.path, p, leaf);
      var i :| 0 <= i < |kids| && kids[i] == k;
      assert ts[i] in ts;
    }
  }

  /** A type with parts stands here and has this skeleton. */
  ghost predicate Frames(t: InferredType, path: Path, p: Path, leaf: Mark) {
    HasParts(t) && Stands(SkeletonOf(t), path, p, leaf)
  }

  /** The leaves of a type are those of what is below it, and its own skeleton. */
  lemma {:induction false} KidsLeaves(path: Path, t: InferredType, p: Path, leaf: Mark)
    requires HasParts(t) || t.inner.TAllOf?
    ensures HasLeaf(t, path, p, leaf) <==> KidLeaf(Kids(path, t), p, leaf) || Frames(t, path, p, leaf)
  {
    hide Parts, HasParts, HasLeaf, AnyLeaf, KidLeaf, Stands, SkeletonOf;
    if HasParts(t) {
      PartsLeaves(path, t, p, leaf);
    } else {
      LeafOfAlternatives(t, path, p, leaf);
      MembersLeaves(path, t.inner.types, p, leaf);
    }
  }

  ghost predicate QueueLeaf(queue: seq<Task>, p: Path, leaf: Mark) {
    hide *;
    exists t :: t in queue && t.Inspect? && HasLeaf(t.typ, t.path, p, leaf)
  }

  /** The slot has a builder for the path with this skeleton. */
  ghost predicate BuildsAt(s: Stack, i: nat, p: Path, leaf: Mark) {
    hide *;
    i < |s.tasks| && i < |s.paths| && s.tasks[i].Building? && Stands(BuilderBones(s.tasks[i].builder), s.paths[i], p, leaf)
  }

  ghost predicate CompleteAt(s: Stack, i: nat, p: Path, leaf: Mark) {
    hide *;
    i < |s.tasks| && i < |s.paths| && s.tasks[i].Complete? && HasLeaf(s.tasks[i].typ, s.paths[i], p, leaf)
  }

  ghost predicate DoneAt(s: Stack, i: nat, p: Path, leaf: Mark) {
    hide *;
    CompleteAt(s, i, p, leaf) || BuildsAt(s, i, p, leaf)
  }

  ghost predicate DoneLeaf(s: Stack, p: Path, leaf: Mark) { exists i: nat :: DoneAt(s, i, p, leaf) }

  ghost predicate InspectedAt(s: Stack, i: nat, p: Path, leaf: Mark) {
    hide *;
    i < |s.tasks| && i < |s.paths| && s.tasks[i].Inspect? && HasLeaf(s.tasks[i].typ, s.paths[i], p, leaf)
  }

  /** A leaf is there if and only if it waits in the queue or is in a completed slot, a skeleton if it waits or has a builder;
      and no inspected type, even one that another builder has taken over, has it if it is not there. */
  ghost predicate Kept(s: Stack, queue: seq<Task>, p: Path, leaf: Mark, there: bool) {
    && (there <==> QueueLeaf(queue, p, leaf) || DoneLeaf(s, p, leaf))
    && (forall i: nat :: InspectedAt(s, i, p, leaf) ==> there)
  }

  lemma {:induction false} SlotLeaves(kids: seq<Kid>, i: nat, p: Path, leaf: Mark)
    ensures QueueLeaf(Slots(kids, i), p, leaf) <==> KidLeaf(kids, p, leaf)
  {
    hide HasLeaf, Slots;
    if QueueLeaf(Slots(kids, i), p, leaf) {
      var t :| t in Slots(kids, i) && t.Inspect? && HasLeaf(t.typ, t.path, p, leaf);
      var k :| 0 <= k < |kids| && Slots(kids, i)[k] == t;
      assert kids[k] in kids;
    }
    if KidLeaf(kids, p, leaf) {
      var c :| c in kids && HasLeaf(c.typ, c.path, p, leaf);
      var k :| 0 <= k < |kids| && kids[k] == c;
      assert Slots(kids, i)[k] in Slots(kids, i);
    }
  }

  lemma {:induction false} QueueLeafAppend(a: seq<Task>, b: seq<Task>, p: Path, leaf: Mark)
    ensures QueueLeaf(a + b, p, leaf) <==> QueueLeaf(a, p, leaf) || QueueLeaf(b, p, leaf)
  {
    hide HasLeaf;
    if QueueLeaf(a, p, leaf) {
      var t :| t in a && t.Inspect? && HasLeaf(t.typ, t.path, p, leaf);
      assert t in a + b;
    }
    if QueueLeaf(b, p, leaf) {
      var t :| t in b && t.Inspect? && HasLeaf(t.typ, t.path, p, leaf);
      assert t in a + b;
    }
  }

  lemma OneQueued(t: Task, p: Path, leaf: Mark)
    requires hide *; t.Inspect?
    ensures QueueLeaf([t], p, leaf) <==> HasLeaf(t.typ, t.path, p, leaf)
  {
    hide HasLeaf;
    assert t in [t];
  }

  /** The slot an inspection takes has a builder already. */
  predicate Joins(tasks: seq<Task>, m: Move) { m.target.Some? && m.target.value < |tasks| && tasks[m.target.value].Building? }

  /** A builder that is found keeps its skeleton, and a new one has that of the type. */
  lemma {:induction false} MoveBones(s: Stack, t: Task, m: Move)
    requires hide MoveOf, SlotOk, Parts, PartSizes, Parented, Size, SkeletonOf, BuilderBones, Shares;
             Shaped(s) && Waiting(s.tasks, t) && m == MoveOf(s.tasks, t) && HasParts(t.typ)
    ensures m.task.Building? && m.task.path == t.path && (m.target.Some? ==> m.target.value < |s.tasks| == |s.paths|)
    ensures PathOf(s, t.path, m) == t.path
    ensures m.target.Some? ==> s.tasks[m.target.value].Building? || s.tasks[m.target.value].Inspect?
    ensures Joins(s.tasks, m) ==>
      && m.target == FindBuilder(s.tasks, t.path, t.typ)
      && BuilderBones(m.task.builder) == BuilderBones(s.tasks[m.target.value].builder)
      && (SkeletonOf(t.typ).Some? ==> BuilderBones(m.task.builder) == SkeletonOf(t.typ))
    ensures !Joins(s.tasks, m) ==>
      BuilderBones(m.task.builder) == SkeletonOf(t.typ) && FindBuilder(s.tasks, t.path, t.typ).None?
  {
    hide Points, Parts, InsertAll, NewBuilder, Suffix, Parented, FindBuilder, HasParts, Size, SkeletonOf, BuilderBones, Suits;
    if !t.init {
      assert SlotOk(s, t.index);
    }
    NewBones(t.typ);
    var found := FindBuilder(s.tasks, t.path, t.typ);
    var i := Base(s.tasks, m);
    if found.Some? {
      assert SlotOk(s, found.value);
      var b := s.tasks[found.value].builder;
      ExtendedBones(b, t.typ, i);
      if SkeletonOf(t.typ).Some? {
        SuitsExactly(b, t.typ);
      }
    } else {
      ExtendedBones(NewBuilder(t.typ), t.typ, i);
    }
  }

  /** What one inspection does to the completed slots and the builders. */
  lemma {:induction false} DoneMoves(s: Stack, t: Task, m: Move, p: Path, leaf: Mark)
    requires hide DoneAt, MoveOf, Parented, PartSizes, Parts, ShapeOf, Size, Sizes, SlotOk, HasLeaf, Shaped, Apply;
             Shaped(s) && Waiting(s.tasks, t) && m == MoveOf(s.tasks, t)
    requires m.target.Some? ==> m.target.value < |s.tasks|
    ensures DoneLeaf(Apply(s, t.path, m), p, leaf) <==>
            DoneLeaf(s, p, leaf) || (m.task.Complete? && HasLeaf(t.typ, t.path, p, leaf)) || Frames(t.typ, t.path, p, leaf)
  {
    hide Shaped, MoveOf, Apply, Kids, HasLeaf, SlotOk, Parented, SkeletonOf, BuilderBones, HasParts, Shares;
    ShapedSizes(s);
    MoveShape(s, t, m);
    ApplySlots(s, t.path, m);
    var n := Apply(s, t.path, m);
    if HasParts(t.typ) {
      MoveBones(s, t, m);
    }
    if DoneLeaf(s, p, leaf) {
      var i: nat :| DoneAt(s, i, p, leaf);
      WaitingSlot(s, t);
      assert DoneAt(n, i, p, leaf);
    }
    if (m.task.Complete? && HasLeaf(t.typ, t.path, p, leaf)) || Frames(t.typ, t.path, p, leaf) {
      assert DoneAt(n, SlotOf(s, m), p, leaf);
    }
    if DoneLeaf(n, p, leaf) {
      var i: nat :| DoneAt(n, i, p, leaf);
      if i != SlotOf(s, m) {
        assert DoneAt(s, i, p, leaf);
      } else if BuildsAt(n, i, p, leaf) && !Frames(t.typ, t.path, p, leaf) {
        assert DoneAt(s, i, p, leaf);
      }
    }
  }

  lemma WaitingSlot(s: Stack, t: Task)
    requires Waiting(s.tasks, t)
    ensures !t.init ==> t.index < |s.tasks| && s.tasks[t.index].Inspect?
  {
  }

  lemma {:induction false} InspectedMoves(s: Stack, t: Task, m: Move, p: Path, leaf: Mark, i: nat)
    requires hide *; t.Inspect? && |s.tasks| == |s.paths| && !m.task.Inspect?
    requires m.target.Some? ==> m.target.value < |s.tasks|
    requires InspectedAt(Apply(s, t.path, m), i, p, leaf)
    ensures InspectedAt(s, i, p, leaf) || KidLeaf(m.kids, p, leaf)
  {
    hide Apply, HasLeaf;
    ApplySlots(s, t.path, m);
    if i >= |s.tasks| && i != SlotOf(s, m) {
      assert m.kids[i - Base(s.tasks, m)] in m.kids;
    }
  }

  lemma MoveDone(tasks: seq<Task>, t: Task)
    requires hide *; t.Inspect?
    ensures !MoveOf(tasks, t).task.Inspect?
  {
    hide InsertAll, Parts, Kids, NewBuilder, FindBuilder, PartSizes, Shares, Size;
  }

  lemma {:induction false} StillKept(s: Stack, queue: seq<Task>, t: Task, m: Move, p: Path, leaf: Mark, there: bool)
    requires hide DoneLeaf, InspectedAt, MoveOf, Parented, QueueLeaf, SlotOk;
             Shaped(s) && Waiting(s.tasks, t) && m == MoveOf(s.tasks, t)
    requires m.target.Some? ==> m.target.value < |s.tasks|
    requires Kept(s, [t] + queue, p, leaf, there)
    ensures Kept(Apply(s, t.path, m), queue + NewSlots(s.tasks, m), p, leaf, there)
  {
    hide Shaped, MoveOf, Apply, HasLeaf, Kids, QueueLeaf, DoneLeaf, InspectedAt, KidLeaf, SlotOk, Parented;
    ShapedSizes(s);
    MoveShape(s, t, m);
    QueueLeafAppend([t], queue, p, leaf);
    OneQueued(t, p, leaf);
    QueueLeafAppend(queue, NewSlots(s.tasks, m), p, leaf);
    SlotLeaves(m.kids, Base(s.tasks, m), p, leaf);
    DoneMoves(s, t, m, p, leaf);
    if HasParts(t.typ) || t.typ.inner.TAllOf? {
      KidsLeaves(t.path, t.typ, p, leaf);
    } else {
      NoKids(t.path, t.typ, p, leaf);
    }
    MoveDone(s.tasks, t);
    forall i: nat | InspectedAt(Apply(s, t.path, m), i, p, leaf) ensures there {
      InspectedMoves(s, t, m, p, leaf, i);
    }
  }

  lemma {:induction false} NoKids(path: Path, t: InferredType, p: Path, leaf: Mark)
    requires !HasParts(t) && !t.inner.TAllOf?
    ensures !KidLeaf(Kids(path, t), p, leaf)
  {
  }

  // ---------- runs ----------

  lemma {:induction false} RunKeeps(s: Stack, queue: seq<Task>)
    requires Shaped(s) && Pending(s.tasks, queue)
    ensures Shaped(Run(s, queue))
    decreases QueueSize(queue)
  {
    hide Shaped, MoveOf, Apply, Pending, QueueSize, Waiting, Leads, Points;
    if queue != [] {
      var t, rest := queue[0], queue[1..];
      assert queue == [t] + rest;
      FirstWaits(s.tasks, queue);
      var m := MoveOf(s.tasks, t);
      MoveTarget(s.tasks, t);
      ShapedSizes(s);
      MoveFits(s, t);
      ApplyShaped(s, t.path, m);
      StillPending(s, rest, t, m);
      QueueShrinks(s.tasks, t, rest);
      RunKeeps(Apply(s, t.path, m), rest + NewSlots(s.tasks, m));
    }
  }

  lemma FirstWaits(tasks: seq<Task>, queue: seq<Task>)
    requires hide *; Pending(tasks, queue) && queue != []
    ensures Waiting(tasks, queue[0]) && queue[0].Inspect?
  {
  }

  lemma {:induction false} RunConserves(s: Stack, queue: seq<Task>, p: Path, leaf: Mark, there: bool)
    requires Shaped(s) && Pending(s.tasks, queue) && Kept(s, queue, p, leaf, there)
    ensures Kept(Run(s, queue), [], p, leaf, there)
    decreases QueueSize(queue)
  {
    hide Shaped, MoveOf, Apply, Pending, QueueSize, Waiting, Kept, Fitting, PointersFit;
    if queue != [] {
      var t, rest := queue[0], queue[1..];
      assert queue == [t] + rest;
      FirstWaits(s.tasks, queue);
      var m := MoveOf(s.tasks, t);
      MoveTarget(s.tasks, t);
      ShapedSizes(s);
      MoveFits(s, t);
      ApplyShaped(s, t.path, m);
      StillPending(s, rest, t, m);
      StillKept(s, rest, t, m, p, leaf, there);
      QueueShrinks(s.tasks, t, rest);
      RunConserves(Apply(s, t.path, m), rest + NewSlots(s.tasks, m), p, leaf, there);
    }
  }

  /** No input is a set of alternatives. */
  predicate Plainly(types: seq<InferredType>) { forall t | t in types :: !t.inner.TAllOf? }

  lemma InputsPending(types: seq<InferredType>)
    requires Plainly(types)
    ensures Pending([], Inputs(types)) && Shaped(EMPTY)
  {
  }

  lemma InputsKept(types: seq<InferredType>, p: Path, leaf: Mark)
    ensures Kept(EMPTY, Inputs(types), p, leaf, AnyLeaf(types, [], p, leaf))
  {
    hide HasLeaf;
    var q := Inputs(types);
    if QueueLeaf(q, p, leaf) {
      var t :| t in q && t.Inspect? && HasLeaf(t.typ, t.path, p, leaf);
      var i :| 0 <= i < |q| && q[i] == t;
      assert types[i] in types;
    }
    if AnyLeaf(types, [], p, leaf) {
      var x :| x in types && HasLeaf(x, [], p, leaf);
      var i :| 0 <= i < |types| && types[i] == x;
      assert q[i] in q;
    }
  }

  // ===== Completing the stack: the leaves of the result are those of the inputs.

  // ---------- pointers ----------

  lemma FieldPointersAre(fs: seq<Field<seq<nat>>>, j: nat)
    ensures j in FieldPointers(fs) <==> exists name :: FieldPoints(fs, name, j)
  {
    if fs != [] {
      FieldPointersAre(fs[1..], j);
      if j in fs[0].of {
        assert fs[0] in fs && FieldPoints(fs, fs[0].name, j);
      }
      forall name | FieldPoints(fs[1..], name, j) ensures FieldPoints(fs, name, j) {
        var f :| f in fs[1..] && f.name == name && j in f.of;
        assert f in fs;
      }
      forall name | FieldPoints(fs, name, j) ensures j in fs[0].of || FieldPoints(fs[1..], name, j) {
        var f :| f in fs && f.name == name && j in f.of;
        assert f == fs[0] || f in fs[1..];
      }
    }
  }

  lemma CasePointersAre(cs: seq<Field<Option<seq<nat>>>>, j: nat)
    ensures j in CasePointers(cs) <==> exists name :: CasePoints(cs, name, j)
  {
    if cs != [] {
      CasePointersAre(cs[1..], j);
      if cs[0].of.Some? && j in cs[0].of.value {
        assert cs[0] in cs && CasePoints(cs, cs[0].name, j);
      }
      forall name | CasePoints(cs[1..], name, j) ensures CasePoints(cs, name, j) {
        var f :| f in cs[1..] && f.name == name && f.of.Some? && j in f.of.value;
        assert f in cs;
      }
      forall name | CasePoints(cs, name, j) ensures (cs[0].of.Some? && j in cs[0].of.value) || CasePoints(cs[1..], name, j) {
        var f :| f in cs && f.name == name && f.of.Some? && j in f.of.value;
        assert f == cs[0] || f in cs[1..];
      }
    }
  }

  lemma ItemPointersAre(items: seq<seq<nat>>, j: nat)
    ensures j in ItemPointers(items) <==> exists k :: 0 <= k < |items| && j in items[k]
  {
    if items != [] {
      ItemPointersAre(items[1..], j);
      if j in ItemPointers(items[1..]) {
        var k :| 0 <= k < |items[1..]| && j in items[1..][k];
        assert j in items[k + 1];
      }
      forall k | 0 < k < |items| && j in items[k] ensures j in ItemPointers(items[1..]) {
        assert items[1..][k - 1] == items[k];
      }
    }
  }

  lemma BuilderPointersAre(t: Task, j: nat)
    requires hide *; t.Building?
    ensures j in Pointers(t) <==> exists q :: Points(t.builder, q, j)
  {
    hide FieldPointers, CasePointers, ItemPointers, FieldPoints, CasePoints;
    match t.builder {
      case RecordB(fs) =>
        FieldPointersAre(fs, j);
        forall name | FieldPoints(fs, name, j) ensures Points(t.builder, AtField(name), j) {}
      case VariantB(cs) =>
        CasePointersAre(cs, j);
        forall name | CasePoints(cs, name, j) ensures Points(t.builder, AtCase(name), j) {}
      case TupleB(items) =>
        ItemPointersAre(items, j);
        forall k: nat | k < |items| && j in items[k] ensures Points(t.builder, AtItem(k, |items|), j) {}
      case ListB(elem) =>
        assert j in elem <==> Points(t.builder, AtElem, j);
      case OptionB(some) =>
        assert j in some <==> Points(t.builder, AtSome, j);
      case ResultB(ok, error) =>
        assert j in Pointers(t) <==> Points(t.builder, AtOk, j) || Points(t.builder, AtErr, j);
    }
  }

  /** The pointers of a task are where it leads. */
  lemma PointersAre(t: Task, j: nat)
    ensures j in Pointers(t) <==> Leads(t, j)
  {
    hide Points;
    if t.Building? {
      BuilderPointersAre(t, j);
    }
  }

  // ---------- types of slots ----------

  lemma IndexOk(s: Stack, i: nat)
    requires hide *; Shaped(s) && i < |s.tasks|
    ensures IndexOf(s.tasks[i]) == i
  {
    hide BuilderOk, Parented;
    assert SlotOk(s, i);
  }

  lemma TypesKeys(s: Stack, i: nat, k: nat)
    requires hide *; Shaped(s) && i <= |s.tasks|
    ensures k in TypesFrom(s.tasks, i) <==> i <= k < |s.tasks|
    decreases |s.tasks| - i
  {
    hide Shaped, TypeOf;
    if i < |s.tasks| {
      IndexOk(s, i);
      TypesKeys(s, i + 1, k);
    }
  }

  /** A later step does not change the type of a slot. */
  lemma {:induction false} TypesStable(s: Stack, i: nat, k: nat)
    requires hide *; Shaped(s) && i <= k < |s.tasks|
    ensures k in TypesFrom(s.tasks, i) && TypesFrom(s.tasks, i)[k] == TypeOf(s.tasks[k], TypesFrom(s.tasks, k + 1))
    decreases k - i
  {
    hide Shaped, TypeOf;
    IndexOk(s, i);
    if i < k {
      TypesStable(s, i + 1, k);
    }
  }

  /** The type of the slot has this leaf, if it stands where the slot stands. */
  ghost predicate Reaches(s: Stack, i: nat, p: Path, leaf: Mark) {
    hide *;
    |s.tasks| == |s.paths| && i < |s.tasks| && HasLeaf(TypeOf(s.tasks[i], TypesFrom(s.tasks, i + 1)), s.paths[i], p, leaf)
  }

  ghost predicate LeadsToLeaf(s: Stack, i: nat, p: Path, leaf: Mark)
    requires hide *; i < |s.tasks|
  {
    exists j: nat :: Leads(s.tasks[i], j) && Reaches(s, j, p, leaf)
  }

  lemma {:induction false} PointerOk(s: Stack, i: nat, q: Place, j: nat)
    requires hide *; Shaped(s) && i < |s.tasks| && s.tasks[i].Building? && Points(s.tasks[i].builder, q, j)
    ensures |s.tasks| == |s.paths| && i < j < |s.tasks| && j !in s.roots && s.paths[j] == s.paths[i] + Suffix(q)
  {
    hide Points, Suffix;
    assert SlotOk(s, i);
  }

  lemma ChoiceOk(s: Stack, i: nat, j: nat)
    requires hide *; Shaped(s) && i < |s.tasks| && s.tasks[i].Choosing? && j in s.tasks[i].pointers
    ensures |s.tasks| == |s.paths| && i < j < |s.tasks| && j !in s.roots && s.paths[j] == s.paths[i]
  {
    hide Points, Suffix;
    assert SlotOk(s, i);
  }

  lemma LeadsOk(s: Stack, i: nat, j: nat)
    requires hide *; Shaped(s) && i < |s.tasks| && Leads(s.tasks[i], j)
    ensures i < j < |s.tasks| && j !in s.roots
  {
    hide Points, Shaped;
    if s.tasks[i].Building? {
      var q :| Points(s.tasks[i].builder, q, j);
      PointerOk(s, i, q, j);
    } else {
      ChoiceOk(s, i, j);
    }
  }

  lemma {:induction false} BuilderReaches(s: Stack, i: nat, p: Path, leaf: Mark)
    requires hide *; Shaped(s) && i < |s.tasks| && s.tasks[i].Building?
    ensures Reaches(s, i, p, leaf) <==> LeadsToLeaf(s, i, p, leaf) || BuildsAt(s, i, p, leaf)
  {
    hide Shaped, TypesFrom, Points, HasLeaf, Build, Suffix, Merged, CaseSizes, Stands, BuilderBones;
    ShapedSizes(s);
    var b, later, at := s.tasks[i].builder, TypesFrom(s.tasks, i + 1), s.paths[i];
    BuildLeaves(b, later, at, p, leaf);
    if BuiltLeaf(b, later, at, p, leaf) {
      var q, j: nat :| Points(b, q, j) && j in later && HasLeaf(later[j], at + Suffix(q), p, leaf);
      PointerOk(s, i, q, j);
      TypesStable(s, i + 1, j);
      assert Leads(s.tasks[i], j) && Reaches(s, j, p, leaf);
    }
    if LeadsToLeaf(s, i, p, leaf) {
      var j: nat :| Leads(s.tasks[i], j) && Reaches(s, j, p, leaf);
      var q :| Points(b, q, j);
      PointerOk(s, i, q, j);
      TypesStable(s, i + 1, j);
      assert Points(b, q, j) && j in later && HasLeaf(later[j], at + Suffix(q), p, leaf);
    }
  }

  lemma {:induction false} ChooserReaches(s: Stack, i: nat, p: Path, leaf: Mark)
    requires hide *; Shaped(s) && i < |s.tasks| && s.tasks[i].Choosing?
    ensures Reaches(s, i, p, leaf) <==> LeadsToLeaf(s, i, p, leaf)
  {
    hide Shaped, TypesFrom, HasLeaf, Merged, Build, Points;
    ShapedSizes(s);
    var ptrs, later, at := s.tasks[i].pointers, TypesFrom(s.tasks, i + 1), s.paths[i];
    MergedLeaves(ptrs, later, at, p, leaf);
    if PointedLeaf(ptrs, later, at, p, leaf) {
      var j :| j in ptrs && j in later && HasLeaf(later[j], at, p, leaf);
      ChoiceOk(s, i, j);
      TypesStable(s, i + 1, j);
      assert Leads(s.tasks[i], j) && Reaches(s, j, p, leaf);
    }
    if LeadsToLeaf(s, i, p, leaf) {
      var j: nat :| Leads(s.tasks[i], j) && Reaches(s, j, p, leaf);
      ChoiceOk(s, i, j);
      TypesStable(s, i + 1, j);
    }
  }

  /** A slot with pointers has the leaves of the slots they lead to, and the skeleton of its builder. */
  lemma {:induction false} SlotReaches(s: Stack, i: nat, p: Path, leaf: Mark)
    requires hide *; Shaped(s) && i < |s.tasks| && (s.tasks[i].Building? || s.tasks[i].Choosing?)
    ensures Reaches(s, i, p, leaf) <==> LeadsToLeaf(s, i, p, leaf) || BuildsAt(s, i, p, leaf)
  {
    hide Shaped, Reaches, LeadsToLeaf, Stands, BuilderBones;
    if s.tasks[i].Building? {
      BuilderReaches(s, i, p, leaf);
    } else {
      ChooserReaches(s, i, p, leaf);
    }
  }

  // ---------- up and down ----------

  /** No slot has a leaf that was not there. */
  lemma {:induction false} ReachesKept(s: Stack, i: nat, p: Path, leaf: Mark, there: bool)
    requires Shaped(s) && Kept(s, [], p, leaf, there) && Reaches(s, i, p, leaf)
    ensures there
    decreases |s.tasks| - i
  {
    hide Shaped, Leads, HasLeaf, TypesFrom, Build, Merged, Stands, BuilderBones;
    if s.tasks[i].Complete? || BuildsAt(s, i, p, leaf) {
      assert DoneAt(s, i, p, leaf);
    } else if s.tasks[i].Inspect? {
      assert InspectedAt(s, i, p, leaf);
    } else {
      SlotReaches(s, i, p, leaf);
      var j: nat :| Leads(s.tasks[i], j) && Reaches(s, j, p, leaf);
      LeadsOk(s, i, j);
      ReachesKept(s, j, p, leaf, there);
    }
  }

  lemma ParentOf(s: Stack, i: nat) returns (j: nat)
    requires hide *; Shaped(s) && i < |s.tasks| && i !in s.roots
    ensures j < |s.tasks| && Leads(s.tasks[j], i)
  {
    hide Leads, SlotOk;
    assert Parented(s, i);
    j :| j < |s.tasks| && Leads(s.tasks[j], i);
  }

  /** A leaf of a slot is a leaf of the slot of some input. */
  lemma {:induction false} ReachesRoot(s: Stack, i: nat, p: Path, leaf: Mark) returns (r: nat)
    requires Shaped(s) && Reaches(s, i, p, leaf)
    ensures r in s.roots && Reaches(s, r, p, leaf)
    decreases i
  {
    hide Shaped, Reaches, Leads;
    ReachesSlot(s, i, p, leaf);
    if i in s.roots {
      r := i;
    } else {
      var j := ParentOf(s, i);
      LeadsOk(s, j, i);
      LeadingSlot(s.tasks[j], i);
      SlotReaches(s, j, p, leaf);
      r := ReachesRoot(s, j, p, leaf);
    }
  }

  lemma {:induction false} ReachesSlot(s: Stack, i: nat, p: Path, leaf: Mark)
    requires Reaches(s, i, p, leaf)
    ensures i < |s.tasks|
  {
    hide TypeOf, HasLeaf, IndexOf;
  }

  lemma LeadingSlot(t: Task, j: nat)
    requires Leads(t, j)
    ensures t.Building? || t.Choosing?
  {
  }

  // ---------- results ----------

  ghost predicate UsedAt(s: Stack, i: nat, j: nat)
    requires hide *; i < |s.tasks|
  {
    (s.tasks[i].Inspect? && i == j) || Leads(s.tasks[i], j)
  }

  lemma UsedByAre(s: Stack, i: nat, j: nat)
    requires hide *; Shaped(s) && i < |s.tasks|
    ensures j in UsedBy(s.tasks[i], TypesFrom(s.tasks, i + 1)) <==> UsedAt(s, i, j)
  {
    hide Shaped, Leads, Pointers, TypesFrom;
    IndexOk(s, i);
    PointersAre(s.tasks[i], j);
    TypesKeys(s, i + 1, j);
    if Leads(s.tasks[i], j) {
      LeadsOk(s, i, j);
      LeadingSlot(s.tasks[i], j);
    }
  }

  lemma UsedAre(s: Stack, i: nat, j: nat)
    requires hide *; Shaped(s) && i <= |s.tasks|
    ensures j in UsedFrom(s.tasks, i) <==> exists k: nat :: i <= k < |s.tasks| && UsedAt(s, k, j)
    decreases |s.tasks| - i
  {
    hide Shaped, UsedAt, UsedBy, TypesFrom;
    if i < |s.tasks| {
      UsedAre(s, i + 1, j);
      UsedByAre(s, i, j);
    }
  }

  lemma RootSlot(s: Stack, i: nat)
    requires hide *; Shaped(s) && i in s.roots
    ensures |s.tasks| == |s.paths| && i < |s.tasks| && s.paths[i] == [] && (s.tasks[i].Building? || s.tasks[i].Complete?)
    ensures s.tasks[i].Complete? ==> !s.tasks[i].typ.inner.TAllOf?
  {
    hide Points, Suffix, Parented, HasParts;
    assert SlotOk(s, i);
  }

  /** The slots nothing has used are those of the inputs. */
  lemma UnusedAreRoots(s: Stack, j: nat)
    requires hide *; Shaped(s) && j < |s.tasks|
    ensures j in UsedFrom(s.tasks, 0) <==> j !in s.roots
  {
    hide Shaped, Leads, UsedFrom;
    UsedAre(s, 0, j);
    if j in s.roots {
      RootSlot(s, j);
      forall k: nat | k < |s.tasks| ensures !UsedAt(s, k, j) {
        if Leads(s.tasks[k], j) {
          LeadsOk(s, k, j);
        }
      }
    } else {
      var k := ParentOf(s, j);
      assert UsedAt(s, k, j);
    }
  }

  function RootType(s: Stack, r: nat): InferredType
    requires hide *; r < |s.tasks|
  {
    TypeOf(s.tasks[r], TypesFrom(s.tasks, r + 1))
  }

  ghost predicate IsRootType(s: Stack, r: nat, x: InferredType) { hide *; r in s.roots && r < |s.tasks| && x == RootType(s, r) }

  ghost function ResultsFrom(s: Stack, i: nat): seq<InferredType>
    requires hide *; i <= |s.tasks|
  {
    Results(TypesFrom(s.tasks, 0), UsedFrom(s.tasks, 0), i, |s.tasks|)
  }

  lemma ResultsAre(s: Stack, i: nat)
    requires hide *; Shaped(s) && i <= |s.tasks|
    ensures forall x :: x in ResultsFrom(s, i) ==> exists r: nat :: IsRootType(s, r, x)
    ensures forall r: nat :: i <= r < |s.tasks| && r in s.roots ==> RootType(s, r) in ResultsFrom(s, i)
    decreases |s.tasks| - i
  {
    hide Shaped, UsedFrom, TypesFrom, TypeOf;
    if i < |s.tasks| {
      ResultsAre(s, i + 1);
      UnusedAreRoots(s, i);
      TypesStable(s, 0, i);
      var rest := ResultsFrom(s, i + 1);
      var one := if i in s.roots then [RootType(s, i)] else [];
      assert ResultsFrom(s, i) == one + rest;
      forall x | x in one + rest ensures exists r: nat :: IsRootType(s, r, x) {
        if x !in rest {
          assert IsRootType(s, i, x);
        }
      }
      if i in s.roots {
        assert one[0] in one;
      }
    }
  }

  // ---------- the theorems ----------

  ghost function Final(types: seq<InferredType>): Stack { Run(EMPTY, Inputs(types)) }

  /** The queue runs empty with every slot holding its own task, and with pointers that lead only to later slots. */
  lemma FinalShaped(types: seq<InferredType>)
    requires Plainly(types)
    ensures Shaped(Final(types))
  {
    hide Shaped, Pending, Run;
    InputsPending(types);
    RunKeeps(EMPTY, Inputs(types));
  }

  lemma FinalKept(types: seq<InferredType>, p: Path, leaf: Mark)
    requires Plainly(types)
    ensures Kept(Final(types), [], p, leaf, AnyLeaf(types, [], p, leaf))
  {
    hide Shaped, Pending, Kept, Run, HasLeaf, Size;
    InputsPending(types);
    InputsKept(types, p, leaf);
    RunConserves(EMPTY, Inputs(types), p, leaf, AnyLeaf(types, [], p, leaf));
  }

  lemma {:induction false} FinishedLeaves(rs: seq<InferredType>, at: Path, p: Path, leaf: Mark)
    ensures hide *; HasLeaf(if |rs| == 1 then rs[0] else Merge(rs), at, p, leaf) <==> AnyLeaf(rs, at, p, leaf)
  {
    hide Merge, HasLeaf;
    if |rs| == 1 {
      LeafFirst(rs, at, p, leaf);
      assert rs[1..] == [];
    } else {
      MergeLeaves(rs, at, p, leaf);
    }
  }

  lemma {:induction false} RootReaches(s: Stack, r: nat, p: Path, leaf: Mark)
    requires hide *; Shaped(s) && r in s.roots
    ensures r < |s.tasks| && (HasLeaf(RootType(s, r), [], p, leaf) <==> Reaches(s, r, p, leaf))
  {
    hide Shaped, HasLeaf, TypesFrom, TypeOf;
    RootSlot(s, r);
  }

  lemma {:induction false} KeptReaches(s: Stack, p: Path, leaf: Mark, there: bool)
    requires Shaped(s) && Kept(s, [], p, leaf, there)
    ensures there <==> exists r: nat :: r in s.roots && Reaches(s, r, p, leaf)
  {
    hide Shaped, HasLeaf, TypesFrom, Build, Merged, Stands, BuilderBones;
    ShapedSizes(s);
    if there {
      var i: nat :| DoneAt(s, i, p, leaf);
      if BuildsAt(s, i, p, leaf) {
        SlotReaches(s, i, p, leaf);
      }
      assert Reaches(s, i, p, leaf);
      var r := ReachesRoot(s, i, p, leaf);
    } else {
      forall r: nat | r in s.roots ensures !Reaches(s, r, p, leaf) {
        if Reaches(s, r, p, leaf) {
          ReachesKept(s, r, p, leaf, there);
        }
      }
    }
  }

  lemma ResultLeaves(s: Stack, p: Path, leaf: Mark)
    requires hide *; Shaped(s)
    ensures AnyLeaf(ResultsFrom(s, 0), [], p, leaf) <==> exists r: nat :: r in s.roots && Reaches(s, r, p, leaf)
  {
    hide Shaped, ResultsFrom, HasLeaf, Reaches, RootType;
    ResultsAre(s, 0);
    var rs := ResultsFrom(s, 0);
    if AnyLeaf(rs, [], p, leaf) {
      var x :| x in rs && HasLeaf(x, [], p, leaf);
      var r: nat :| IsRootType(s, r, x);
      RootReaches(s, r, p, leaf);
    }
    if exists r: nat :: r in s.roots && Reaches(s, r, p, leaf) {
      var r: nat :| r in s.roots && Reaches(s, r, p, leaf);
      RootReaches(s, r, p, leaf);
      assert RootType(s, r) in rs;
    }
  }

  lemma AllOfIs(types: seq<InferredType>)
    ensures hide *; var rs := ResultsFrom(Final(types), 0); AllOf(types) == if |rs| == 1 then rs[0] else Merge(rs)
  {
    hide Results, TypesFrom, UsedFrom, Run, Merge;
  }

  /** Merging inputs that are not sets of alternatives loses no leaf at any path and makes up none. */
  lemma AllOfLeaves(types: seq<InferredType>)
    requires Plainly(types)
    ensures SameLeaves(AllOf(types), types, [])
  {
    hide *;
    forall p, leaf ensures HasLeaf(AllOf(types), [], p, leaf) <==> AnyLeaf(types, [], p, leaf) {
      AllOfLeaf(types, p, leaf);
    }
    LeavesSame(AllOf(types), types, []);
  }

  lemma LeavesSame(t: InferredType, ts: seq<InferredType>, at: Path)
    requires forall p, leaf :: HasLeaf(t, at, p, leaf) <==> AnyLeaf(ts, at, p, leaf)
    ensures SameLeaves(t, ts, at)
  {
    hide HasLeaf, AnyLeaf;
  }

  lemma AllOfLeaf(types: seq<InferredType>, p: Path, leaf: Mark)
    requires Plainly(types)
    ensures HasLeaf(AllOf(types), [], p, leaf) <==> AnyLeaf(types, [], p, leaf)
  {
    hide Shaped, Kept, ResultsFrom, HasLeaf, AnyLeaf, Final, Reaches, Merge, AllOf;
    var s := Final(types);
    FinalShaped(types);
    FinalKept(types, p, leaf);
    KeptReaches(s, p, leaf, AnyLeaf(types, [], p, leaf));
    ResultLeaves(s, p, leaf);
    FinishedLeaves(ResultsFrom(s, 0), [], p, leaf);
    AllOfIs(types);
  }

  /** The result is no set of alternatives, or one in normal form. */
  lemma AllOfNormal(types: seq<InferredType>)
    requires Plainly(types)
    ensures NormalForm(AllOf(types))
  {
    hide Shaped, ResultsFrom, Final, Merge, Separate, AllOf, TypesFrom;
    var s := Final(types);
    FinalShaped(types);
    var rs := ResultsFrom(s, 0);
    MergeNormal(rs);
    AllOfIs(types);
    if |rs| == 1 {
      ResultsAre(s, 0);
      assert rs[0] in rs;
      var r: nat :| IsRootType(s, r, rs[0]);
      RootSlot(s, r);
    }
  }

  // ---------- one part for every skeleton ----------

  /** No two builders for the same path have the same skeleton. */
  ghost predicate BuildersApart(tasks: seq<Task>) {
    hide *;
    forall i, j :: 0 <= i < j < |tasks| ==> Differ(tasks[i], tasks[j])
  }

  ghost predicate Differ(a: Task, b: Task) {
    a.Building? && b.Building? && a.path == b.path && BuilderBones(a.builder).Some? ==>
      BuilderBones(a.builder) != BuilderBones(b.builder)
  }

  lemma StillApart(s: Stack, t: Task, m: Move)
    requires hide MoveOf, SlotOk, Parts, PartSizes, Parented, Size, Shaped;
             Shaped(s) && Waiting(s.tasks, t) && m == MoveOf(s.tasks, t) && BuildersApart(s.tasks)
    requires m.target.Some? ==> m.target.value < |s.tasks|
    ensures BuildersApart(Apply(s, t.path, m).tasks)
  {
    hide Shaped, MoveOf, Apply, Kids, SlotOk, Parented, SkeletonOf, BuilderBones, HasParts, Shares, FindBuilder, Differ;
    ShapedSizes(s);
    MoveShape(s, t, m);
    ApplySlots(s, t.path, m);
    var now := Apply(s, t.path, m).tasks;
    var k := SlotOf(s, m);
    forall i | 0 <= i < |s.tasks| && i != k ensures Differ(s.tasks[i], m.task) && Differ(m.task, s.tasks[i]) {
      MovedApart(s, t, m, i);
    }
    forall i, j | 0 <= i < j < |now| ensures Differ(now[i], now[j]) {
      if j >= |s.tasks| && j != k {
        InspectDiffers(now[i], now[j]);
      }
    }
  }

  lemma InspectDiffers(a: Task, b: Task)
    requires a.Inspect? || b.Inspect?
    ensures Differ(a, b)
  {
  }

  lemma {:induction false} MovedApart(s: Stack, t: Task, m: Move, i: nat)
    requires hide MoveOf, SlotOk, Parts, PartSizes, Parented, Size, Shaped;
             Shaped(s) && Waiting(s.tasks, t) && m == MoveOf(s.tasks, t) && BuildersApart(s.tasks)
    requires m.target.Some? ==> m.target.value < |s.tasks|
    requires i < |s.tasks| && i != SlotOf(s, m)
    ensures Differ(s.tasks[i], m.task) && Differ(m.task, s.tasks[i])
  {
    hide Shaped, MoveOf, Kids, SlotOk, Parented, SkeletonOf, BuilderBones, HasParts, FindBuilder, Suits;
    MoveShape(s, t, m);
    if m.task.Building? {
      MoveBones(s, t, m);
      if Joins(s.tasks, m) {
        var j := m.target.value;
        assert Differ(s.tasks[i], s.tasks[j]) || Differ(s.tasks[j], s.tasks[i]);
        assert s.tasks[j].path == t.path;
      } else if s.tasks[i].Building? && s.tasks[i].path == t.path && SkeletonOf(t.typ).Some? {
        SuitsExactly(s.tasks[i].builder, t.typ);
        assert !Shares(s.tasks[i], t.path, t.typ);
      }
    }
  }

  lemma {:induction false} RunApart(s: Stack, queue: seq<Task>)
    requires Shaped(s) && Pending(s.tasks, queue) && BuildersApart(s.tasks)
    ensures BuildersApart(Run(s, queue).tasks)
    decreases QueueSize(queue)
  {
    hide Shaped, MoveOf, Apply, Pending, QueueSize, Waiting, BuildersApart, Fitting, PointersFit;
    if queue != [] {
      var t, rest := queue[0], queue[1..];
      assert queue == [t] + rest;
      FirstWaits(s.tasks, queue);
      var m := MoveOf(s.tasks, t);
      MoveTarget(s.tasks, t);
      ShapedSizes(s);
      MoveFits(s, t);
      ApplyShaped(s, t.path, m);
      StillPending(s, rest, t, m);
      StillApart(s, t, m);
      QueueShrinks(s.tasks, t, rest);
      RunApart(Apply(s, t.path, m), rest + NewSlots(s.tasks, m));
    }
  }

  /** No skeleton occurs twice. */
  ghost predicate OneEach(ts: seq<InferredType>) {
    hide *;
    forall i, j :: 0 <= i < j < |ts| && SkeletonOf(ts[i]).Some? ==> SkeletonOf(ts[i]) != SkeletonOf(ts[j])
  }

  lemma RootBones(s: Stack, r: nat)
    requires hide *; Shaped(s) && r in s.roots && r < |s.tasks|
    ensures s.tasks[r].Building? ==> s.tasks[r].path == [] && SkeletonOf(RootType(s, r)) == BuilderBones(s.tasks[r].builder)
    ensures s.tasks[r].Complete? ==> SkeletonOf(RootType(s, r)).None?
    ensures !RootType(s, r).inner.TAllOf?
  {
    hide Points, Suffix, Parented, TypesFrom, BuilderBones, Merged;
    RootSlot(s, r);
    assert SlotOk(s, r);
    if s.tasks[r].Building? {
      BuildBones(s.tasks[r].builder, TypesFrom(s.tasks, r + 1));
    }
  }

  lemma {:induction false} ResultsLater(s: Stack, i: nat)
    requires hide *; Shaped(s) && i <= |s.tasks|
    ensures forall x :: x in ResultsFrom(s, i) ==> exists r: nat :: i <= r && IsRootType(s, r, x)
    ensures (forall r :: r in s.roots ==> r < i) ==> ResultsFrom(s, i) == []
    ensures i < |s.tasks| ==> ResultsFrom(s, i) == (if i in s.roots then [RootType(s, i)] else []) + ResultsFrom(s, i + 1)
    decreases |s.tasks| - i
  {
    hide Shaped, UsedFrom, TypesFrom, TypeOf;
    if i < |s.tasks| {
      ResultsLater(s, i + 1);
      UnusedAreRoots(s, i);
      TypesStable(s, 0, i);
      assert ResultsFrom(s, i) == (if i in s.roots then [RootType(s, i)] else []) + ResultsFrom(s, i + 1);
      if i in s.roots {
        assert IsRootType(s, i, RootType(s, i));
      }
    }
  }

  lemma {:induction false} ResultsOnce(s: Stack, i: nat)
    requires hide *; Shaped(s) && BuildersApart(s.tasks) && i <= |s.tasks|
    ensures OneEach(ResultsFrom(s, i)) && forall x :: x in ResultsFrom(s, i) ==> !x.inner.TAllOf?
    decreases |s.tasks| - i
  {
    hide Shaped, ResultsFrom, RootType, SkeletonOf, BuilderBones;
    ResultsLater(s, i);
    if i < |s.tasks| {
      ResultsOnce(s, i + 1);
      var rest := ResultsFrom(s, i + 1);
      ResultsLater(s, i + 1);
      if i in s.roots {
        RootBones(s, i);
        var x := RootType(s, i);
        forall k | 0 <= k < |rest| && SkeletonOf(x).Some? ensures SkeletonOf(x) != SkeletonOf(rest[k]) {
          assert rest[k] in rest;
          var r: nat :| i + 1 <= r && IsRootType(s, r, rest[k]);
          RootSlot(s, i);
          RootSlot(s, r);
          RootBones(s, r);
          assert Differ(s.tasks[i], s.tasks[r]);
        }
      }
    } else {
      assert forall r :: r in s.roots ==> r < i by { RootsInside(s); }
    }
  }

  lemma RootsInside(s: Stack)
    requires Shaped(s)
    ensures forall r :: r in s.roots ==> r < |s.tasks|
  {
  }

  // the list of results is merged once more

  lemma SwapOnce(ts: seq<InferredType>, us: seq<InferredType>)
    requires hide *; OneEach(ts) && |us| <= |ts| && forall k :: 0 <= k < |us| ==> SkeletonOf(us[k]) == SkeletonOf(ts[k])
    ensures OneEach(us)
  {
    hide SkeletonOf;
  }

  lemma DropOnce(a: seq<InferredType>, t: InferredType, b: seq<InferredType>)
    requires hide *; OneEach(a + [t] + b)
    ensures OneEach(a + b)
  {
    hide SkeletonOf;
    var all, left := a + [t] + b, a + b;
    forall i, j | 0 <= i < j < |left| && SkeletonOf(left[i]).Some? ensures SkeletonOf(left[i]) != SkeletonOf(left[j]) {
      assert left[i] == all[if i < |a| then i else i + 1] && left[j] == all[if j < |a| then j else j + 1];
    }
  }

  lemma {:induction false} GatherOnce(queue: seq<InferredType>, seen: seq<InferredType>)
    requires OneEach(seen + queue) && forall t :: t in queue ==> !t.inner.TAllOf?
    ensures OneEach(Gather(queue, seen))
    decreases |queue|
  {
    hide Enter, OneEach, SkeletonOf;
    if queue == [] {
      assert seen + queue == seen;
    } else {
      assert seen + queue == seen + [queue[0]] + queue[1..];
      EnterOnce(seen, queue[0], queue[1..]);
      GatherOnce(queue[1..], Enter(seen, queue[0]));
    }
  }

  lemma EnterOnce(seen: seq<InferredType>, t: InferredType, rest: seq<InferredType>)
    requires hide *; OneEach(seen + [t] + rest)
    ensures OneEach(Enter(seen, t) + rest)
  {
    hide OneEach, SkeletonOf, FindSame, AddOrigin, ShapeOf;
    var i := FindSame(seen, t);
    if i.Some? {
      DropOnce(seen, t, rest);
      var new_ := InferredType(t.inner, AddOrigin(t.origin, seen[i.value].origin));
      OriginNotShape(t, new_.origin);
      BonesSame(t, new_);
      BonesSame(seen[i.value], t);
      SwapOnce(seen + rest, Enter(seen, t) + rest);
    } else {
      assert Enter(seen, t) + rest == seen + [t] + rest;
    }
  }

  lemma {:induction false} KnownOnce(ts: seq<InferredType>)
    requires OneEach(ts)
    ensures OneEach(Known(ts))
    decreases |ts|
  {
    hide SkeletonOf;
    if ts != [] {
      assert forall i :: 0 <= i < |ts| - 1 ==> ts[1..][i] == ts[i + 1];
      KnownOnce(ts[1..]);
      forall k | 0 <= k < |Known(ts[1..])| && SkeletonOf(ts[0]).Some? ensures SkeletonOf(ts[0]) != SkeletonOf(Known(ts[1..])[k]) {
        assert Known(ts[1..])[k] in Known(ts[1..]);
        var j :| 0 <= j < |ts[1..]| && ts[1..][j] == Known(ts[1..])[k];
        assert ts[j + 1] == Known(ts[1..])[k];
      }
    }
  }

  /** The alternatives of a type, or the type itself. */
  function Sides(t: InferredType): seq<InferredType> { if t.inner.TAllOf? then t.inner.types else [t] }

  lemma MergeOnce(rs: seq<InferredType>)
    requires OneEach(rs) && forall x :: x in rs ==> !x.inner.TAllOf?
    ensures OneEach(Sides(Merge(rs)))
  {
    hide OneEach, Gather, Known, Separate;
    assert [] + rs == rs;
    GatherOnce(rs, []);
    KnownOnce(Gather(rs, []));
    NothingSeparate();
    GatherSeparate(rs, []);
    KnownSeparate(Gather(rs, []));
    var ts := Known(Gather(rs, []));
    if |ts| == 1 {
      SeparateMember(ts, ts[0]);
      assert [ts[0]] == ts;
    } else if ts == [] {
      SingleOnce(UNKNOWN);
    }
  }

  lemma SingleOnce(t: InferredType)
    ensures OneEach([t])
  {
  }

  /** At most one alternative for every skeleton. */
  lemma AllOfOnce(types: seq<InferredType>)
    requires Plainly(types)
    ensures OneEach(Sides(AllOf(types)))
  {
    hide Shaped, ResultsFrom, Final, Merge, AllOf, OneEach, Run, BuildersApart, Pending;
    var s := Final(types);
    FinalShaped(types);
    FinalApart(types);
    ResultsOnce(s, 0);
    var rs := ResultsFrom(s, 0);
    AllOfIs(types);
    if |rs| == 1 {
      assert rs[0] in rs && [rs[0]] == rs;
    } else {
      MergeOnce(rs);
    }
  }

  lemma FinalApart(types: seq<InferredType>)
    requires Plainly(types)
    ensures BuildersApart(Final(types).tasks)
  {
    hide Shaped, Pending, Run, Differ;
    InputsPending(types);
    RunApart(EMPTY, Inputs(types));
  }

  lemma {:induction false} PathGrows(t: InferredType, at: Path, p: Path, leaf: Mark)
    requires HasLeaf(t, at, p, leaf)
    ensures |p| >= |at|
    decreases Size(t)
  {
    hide Parts, ShapeOf, PartSizes, SkeletonOf, HasParts;
    if HasParts(t) {
      if !Stands(SkeletonOf(t), at, p, leaf) {
        var c :| c in Parts(t) && HasLeaf(c.typ, at + Suffix(c.place), p, leaf);
        PartSmaller(Parts(t), c);
        PathGrows(c.typ, at + Suffix(c.place), p, leaf);
      }
    } else if t.inner.TAllOf? {
      var x :| x in t.inner.types && HasLeaf(x, at, p, leaf);
      MemberSmaller(t.inner.types, x);
      AllOfSize(t);
      PathGrows(x, at, p, leaf);
    }
  }

  lemma OwnBones(t: InferredType, k: Skeleton)
    requires !t.inner.TAllOf?
    ensures HasLeaf(t, [], [], Bones(k)) <==> SkeletonOf(t) == Some(k)
  {
    hide Parts, ShapeOf, PartSizes, SkeletonOf, HasLeaf, HasParts, CaseBones;
    BonesNeedParts(t);
    HasLeafUnfolds(t, [], [], Bones(k));
    if HasParts(t) {
      forall c | c in Parts(t) ensures !HasLeaf(c.typ, [] + Suffix(c.place), [], Bones(k)) {
        if HasLeaf(c.typ, [] + Suffix(c.place), [], Bones(k)) {
          PathGrows(c.typ, [] + Suffix(c.place), [], Bones(k));
        }
      }
    }
  }

  lemma BonesNeedParts(t: InferredType)
    ensures SkeletonOf(t).Some? ==> HasParts(t)
  {
  }

  lemma {:induction false} HasLeafUnfolds(t: InferredType, at: Path, p: Path, leaf: Mark)
    requires hide *; !t.inner.TAllOf?
    ensures HasParts(t) ==> (HasLeaf(t, at, p, leaf) <==>
              Stands(SkeletonOf(t), at, p, leaf) || exists c :: c in Parts(t) && HasLeaf(c.typ, at + Suffix(c.place), p, leaf))
    ensures !HasParts(t) ==> (HasLeaf(t, at, p, leaf) ==> leaf.Leaf?)
  {
    hide Parts, ShapeOf, PartSizes, SkeletonOf, HasParts, Suffix;
  }

  ghost predicate Among(ts: seq<InferredType>, k: Skeleton) { exists t :: t in ts && SkeletonOf(t) == Some(k) }

  /** Inputs of one skeleton end in one part, and inputs of different skeletons in different ones: the alternatives of the
      result have exactly the skeletons of the inputs, each of them once. */
  lemma SkeletonsKept(types: seq<InferredType>, k: Skeleton)
    requires Plainly(types)
    ensures Among(Sides(AllOf(types)), k) <==> Among(types, k)
    ensures OneEach(Sides(AllOf(types)))
  {
    hide AllOf, OneEach, HasLeaf, SkeletonOf, NormalForm, SameLeaves;
    AllOfOnce(types);
    AllOfLeaves(types);
    AllOfNormal(types);
    SameLeavesGive(AllOf(types), types, [], Bones(k));
    TopBones(types, k);
    var t := AllOf(types);
    NormalSides(t);
    TopBones(Sides(t), k);
    if t.inner.TAllOf? {
      LeafOfAlternatives(t, [], [], Bones(k));
    } else {
      OneLeaf(t, [], [], Bones(k));
    }
  }

  lemma NormalSides(t: InferredType)
    requires NormalForm(t)
    ensures Plainly(Sides(t))
  {
    hide ShapeOf;
  }

  lemma TopBones(ts: seq<InferredType>, k: Skeleton)
    requires Plainly(ts)
    ensures AnyLeaf(ts, [], [], Bones(k)) <==> Among(ts, k)
  {
    hide HasLeaf, SkeletonOf;
    forall t | t in ts ensures HasLeaf(t, [], [], Bones(k)) <==> SkeletonOf(t) == Some(k) {
      OwnBones(t, k);
    }
  }

  // ---------- inputs that all have the same skeleton ----------

  /** The only slot made for an input is the first one, and it has a builder of this skeleton. */
  ghost predicate OneRoot(s: Stack, queue: seq<Task>, k: Skeleton) {
    && (forall t :: t in queue && t.Inspect? && t.init ==> SkeletonOf(t.typ) == Some(k))
    && if s.tasks == [] then s.roots == {} && forall t :: t in queue ==> t.Inspect? && t.init
       else s.roots == {0} && s.tasks[0].Building? && s.tasks[0].path == [] && BuilderBones(s.tasks[0].builder) == Some(k)
  }

  lemma {:induction false} StillOneRoot(s: Stack, queue: seq<Task>, t: Task, m: Move, k: Skeleton)
    requires hide MoveOf, SlotOk, Parts, PartSizes, Parented, Size, Shaped;
             Shaped(s) && Waiting(s.tasks, t) && m == MoveOf(s.tasks, t) && OneRoot(s, [t] + queue, k)
    requires m.target.Some? ==> m.target.value < |s.tasks|
    ensures OneRoot(Apply(s, t.path, m), queue + NewSlots(s.tasks, m), k)
  {
    hide Shaped, MoveOf, Apply, Kids, SlotOk, Parented, SkeletonOf, BuilderBones, HasParts, Suits, FindBuilder, Slots;
    ShapedSizes(s);
    ApplySlots(s, t.path, m);
    MoveShape(s, t, m);
    OldTarget(s, t, m);
    BonesNeedParts(t.typ);
    assert ([t] + queue)[0] == t;
    assert forall x :: x in queue ==> x in [t] + queue;
    if HasParts(t.typ) {
      MoveBones(s, t, m);
      if t.init && s.tasks != [] {
        SuitsExactly(s.tasks[0].builder, t.typ);
        assert Shares(s.tasks[0], t.path, t.typ);
      }
    }
    SlotsLater(m.kids, Base(s.tasks, m));
  }

  lemma SlotsLater(kids: seq<Kid>, i: nat)
    ensures forall t :: t in Slots(kids, i) ==> t.Inspect? && !t.init
  {
  }

  lemma OldTarget(s: Stack, t: Task, m: Move)
    requires hide *; t.Inspect? && Waiting(s.tasks, t) && m == MoveOf(s.tasks, t)
    ensures !t.init ==> m.target.Some?
  {
    hide Parts, InsertAll, NewBuilder, FindBuilder, HasParts, Kids;
  }

  lemma {:induction false} RunOneRoot(s: Stack, queue: seq<Task>, k: Skeleton)
    requires Shaped(s) && Pending(s.tasks, queue) && OneRoot(s, queue, k) && (s.tasks != [] || queue != [])
    ensures OneRoot(Run(s, queue), [], k) && Run(s, queue).tasks != []
    decreases QueueSize(queue)
  {
    hide Shaped, MoveOf, Apply, Pending, QueueSize, Waiting, OneRoot, Fitting, PointersFit;
    if queue != [] {
      var t, rest := queue[0], queue[1..];
      assert queue == [t] + rest;
      FirstWaits(s.tasks, queue);
      var m := MoveOf(s.tasks, t);
      MoveTarget(s.tasks, t);
      ShapedSizes(s);
      MoveFits(s, t);
      ApplyShaped(s, t.path, m);
      StillPending(s, rest, t, m);
      StillOneRoot(s, rest, t, m, k);
      ApplySlots(s, t.path, m);
      QueueShrinks(s.tasks, t, rest);
      RunOneRoot(Apply(s, t.path, m), rest + NewSlots(s.tasks, m), k);
    }
  }

  /** Types of one skeleton merge to one type of this skeleton. */
  lemma OneSkeleton(types: seq<InferredType>, k: Skeleton)
    requires types != [] && forall t :: t in types ==> SkeletonOf(t) == Some(k)
    ensures SkeletonOf(AllOf(types)) == Some(k)
  {
    hide Shaped, ResultsFrom, Merge, AllOf, SkeletonOf, RootType, Run, Pending, BuilderBones;
    forall t | t in types ensures !t.inner.TAllOf? {
      BonesNeedParts(t);
    }
    FinalShaped(types);
    InputsPending(types);
    RunOneRoot(EMPTY, Inputs(types), k);
    var s := Final(types);
    RootBones(s, 0);
    ResultsLater(s, 0);
    ResultsLater(s, 1);
    AllOfIs(types);
  }

  // ===== The merger as it runs, and merging types two at a time.

  // ---------- the stack ----------

  /** One pointer and one inspection for every part, numbered one after the other. */
  method AddParts(b: Builder, ps: seq<Part>, path: Path, first: nat) returns (r: Builder, slots: seq<Task>)
    ensures r == InsertAll(b, ps, first) && slots == Slots(PartKids(path, ps), first)
  {
    hide Insert, Suffix, PartKids, Slots;
    r, slots := b, [];
    ghost var all := Slots(PartKids(path, ps), first);
    for k := 0 to |ps|
      invariant InsertAll(r, ps[k..], first + k) == InsertAll(b, ps, first)
      invariant slots == all[..k]
    {
      assert ps[k..][1..] == ps[k + 1..];
      r := Insert(r, ps[k].place, first + k);
      slots := slots + [Inspect(path + Suffix(ps[k].place), first + k, ps[k].typ, false)];
      assert all[..k + 1] == all[..k] + [all[k]];
    }
    assert ps[|ps|..] == [];
  }

  class MergeTaskStack {
    var tasks: seq<Task>

    constructor ()
      ensures tasks == []
    {
      tasks := [];
    }

    method Find(path: Path, t: InferredType) returns (r: Option<nat>)
      ensures r == FindBuilder(tasks, path, t)
    {
      hide Shares;
      for i := 0 to |tasks|
        invariant forall k :: 0 <= k < i ==> !Shares(tasks[k], path, t)
      {
        if Shares(tasks[i], path, t) {
          return Some(i);
        }
      }
      return None;
    }

    method Update(index: nat, task: Task)
      modifies this
      ensures index < |old(tasks)| ==> tasks == old(tasks)[index := task]
      ensures index >= |old(tasks)| ==> tasks == old(tasks) + [task]
    {
      tasks := if index < |tasks| then tasks[index := task] else tasks + [task];
    }

    method Extend(more: seq<Task>)
      modifies this
      ensures tasks == old(tasks) + more
    {
      tasks := tasks + more;
    }

    /** One inspection. */
    method Process(t: Task) returns (slots: seq<Task>)
      requires hide *; t.Inspect?
      modifies this
      ensures var m := MoveOf(old(tasks), t);
              (m.target.Some? ==> m.target.value < |old(tasks)|) && tasks == Updated(old(tasks), m) && slots == NewSlots(old(tasks), m)
    {
      hide Parts, InsertAll, FindBuilder, NewBuilder, HasParts, PartKids, Slots;
      var next := |tasks|;
      if HasParts(t.typ) {
        var found := Find(t.path, t.typ);
        var b;
        if found.Some? {
          b, slots := AddParts(tasks[found.value].builder, Parts(t.typ), t.path, next);
          Update(found.value, tasks[found.value].(builder := b));
        } else {
          var own := !t.init && t.index < next && tasks[t.index] == t;
          var index, first := if own then t.index else next, if own then next else next + 1;
          b, slots := AddParts(NewBuilder(t.typ), Parts(t.typ), t.path, first);
          Update(index, Building(t.path, index, b));
        }
      } else if t.typ.inner.TAllOf? {
        var index, first := if t.index < next then t.index else next, if t.index < next then next else next + 1;
        slots := Slots(MemberKids(t.path, t.typ.inner.types), first);
        Update(index, Choosing(index, Indices(first, |slots|)));
      } else {
        slots := [];
        var index := if t.init then next else t.index;
        Update(index, Complete(index, t.typ));
      }
      Extend(slots);
    }

    /** The types that no other task uses, in the order of their indices. */
    static method Unused(types: map<nat, InferredType>, used: set<nat>, n: nat) returns (final: seq<InferredType>)
      ensures final == Results(types, used, 0, n)
    {
      final := [];
      for i := 0 to n
        invariant final + Results(types, used, i, n) == Results(types, used, 0, n)
      {
        if i in types && i !in used {
          final := final + [types[i]];
        }
      }
      assert final + Results(types, used, n, n) == final;
    }

    /** From the last task to the first, then the types that nothing has used. */
    method Finish() returns (r: InferredType)
      ensures r == Finished(tasks)
    {
      hide TypeOf, UsedBy, Merge, Finished, IndexOf;
      var n := |tasks|;
      var types: map<nat, InferredType>, used: set<nat> := map[], {};
      for i := n downto 0
        invariant types == TypesFrom(tasks, i) && used == UsedFrom(tasks, i)
      {
        used := used + UsedBy(tasks[i], types);
        types := types[IndexOf(tasks[i]) := TypeOf(tasks[i], types)];
      }
      var final := Unused(types, used, n);
      FinishedIs(tasks, final);
      if |final| == 1 {
        r := final[0];
      } else {
        r := MergeAll(final);
      }
    }
  }

  lemma FinishedIs(tasks: seq<Task>, final: seq<InferredType>)
    requires hide *; final == Results(TypesFrom(tasks, 0), UsedFrom(tasks, 0), 0, |tasks|)
    ensures Finished(tasks) == if |final| == 1 then final[0] else Merge(final)
  {
    hide Merge, TypesFrom, UsedFrom, Results;
  }

  method GetMergeTask(types: seq<InferredType>) returns (stack: MergeTaskStack)
    ensures hide *; fresh(stack) && stack.tasks == Run(EMPTY, Inputs(types)).tasks
  {
    hide MoveOf, Slots, QueueSize;
    stack := new MergeTaskStack();
    var queue := Inputs(types);
    ghost var s := EMPTY;
    while queue != []
      invariant fresh(stack) && s.tasks == stack.tasks
      invariant forall t :: t in queue ==> t.Inspect?
      invariant Run(s, queue) == Run(EMPTY, Inputs(types))
      decreases QueueSize(queue)
    {
      var t, rest := queue[0], queue[1..];
      assert [t] + rest == queue;
      ghost var m := MoveOf(stack.tasks, t);
      MoveTarget(stack.tasks, t);
      QueueShrinks(stack.tasks, t, rest);
      s := Apply(s, t.path, m);
      ghost var first := Base(stack.tasks, m);
      var slots := stack.Process(t);
      SlotsInspected(m.kids, first);
      queue := rest + slots;
    }
  }

  lemma SlotsInspected(kids: seq<Kid>, i: nat)
    ensures forall t :: t in Slots(kids, i) ==> t.Inspect?
  {
  }

  /** Merging a list: the leaves and skeletons of the result are those of the list, and it is no set of alternatives or one
      in normal form with at most one alternative for every skeleton, if no type of the list is a set of alternatives. */
  method AllOfTypes(types: seq<InferredType>) returns (r: InferredType)
    ensures r == AllOf(types)
    ensures Plainly(types) ==> SameLeaves(r, types, []) && NormalForm(r) && OneEach(Sides(r))
  {
    hide *;
    var stack := GetMergeTask(types);
    r := stack.Finish();
    AllOfUnfolds(types);
    if Plainly(types) {
      AllOfLeaves(types);
      AllOfNormal(types);
      AllOfOnce(types);
    }
  }

  lemma AllOfUnfolds(types: seq<InferredType>)
    ensures AllOf(types) == Finished(Run(EMPTY, Inputs(types)).tasks)
  {
    hide Finished, Run;
  }

  // ---------- two at a time ----------

  function WithOrigin(t: InferredType, origin: TypeOrigin): InferredType {
    InferredType(t.inner, AddOrigin(t.origin, origin))
  }

  /** The list that merging two types hands on, if it does. */
  function Handed(a: InferredType, b: InferredType): Option<seq<InferredType>> {
    hide *;
    if a.inner.TUnknown? then None
    else if a.inner.TAllOf? && b.inner.TAllOf? then Some(b.inner.types + a.inner.types)
    else if a.inner.TAllOf? then Some(a.inner.types + [b])
    else if b.inner.TAllOf? then Some(b.inner.types + [a])
    else if !Same(a, b) && !b.inner.TUnknown? then Some([a, b])
    else None
  }

  function MergeTwo(a: InferredType, b: InferredType): InferredType {
    hide *;
    var list := Handed(a, b);
    if list.Some? then AllOf(list.value)
    else if a.inner.TUnknown? then WithOrigin(b, a.origin)
    else WithOrigin(a, b.origin)
  }

  /** An unknown type gives way and equal types are one; what is left carries the origins of both. */
  lemma MergeTwoOrigins(a: InferredType, b: InferredType)
    requires hide *; !a.inner.TAllOf? && !b.inner.TAllOf? && (a.inner.TUnknown? || b.inner.TUnknown? || Same(a, b))
    ensures MergeTwo(a, b).inner == if a.inner.TUnknown? then b.inner else a.inner
    ensures Origins(MergeTwo(a, b).origin) == Origins(a.origin) + Origins(b.origin)
  {
    hide Same, AllOf, AddOrigin, Origins;
    OriginsAdded(a.origin, b.origin);
    OriginsAdded(b.origin, a.origin);
  }

  /** Types in normal form never hand on a set of alternatives. */
  lemma HandedPlainly(a: InferredType, b: InferredType)
    requires hide *; NormalForm(a) && NormalForm(b)
    ensures Handed(a, b).Some? ==> Plainly(Handed(a, b).value)
  {
    hide ShapeOf;
  }

  lemma OriginKeeps(t: InferredType, origin: TypeOrigin)
    ensures Same(t, WithOrigin(t, origin)) && (NormalForm(t) ==> NormalForm(WithOrigin(t, origin)))
  {
    hide AddOrigin, Separate, ShapeOf;
    OriginNotShape(t, AddOrigin(t.origin, origin));
  }

  lemma MergeTwoNormal(a: InferredType, b: InferredType)
    requires NormalForm(a) && NormalForm(b)
    ensures NormalForm(MergeTwo(a, b))
  {
    hide NormalForm, AllOf, WithOrigin, Handed, Plainly, ShapeOf;
    HandedPlainly(a, b);
    if Handed(a, b).Some? {
      AllOfNormal(Handed(a, b).value);
    } else {
      OriginKeeps(a, b.origin);
      OriginKeeps(b, a.origin);
    }
  }

  lemma {:induction false} OneLeaf(t: InferredType, at: Path, p: Path, leaf: Mark)
    ensures AnyLeaf([t], at, p, leaf) <==> HasLeaf(t, at, p, leaf)
  {
    hide HasLeaf;
    assert t in [t];
  }

  lemma {:induction false} HandedLeaves(a: InferredType, b: InferredType, p: Path, leaf: Mark)
    requires hide *; Handed(a, b).Some?
    ensures AnyLeaf(Handed(a, b).value, [], p, leaf) <==> HasLeaf(a, [], p, leaf) || HasLeaf(b, [], p, leaf)
  {
    hide HasLeaf, AnyLeaf, ShapeOf;
    OneLeaf(a, [], p, leaf);
    OneLeaf(b, [], p, leaf);
    if a.inner.TAllOf? {
      LeafOfAlternatives(a, [], p, leaf);
    }
    if b.inner.TAllOf? {
      LeafOfAlternatives(b, [], p, leaf);
    }
    var left := if a.inner.TAllOf? then a.inner.types else [a];
    var right := if b.inner.TAllOf? then b.inner.types else [b];
    LeafAppend(left, right, [], p, leaf);
    LeafAppend(right, left, [], p, leaf);
    assert [a, b] == [a] + [b];
  }

  lemma {:induction false} SameLeavesGive(t: InferredType, ts: seq<InferredType>, p: Path, leaf: Mark)
    requires SameLeaves(t, ts, [])
    ensures HasLeaf(t, [], p, leaf) <==> AnyLeaf(ts, [], p, leaf)
  {
    hide HasLeaf, AnyLeaf;
  }

  /** Nothing is lost from either type, and nothing is made up. */
  lemma {:induction false} MergeTwoLeaves(a: InferredType, b: InferredType, p: Path, leaf: Mark)
    requires NormalForm(a) && NormalForm(b)
    ensures HasLeaf(MergeTwo(a, b), [], p, leaf) <==> HasLeaf(a, [], p, leaf) || HasLeaf(b, [], p, leaf)
  {
    hide NormalForm, AllOf, WithOrigin, Plainly, HasLeaf, AnyLeaf, ShapeOf, SameLeaves;
    HandedPlainly(a, b);
    if Handed(a, b).Some? {
      AllOfLeaves(Handed(a, b).value);
      SameLeavesGive(AllOf(Handed(a, b).value), Handed(a, b).value, p, leaf);
      HandedLeaves(a, b, p, leaf);
    } else {
      OriginKeeps(a, b.origin);
      OriginKeeps(b, a.origin);
      SameLeavesBoth(a, WithOrigin(a, b.origin), [], p, leaf);
      SameLeavesBoth(b, WithOrigin(b, a.origin), [], p, leaf);
      if a.inner.TUnknown? {
        UnknownLeaf(a, [], p, leaf);
      } else if b.inner.TUnknown? {
        UnknownLeaf(b, [], p, leaf);
      } else {
        SameLeavesBoth(a, b, [], p, leaf);
      }
    }
  }

  /** Alternatives of the same skeleton never stay beside each other. */
  lemma MergeTwoOnce(a: InferredType, b: InferredType)
    requires NormalForm(a) && NormalForm(b) && OneEach(Sides(a)) && OneEach(Sides(b))
    ensures OneEach(Sides(MergeTwo(a, b)))
  {
    hide NormalForm, AllOf, Handed, Plainly, ShapeOf, OneEach, AddOrigin;
    HandedPlainly(a, b);
    if Handed(a, b).Some? {
      AllOfOnce(Handed(a, b).value);
    } else {
      SingleOnce(MergeTwo(a, b));
    }
  }

  // ---------- runs of merges ----------

  function MergeRun(t: InferredType, more: seq<InferredType>): InferredType
    decreases |more|
  {
    hide *;
    if more == [] then t else MergeTwo(MergeRun(t, more[..|more| - 1]), more[|more| - 1])
  }

  /** After any number of merges the type is in normal form, has just the leaves and skeletons of what was merged, and at
      most one alternative for every skeleton; so no merge ever hands on a set of alternatives. */
  lemma {:induction false} RunsStayNormal(t: InferredType, more: seq<InferredType>)
    requires NormalForm(t) && forall x :: x in more ==> NormalForm(x)
    ensures NormalForm(MergeRun(t, more)) && SameLeaves(MergeRun(t, more), [t] + more, [])
    ensures OneEach(Sides(t)) && (forall x :: x in more ==> OneEach(Sides(x))) ==> OneEach(Sides(MergeRun(t, more)))
    decreases |more|
  {
    hide NormalForm, MergeTwo, HasLeaf, AnyLeaf, SameLeaves, OneEach, Sides;
    if more == [] {
      forall p, leaf ensures HasLeaf(t, [], p, leaf) <==> AnyLeaf([t], [], p, leaf) {
        OneLeaf(t, [], p, leaf);
      }
      LeavesSame(t, [t], []);
      assert [t] + more == [t];
    } else {
      var front, last := more[..|more| - 1], more[|more| - 1];
      RunsStayNormal(t, front);
      MergeTwoNormal(MergeRun(t, front), last);
      if OneEach(Sides(t)) && forall x :: x in more ==> OneEach(Sides(x)) {
        MergeTwoOnce(MergeRun(t, front), last);
      }
      assert [t] + more == ([t] + front) + [last];
      forall p, leaf ensures HasLeaf(MergeRun(t, more), [], p, leaf) <==> AnyLeaf([t] + more, [], p, leaf) {
        MergeTwoLeaves(MergeRun(t, front), last, p, leaf);
        SameLeavesGive(MergeRun(t, front), [t] + front, p, leaf);
        LeafAppend([t] + front, [last], [], p, leaf);
        OneLeaf(last, [], p, leaf);
      }
      LeavesSame(MergeRun(t, more), [t] + more, []);
    }
  }

  lemma NeverAlternatives(t: InferredType, more: seq<InferredType>, b: InferredType)
    requires hide *; NormalForm(t) && NormalForm(b) && forall x :: x in more ==> NormalForm(x)
    ensures Handed(MergeRun(t, more), b).Some? ==> Plainly(Handed(MergeRun(t, more), b).value)
  {
    hide NormalForm, Handed, MergeRun, SameLeaves;
    RunsStayNormal(t, more);
    HandedPlainly(MergeRun(t, more), b);
  }
}
