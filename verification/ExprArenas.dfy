/** The arena: expression trees as two append-only tables whose nodes refer to each other by index, and back. */
module ExprArenas {
  import opened Syntax

  // ---------- nodes ----------

  datatype ExprNode = ExprNode(kind: NodeKind, note: Note)

  /** The kinds of expressions, with indices in place of expressions and patterns. */
  datatype NodeKind =
    | AtomNode(leaf: Leaf)
    | UnaryNode(unary: UnaryOp, arg: nat)
    | BinaryNode(binary: BinaryOp, lhs: nat, rhs: nat)
    | RecordNode(fields: seq<Field<nat>>)
    | ListNode(listOp: ListOp, exprs: seq<nat>)
    | BlockNode(exprs: seq<nat>)
    | LetNode(variable: VariableId, bound: nat)
    | CondNode(cond: nat, lhs: nat, rhs: nat)
    | MatchNode(scrutinee: nat, arms: seq<ArmNode>)
    | SelectNode(list: nat, index: nat)
    | CallNode(callType: CallTypeNode, args: seq<nat>)
    | ComprehensionNode(iterated: VariableId, iterable: nat, body: nat)
    | ReduceNode(reduced: VariableId, iterated: VariableId, iterable: nat, init: nat, body: nat)
    | RangeNode(from: nat, to: Option<nat>, inclusive: bool)
    | LazyNode(receiver: nat, method_: string, args: seq<nat>)

  datatype ArmNode = ArmNode(pattern: nat, resolution: nat)

  datatype CallTypeNode =
    | FunctionNode(name: string, receiver: ReceiverNode, component: Option<int>)
    | VariantNode(variant: string)
    | EnumNode(enum_: string)
    | WorkerNode(workerName: Option<nat>, component: Option<int>)
    | ResourceNode(resource: string, owner: ReceiverNode, component: Option<int>)

  datatype ReceiverNode =
    | NoInstanceNode
    | WorkerReceiverNode(worker: Option<VariableId>, workerName: Option<nat>)
    | ResourceReceiverNode(resource: Option<VariableId>, workerName: Option<nat>, resourceName: string)

  function WorkerIdOf(r: ReceiverNode): Option<nat> { if r.NoInstanceNode? then None else r.workerName }

  datatype PatternNode =
    | WildCardNode
    | AsNode(name: string, inner: nat)
    | ConstructorNode(name: string, patterns: seq<nat>)
    | TupleNode(patterns: seq<nat>)
    | RecordPatternNode(fieldPatterns: seq<Field<nat>>)
    | ListPatternNode(patterns: seq<nat>)
    | LiteralNode(literal: nat)

  /** The two tables, and the types of the expressions. */
  datatype Store = Store(exprs: seq<ExprNode>, patterns: seq<PatternNode>, types: map<nat, InferredType>)

  const NO_NODES: Store := Store([], [], map[])

  // ---------- trees below a tree, in the order in which they are lowered ----------

  datatype Tree = ExprTree(expr: Expr) | PatternTree(pattern: ArmPattern)

  function Trees(es: seq<Expr>): (r: seq<Tree>)
    ensures |r| == |es| && forall i :: 0 <= i < |es| ==> r[i] == ExprTree(es[i])
  {
    seq(|es|, i requires 0 <= i < |es| => ExprTree(es[i]))
  }

  function FieldTrees(fs: seq<Field<Expr>>): (r: seq<Tree>)
    ensures |r| == |fs| && forall i :: 0 <= i < |fs| ==> r[i] == ExprTree(fs[i].of)
  {
    seq(|fs|, i requires 0 <= i < |fs| => ExprTree(fs[i].of))
  }

  function OptionTree(e: Option<Expr>): seq<Tree> { if e.Some? then [ExprTree(e.value)] else [] }

  function ArmTrees(arms: seq<MatchArm>): (r: seq<Tree>)
    ensures |r| == 2 * |arms|
  {
    if arms == [] then [] else [PatternTree(arms[0].pattern), ExprTree(arms[0].resolution)] + ArmTrees(arms[1..])
  }

  function PatternTrees(ps: seq<ArmPattern>): (r: seq<Tree>)
    ensures |r| == |ps| && forall i :: 0 <= i < |ps| ==> r[i] == PatternTree(ps[i])
  {
    seq(|ps|, i requires 0 <= i < |ps| => PatternTree(ps[i]))
  }

  function FieldPatternTrees(fs: seq<Field<ArmPattern>>): (r: seq<Tree>)
    ensures |r| == |fs| && forall i :: 0 <= i < |fs| ==> r[i] == PatternTree(fs[i].of)
  {
    seq(|fs|, i requires 0 <= i < |fs| => PatternTree(fs[i].of))
  }

  function CallTrees(c: CallType): seq<Tree> {
    match c
    case Function(_, receiver, _) => OptionTree(WorkerNameOf(receiver))
    case WorkerCreation(name, _) => OptionTree(name)
    case ResourceCreation(_, owner, _) => OptionTree(WorkerNameOf(owner))
    case _ => []
  }

  function BelowExpr(k: Kind): seq<Tree> {
    match k
    case Atom(_) => []
    case Unary(_, a) => [ExprTree(a)]
    case Binary(_, l, r) => [ExprTree(l), ExprTree(r)]
    case Record(fs) => FieldTrees(fs)
    case ListOf(_, es) => Trees(es)
    case Block(es) => Trees(es)
    case Let(_, b) => [ExprTree(b)]
    case Cond(c, l, r) => [ExprTree(c), ExprTree(l), ExprTree(r)]
    case PatternMatch(p, arms) => [ExprTree(p)] + ArmTrees(arms)
    case SelectIndex(l, i) => [ExprTree(l), ExprTree(i)]
    case Call(ct, args) => CallTrees(ct) + Trees(args)
    case Comprehension(_, i, b) => [ExprTree(i), ExprTree(b)]
    case Reduce(_, _, i, s, b) => [ExprTree(i), ExprTree(s), ExprTree(b)]
    case Range(f, t, _) => [ExprTree(f)] + OptionTree(t)
    case InvokeMethodLazy(r, _, args) => [ExprTree(r)] + Trees(args)
  }

  function BelowPattern(p: ArmPattern): seq<Tree> {
    match p
    case WildCard => []
    case As(_, q) => [PatternTree(q)]
    case Constructor(_, ps) => PatternTrees(ps)
    case TupleConstructor(ps) => PatternTrees(ps)
    case ListConstructor(ps) => PatternTrees(ps)
    case RecordConstructor(fs) => FieldPatternTrees(fs)
    case LiteralPattern(e) => [ExprTree(e)]
  }

  function Below(t: Tree): seq<Tree> {
    match t
    case ExprTree(e) => BelowExpr(e.kind)
    case PatternTree(p) => BelowPattern(p)
  }

  // ---------- nodes of trees ----------

  function FieldIds<X>(fs: seq<Field<X>>, ids: seq<nat>): (r: seq<Field<nat>>)
    requires |ids| == |fs|
    ensures |r| == |fs| && forall i :: 0 <= i < |fs| ==> r[i] == Field(fs[i].name, ids[i])
  {
    seq(|fs|, i requires 0 <= i < |fs| => Field(fs[i].name, ids[i]))
  }

  function ArmIds(arms: seq<MatchArm>, ids: seq<nat>): seq<ArmNode>
    requires |ids| == 2 * |arms|
  {
    if arms == [] then [] else [ArmNode(ids[0], ids[1])] + ArmIds(arms[1..], ids[2..])
  }

  function OptionId(e: Option<Expr>, ids: seq<nat>): Option<nat>
    requires e.Some? ==> |ids| > 0
  {
    if e.Some? then Some(ids[0]) else None
  }

  function ReceiverIds(r: Receiver, ids: seq<nat>): ReceiverNode
    requires WorkerNameOf(r).Some? ==> |ids| > 0
  {
    match r
    case NoInstance => NoInstanceNode
    case WorkerReceiver(v, name) => WorkerReceiverNode(v, OptionId(name, ids))
    case ResourceReceiver(v, name, resource) => ResourceReceiverNode(v, OptionId(name, ids), resource)
  }

  function CallIds(c: CallType, ids: seq<nat>): CallTypeNode
    requires |ids| >= |CallTrees(c)|
  {
    match c
    case Function(name, receiver, component) => FunctionNode(name, ReceiverIds(receiver, ids), component)
    case VariantConstructor(name) => VariantNode(name)
    case EnumConstructor(name) => EnumNode(name)
    case WorkerCreation(name, component) => WorkerNode(OptionId(name, ids), component)
    case ResourceCreation(name, owner, component) => ResourceNode(name, ReceiverIds(owner, ids), component)
  }

  /** The node of an expression whose parts have these indices. */
  function KindIds(k: Kind, ids: seq<nat>): NodeKind
    requires hide CallIds, CallTrees; |ids| == |BelowExpr(k)|
  {
    match k
    case Atom(leaf) => AtomNode(leaf)
    case Unary(op, _) => UnaryNode(op, ids[0])
    case Binary(op, _, _) => BinaryNode(op, ids[0], ids[1])
    case Record(fs) => RecordNode(FieldIds(fs, ids))
    case ListOf(op, _) => ListNode(op, ids)
    case Block(_) => BlockNode(ids)
    case Let(v, _) => LetNode(v, ids[0])
    case Cond(_, _, _) => CondNode(ids[0], ids[1], ids[2])
    case PatternMatch(_, arms) => MatchNode(ids[0], ArmIds(arms, ids[1..]))
    case SelectIndex(_, _) => SelectNode(ids[0], ids[1])
    case Call(ct, _) => CallNode(CallIds(ct, ids), ids[|CallTrees(ct)|..])
    case Comprehension(v, _, _) => ComprehensionNode(v, ids[0], ids[1])
    case Reduce(r, v, _, _, _) => ReduceNode(r, v, ids[0], ids[1], ids[2])
    case Range(_, t, inclusive) => RangeNode(ids[0], OptionId(t, ids[1..]), inclusive)
    case InvokeMethodLazy(_, m, _) => LazyNode(ids[0], m, ids[1..])
  }

  function PatternIds(p: ArmPattern, ids: seq<nat>): PatternNode
    requires |ids| == |BelowPattern(p)|
  {
    match p
    case WildCard => WildCardNode
    case As(name, _) => AsNode(name, ids[0])
    case Constructor(name, _) => ConstructorNode(name, ids)
    case TupleConstructor(_) => TupleNode(ids)
    case ListConstructor(_) => ListPatternNode(ids)
    case RecordConstructor(fs) => RecordPatternNode(FieldIds(fs, ids))
    case LiteralPattern(_) => LiteralNode(ids[0])
  }

  // ---------- lowering ----------

  /** The number of nodes of a tree. */
  function ExprNodes(e: Expr): (n: nat)
    ensures hide *; n >= 1
    decreases e
  {
    1 + match e.kind
        case Atom(_) => 0
        case Unary(_, a) => ExprNodes(a)
        case Binary(_, l, r) => ExprNodes(l) + ExprNodes(r)
        case Record(fs) => FieldNodes(fs)
        case ListOf(_, es) => ManyNodes(es)
        case Block(es) => ManyNodes(es)
        case Let(_, b) => ExprNodes(b)
        case Cond(c, l, r) => ExprNodes(c) + ExprNodes(l) + ExprNodes(r)
        case PatternMatch(p, arms) => ExprNodes(p) + ArmsNodes(arms)
        case SelectIndex(l, i) => ExprNodes(l) + ExprNodes(i)
        case Call(ct, args) => CallNodes(ct) + ManyNodes(args)
        case Comprehension(_, i, b) => ExprNodes(i) + ExprNodes(b)
        case Reduce(_, _, i, s, b) => ExprNodes(i) + ExprNodes(s) + ExprNodes(b)
        case Range(f, t, _) => ExprNodes(f) + OptionNodes(t)
        case InvokeMethodLazy(r, _, args) => ExprNodes(r) + ManyNodes(args)
  }

  function ManyNodes(es: seq<Expr>): nat
    decreases es
  {
    hide *;
    if es == [] then 0 else ExprNodes(es[0]) + ManyNodes(es[1..])
  }

  function FieldNodes(fs: seq<Field<Expr>>): nat
    decreases fs
  {
    hide *;
    if fs == [] then 0 else ExprNodes(fs[0].of) + FieldNodes(fs[1..])
  }

  function OptionNodes(e: Option<Expr>): nat
    decreases e
  {
    hide *;
    if e.Some? then ExprNodes(e.value) else 0
  }

  function CallNodes(c: CallType): nat
    decreases c
  {
    hide *;
    match c
    case Function(_, receiver, _) => if receiver.NoInstance? then 0 else OptionNodes(receiver.workerName)
    case WorkerCreation(name, _) => OptionNodes(name)
    case ResourceCreation(_, owner, _) => if owner.NoInstance? then 0 else OptionNodes(owner.workerName)
    case _ => 0
  }

  function ArmsNodes(arms: seq<MatchArm>): nat
    decreases arms
  {
    hide *;
    if arms == [] then 0 else OneArmNodes(arms[0]) + ArmsNodes(arms[1..])
  }

  function OneArmNodes(arm: MatchArm): nat
    decreases arm
  {
    hide *;
    PatternNodes(arm.pattern) + ExprNodes(arm.resolution)
  }

  function PatternNodes(p: ArmPattern): (n: nat)
    ensures hide *; n >= 1
    decreases p
  {
    1 + match p
        case WildCard => 0
        case As(_, q) => PatternNodes(q)
        case Constructor(_, ps) => PatternsNodes(ps)
        case TupleConstructor(ps) => PatternsNodes(ps)
        case ListConstructor(ps) => PatternsNodes(ps)
        case RecordConstructor(fs) => FieldPatternsNodes(fs)
        case LiteralPattern(e) => ExprNodes(e)
  }

  function PatternsNodes(ps: seq<ArmPattern>): nat
    decreases ps
  {
    hide *;
    if ps == [] then 0 else PatternNodes(ps[0]) + PatternsNodes(ps[1..])
  }

  function FieldPatternsNodes(fs: seq<Field<ArmPattern>>): nat
    decreases fs
  {
    hide *;
    if fs == [] then 0 else PatternNodes(fs[0].of) + FieldPatternsNodes(fs[1..])
  }

  function Nodes(t: Tree): (n: nat)
    ensures hide *; n >= 1
  {
    match t
    case ExprTree(e) => ExprNodes(e)
    case PatternTree(p) => PatternNodes(p)
  }

  function AllNodes(ts: seq<Tree>): nat { hide *; if ts == [] then 0 else Nodes(ts[0]) + AllNodes(ts[1..]) }

  lemma AllNodesAppend(a: seq<Tree>, b: seq<Tree>)
    ensures AllNodes(a + b) == AllNodes(a) + AllNodes(b)
  {
    hide Nodes;
    if a == [] {
      assert a + b == b;
    } else {
      assert (a + b)[1..] == a[1..] + b;
    }
  }

  lemma OneNode(a: Tree)
    ensures AllNodes([a]) == Nodes(a)
  {
    hide ExprNodes, PatternNodes;
    assert [a][1..] == [];
  }

  lemma FewNodes(a: Tree, b: Tree, c: Tree)
    ensures AllNodes([a]) == Nodes(a) && AllNodes([a, b]) == Nodes(a) + Nodes(b)
    ensures AllNodes([a, b, c]) == Nodes(a) + Nodes(b) + Nodes(c)
  {
    hide Nodes;
    OneNode(a);
    OneNode(b);
    OneNode(c);
    AllNodesAppend([a], [b]);
    AllNodesAppend([a, b], [c]);
    assert [a, b] == [a] + [b] && [a, b, c] == [a, b] + [c];
  }

  lemma TreesNodes(es: seq<Expr>)
    ensures AllNodes(Trees(es)) == ManyNodes(es)
  {
    hide ExprNodes;
    if es != [] {
      assert Trees(es)[1..] == Trees(es[1..]);
    }
  }

  lemma FieldTreesNodes(fs: seq<Field<Expr>>)
    ensures AllNodes(FieldTrees(fs)) == FieldNodes(fs)
  {
    hide ExprNodes;
    if fs != [] {
      assert FieldTrees(fs)[1..] == FieldTrees(fs[1..]);
    }
  }

  lemma ArmTreesNodes(arms: seq<MatchArm>)
    ensures AllNodes(ArmTrees(arms)) == ArmsNodes(arms)
  {
    hide ExprNodes, PatternNodes;
    if arms != [] {
      var first := [PatternTree(arms[0].pattern), ExprTree(arms[0].resolution)];
      AllNodesAppend(first, ArmTrees(arms[1..]));
      FewNodes(first[0], first[1], first[0]);
      ArmTreesNodes(arms[1..]);
    }
  }

  lemma PatternTreesNodes(ps: seq<ArmPattern>)
    ensures AllNodes(PatternTrees(ps)) == PatternsNodes(ps)
  {
    hide PatternNodes, ExprNodes;
    if ps != [] {
      assert PatternTrees(ps)[1..] == PatternTrees(ps[1..]);
    }
  }

  lemma FieldPatternTreesNodes(fs: seq<Field<ArmPattern>>)
    ensures AllNodes(FieldPatternTrees(fs)) == FieldPatternsNodes(fs)
  {
    hide PatternNodes, ExprNodes;
    if fs != [] {
      assert FieldPatternTrees(fs)[1..] == FieldPatternTrees(fs[1..]);
    }
  }

  lemma OptionTreeNodes(e: Option<Expr>)
    ensures AllNodes(OptionTree(e)) == OptionNodes(e)
  {
    hide ExprNodes;
    if e.Some? {
      FewNodes(ExprTree(e.value), ExprTree(e.value), ExprTree(e.value));
    }
  }

  lemma ReceiverTreeNodes(r: Receiver)
    ensures hide *; AllNodes(OptionTree(WorkerNameOf(r))) == if r.NoInstance? then 0 else OptionNodes(r.workerName)
  {
    hide ExprNodes, Nodes;
    if !r.NoInstance? {
      OptionTreeNodes(r.workerName);
    }
  }

  lemma CallTreesNodes(c: CallType)
    ensures AllNodes(CallTrees(c)) == CallNodes(c)
  {
    hide OptionNodes, OptionTree, Nodes;
    match c {
      case Function(_, receiver, _) => ReceiverTreeNodes(receiver);
      case WorkerCreation(name, _) => OptionTreeNodes(name);
      case ResourceCreation(_, owner, _) => ReceiverTreeNodes(owner);
      case _ =>
    }
  }

  lemma BelowExprNodes(e: Expr)
    ensures AllNodes(BelowExpr(e.kind)) == ExprNodes(e) - 1
  {
    hide AllNodes, Trees, FieldTrees, ArmTrees, OptionTree, CallTrees, ManyNodes, FieldNodes, ArmsNodes, OptionNodes,
         CallNodes, PatternNodes;
    match e.kind {
      case Atom(_) => NoNodes();
      case Unary(_, a) => FewNodes(ExprTree(a), ExprTree(a), ExprTree(a));
      case Binary(_, l, r) => FewNodes(ExprTree(l), ExprTree(r), ExprTree(r));
      case Record(fs) => FieldTreesNodes(fs);
      case ListOf(_, es) => TreesNodes(es);
      case Block(es) => TreesNodes(es);
      case Let(_, b) => FewNodes(ExprTree(b), ExprTree(b), ExprTree(b));
      case Cond(c, l, r) => FewNodes(ExprTree(c), ExprTree(l), ExprTree(r));
      case PatternMatch(p, arms) =>
        FewNodes(ExprTree(p), ExprTree(p), ExprTree(p));
        ArmTreesNodes(arms);
        AllNodesAppend([ExprTree(p)], ArmTrees(arms));
      case SelectIndex(l, i) => FewNodes(ExprTree(l), ExprTree(i), ExprTree(i));
      case Call(ct, args) =>
        CallTreesNodes(ct);
        TreesNodes(args);
        AllNodesAppend(CallTrees(ct), Trees(args));
      case Comprehension(_, i, b) => FewNodes(ExprTree(i), ExprTree(b), ExprTree(b));
      case Reduce(_, _, i, s, b) => FewNodes(ExprTree(i), ExprTree(s), ExprTree(b));
      case Range(f, t, _) =>
        FewNodes(ExprTree(f), ExprTree(f), ExprTree(f));
        OptionTreeNodes(t);
        AllNodesAppend([ExprTree(f)], OptionTree(t));
      case InvokeMethodLazy(r, _, args) =>
        FewNodes(ExprTree(r), ExprTree(r), ExprTree(r));
        TreesNodes(args);
        AllNodesAppend([ExprTree(r)], Trees(args));
    }
  }

  lemma NoNodes()
    ensures AllNodes([]) == 0
  {
  }

  lemma BelowPatternNodes(p: ArmPattern)
    ensures AllNodes(BelowPattern(p)) == PatternNodes(p) - 1
  {
    hide AllNodes, PatternTrees, FieldPatternTrees, PatternsNodes, FieldPatternsNodes, ArmsNodes, CallNodes;
    match p {
      case WildCard => NoNodes();
      case As(_, q) => FewNodes(PatternTree(q), PatternTree(q), PatternTree(q));
      case Constructor(_, ps) => PatternTreesNodes(ps);
      case TupleConstructor(ps) => PatternTreesNodes(ps);
      case ListConstructor(ps) => PatternTreesNodes(ps);
      case RecordConstructor(fs) => FieldPatternTreesNodes(fs);
      case LiteralPattern(e) => FewNodes(ExprTree(e), ExprTree(e), ExprTree(e));
    }
  }

  lemma BelowNodes(t: Tree)
    ensures AllNodes(Below(t)) < Nodes(t)
  {
    hide AllNodes, BelowExpr, BelowPattern, ExprNodes, PatternNodes;
    match t {
      case ExprTree(e) => BelowExprNodes(e);
      case PatternTree(p) => BelowPatternNodes(p);
    }
  }

  datatype Lowered = Lowered(store: Store, ids: seq<nat>)

  /** A new node at the end of its table; an expression also enters its type. */
  function Alloc(t: Tree, s: Store, ids: seq<nat>): (Store, nat)
    requires hide BelowExpr, BelowPattern, KindIds, PatternIds; |ids| == |Below(t)|
  {
    match t
    case ExprTree(e) =>
      (Store(s.exprs + [ExprNode(KindIds(e.kind, ids), e.note)], s.patterns, s.types[|s.exprs| := e.ty]), |s.exprs|)
    case PatternTree(p) => (s.(patterns := s.patterns + [PatternIds(p, ids)]), |s.patterns|)
  }

  function Lower(t: Tree, s: Store): (Store, nat)
    decreases Nodes(t), 0
  {
    hide *;
    BelowNodes(t);
    var below := LowerAll(Below(t), s);
    Alloc(t, below.store, below.ids)
  }

  function LowerAll(ts: seq<Tree>, s: Store): (r: Lowered)
    ensures hide *; |r.ids| == |ts|
    decreases AllNodes(ts), 1
  {
    if ts == [] then Lowered(s, []) else
    var (s1, id) := Lower(ts[0], s);
    var rest := LowerAll(ts[1..], s1);
    Lowered(rest.store, [id] + rest.ids)
  }

  // ===== Trees out of the arena: rebuilding ends and is the inverse of lowering.

  // ---------- references of nodes ----------

  datatype Ref = ExprRef(id: nat) | PatternRef(id: nat)

  function ExprRefs(ids: seq<nat>): (r: seq<Ref>)
    ensures |r| == |ids| && forall i :: 0 <= i < |ids| ==> r[i] == ExprRef(ids[i])
  {
    seq(|ids|, i requires 0 <= i < |ids| => ExprRef(ids[i]))
  }

  function PatternRefs(ids: seq<nat>): (r: seq<Ref>)
    ensures |r| == |ids| && forall i :: 0 <= i < |ids| ==> r[i] == PatternRef(ids[i])
  {
    seq(|ids|, i requires 0 <= i < |ids| => PatternRef(ids[i]))
  }

  function IdsOf(fs: seq<Field<nat>>): (r: seq<nat>)
    ensures |r| == |fs| && forall i :: 0 <= i < |fs| ==> r[i] == fs[i].of
  {
    seq(|fs|, i requires 0 <= i < |fs| => fs[i].of)
  }

  function ArmRefs(arms: seq<ArmNode>): (r: seq<Ref>)
    ensures |r| == 2 * |arms|
  {
    if arms == [] then [] else [PatternRef(arms[0].pattern), ExprRef(arms[0].resolution)] + ArmRefs(arms[1..])
  }

  function OptionRef(id: Option<nat>): seq<Ref> { if id.Some? then [ExprRef(id.value)] else [] }

  function CallRefs(c: CallTypeNode): seq<Ref> {
    match c
    case FunctionNode(_, receiver, _) => OptionRef(WorkerIdOf(receiver))
    case WorkerNode(name, _) => OptionRef(name)
    case ResourceNode(_, owner, _) => OptionRef(WorkerIdOf(owner))
    case _ => []
  }

  function KindRefs(k: NodeKind): seq<Ref> {
    match k
    case AtomNode(_) => []
    case UnaryNode(_, a) => [ExprRef(a)]
    case BinaryNode(_, l, r) => [ExprRef(l), ExprRef(r)]
    case RecordNode(fs) => ExprRefs(IdsOf(fs))
    case ListNode(_, es) => ExprRefs(es)
    case BlockNode(es) => ExprRefs(es)
    case LetNode(_, b) => [ExprRef(b)]
    case CondNode(c, l, r) => [ExprRef(c), ExprRef(l), ExprRef(r)]
    case MatchNode(p, arms) => [ExprRef(p)] + ArmRefs(arms)
    case SelectNode(l, i) => [ExprRef(l), ExprRef(i)]
    case CallNode(ct, args) => CallRefs(ct) + ExprRefs(args)
    case ComprehensionNode(_, i, b) => [ExprRef(i), ExprRef(b)]
    case ReduceNode(_, _, i, s, b) => [ExprRef(i), ExprRef(s), ExprRef(b)]
    case RangeNode(f, t, _) => [ExprRef(f)] + OptionRef(t)
    case LazyNode(r, _, args) => [ExprRef(r)] + ExprRefs(args)
  }

  function PatternNodeRefs(p: PatternNode): seq<Ref> {
    match p
    case WildCardNode => []
    case AsNode(_, q) => [PatternRef(q)]
    case ConstructorNode(_, ps) => PatternRefs(ps)
    case TupleNode(ps) => PatternRefs(ps)
    case ListPatternNode(ps) => PatternRefs(ps)
    case RecordPatternNode(fs) => PatternRefs(IdsOf(fs))
    case LiteralNode(e) => [ExprRef(e)]
  }

  // ---------- stores that can be rebuilt ----------

  /** Patterns refer to earlier patterns. */
  ghost predicate PatternsOk(ps: seq<PatternNode>) {
    forall j, r :: 0 <= j < |ps| && r in PatternNodeRefs(ps[j]) && r.PatternRef? ==> r.id < j
  }

  /** All expressions below a pattern have smaller indices than this. */
  ghost function Bound(ps: seq<PatternNode>, j: nat): nat
    requires hide PatternNodeRefs; PatternsOk(ps) && j < |ps|
    decreases j, 1
  {
    BoundAll(ps, j, PatternNodeRefs(ps[j]))
  }

  ghost function BoundAll(ps: seq<PatternNode>, j: nat, rs: seq<Ref>): (n: nat)
    requires hide *; PatternsOk(ps) && j < |ps| && forall r :: r in rs && r.PatternRef? ==> r.id < j
    ensures forall r :: r in rs && r.PatternRef? ==> Bound(ps, r.id) <= n
    ensures forall r :: r in rs && r.ExprRef? ==> r.id < n
    decreases j, 0, |rs|
  {
    if rs == [] then 0 else
    var rest := BoundAll(ps, j, rs[1..]);
    var one := if rs[0].PatternRef? then Bound(ps, rs[0].id) else rs[0].id + 1;
    assert forall r :: r in rs ==> r == rs[0] || r in rs[1..];
    if one >= rest then one else rest
  }

  ghost predicate ExprOk(s: Store, i: nat)
    requires hide *; PatternsOk(s.patterns) && i < |s.exprs|
  {
    forall r :: r in KindRefs(s.exprs[i].kind) ==>
      if r.ExprRef? then r.id < i else r.id < |s.patterns| && Bound(s.patterns, r.id) <= i
  }

  ghost predicate LiteralsOk(s: Store) {
    hide *;
    forall j, r :: 0 <= j < |s.patterns| && r in PatternNodeRefs(s.patterns[j]) && r.ExprRef? ==> r.id < |s.exprs|
  }

  /** Nodes refer to earlier nodes, also across the two tables. */
  ghost predicate WellFounded(s: Store) {
    hide *;
    PatternsOk(s.patterns) && LiteralsOk(s) && forall i :: 0 <= i < |s.exprs| ==> ExprOk(s, i)
  }

  predicate Inside(s: Store, r: Ref) { if r.ExprRef? then r.id < |s.exprs| else r.id < |s.patterns| }

  function RefsAt(s: Store, r: Ref): seq<Ref>
    requires hide KindRefs, PatternNodeRefs; Inside(s, r)
  {
    if r.ExprRef? then KindRefs(s.exprs[r.id].kind) else PatternNodeRefs(s.patterns[r.id])
  }

  /** How far down the tables a reference can lead. */
  ghost function Rank(s: Store, r: Ref): nat
    requires hide BoundAll, ExprOk, LiteralsOk, PatternNodeRefs, PatternsOk; WellFounded(s) && Inside(s, r)
  {
    if r.ExprRef? then r.id else Bound(s.patterns, r.id)
  }

  ghost function SubRank(s: Store, r: Ref): nat { if r.ExprRef? then |s.patterns| else r.id }

  ghost predicate Before(s: Store, a: Ref, b: Ref)
    requires hide *; WellFounded(s) && Inside(s, a) && Inside(s, b)
  {
    Rank(s, a) < Rank(s, b) || (Rank(s, a) == Rank(s, b) && SubRank(s, a) < SubRank(s, b))
  }

  lemma RefsBefore(s: Store, r: Ref, c: Ref)
    requires hide *; WellFounded(s) && Inside(s, r) && c in RefsAt(s, r)
    ensures Inside(s, c) && Before(s, c, r)
  {
    hide KindRefs, PatternNodeRefs;
    if r.ExprRef? {
      assert ExprOk(s, r.id);
    }
  }

  // ---------- rebuilding ----------

  predicate Alike(rs: seq<Ref>, ts: seq<Tree>) {
    |rs| == |ts| && forall i | 0 <= i < |rs| :: rs[i].ExprRef? <==> ts[i].ExprTree?
  }

  predicate AllExprs(ts: seq<Tree>) { forall t | t in ts :: t.ExprTree? }

  predicate AllPatterns(ts: seq<Tree>) { forall t | t in ts :: t.PatternTree? }

  function Exprs(ts: seq<Tree>): (r: seq<Expr>)
    requires AllExprs(ts)
    ensures |r| == |ts| && forall i :: 0 <= i < |ts| ==> r[i] == ts[i].expr
  {
    seq(|ts|, i requires 0 <= i < |ts| => ts[i].expr)
  }

  function Patterns(ts: seq<Tree>): (r: seq<ArmPattern>)
    requires AllPatterns(ts)
    ensures |r| == |ts| && forall i :: 0 <= i < |ts| ==> r[i] == ts[i].pattern
  {
    seq(|ts|, i requires 0 <= i < |ts| => ts[i].pattern)
  }

  function Named<X>(fs: seq<Field<nat>>, xs: seq<X>): (r: seq<Field<X>>)
    requires |fs| == |xs|
    ensures |r| == |fs| && forall i :: 0 <= i < |fs| ==> r[i] == Field(fs[i].name, xs[i])
  {
    seq(|fs|, i requires 0 <= i < |fs| => Field(fs[i].name, xs[i]))
  }

  function Arms(arms: seq<ArmNode>, ts: seq<Tree>): seq<MatchArm>
    requires Alike(ArmRefs(arms), ts)
  {
    if arms == [] then [] else
    assert ArmRefs(arms)[0].PatternRef? && ArmRefs(arms)[1].ExprRef? && ArmRefs(arms)[2..] == ArmRefs(arms[1..]);
    assert forall i :: 0 <= i < |ts| - 2 ==> ArmRefs(arms)[2..][i] == ArmRefs(arms)[i + 2];
    [MatchArm(ts[0].pattern, ts[1].expr)] + Arms(arms[1..], ts[2..])
  }

  function OptionExpr(id: Option<nat>, ts: seq<Tree>): Option<Expr>
    requires id.Some? ==> |ts| > 0 && ts[0].ExprTree?
  {
    if id.Some? then Some(ts[0].expr) else None
  }

  function ReceiverBack(r: ReceiverNode, ts: seq<Tree>): Receiver
    requires WorkerIdOf(r).Some? ==> |ts| > 0 && ts[0].ExprTree?
  {
    match r
    case NoInstanceNode => NoInstance
    case WorkerReceiverNode(v, name) => WorkerReceiver(v, OptionExpr(name, ts))
    case ResourceReceiverNode(v, name, resource) => ResourceReceiver(v, OptionExpr(name, ts), resource)
  }

  function CallBack(c: CallTypeNode, ts: seq<Tree>): CallType
    requires |ts| >= |CallRefs(c)| && AllExprs(ts)
  {
    match c
    case FunctionNode(name, receiver, component) => Function(name, ReceiverBack(receiver, ts), component)
    case VariantNode(name) => VariantConstructor(name)
    case EnumNode(name) => EnumConstructor(name)
    case WorkerNode(name, component) => WorkerCreation(OptionExpr(name, ts), component)
    case ResourceNode(name, owner, component) => ResourceCreation(name, ReceiverBack(owner, ts), component)
  }

  lemma CallAlike(k: NodeKind, ts: seq<Tree>)
    requires k.CallNode? && Alike(KindRefs(k), ts)
    ensures AllExprs(ts)
  {
    forall t | t in ts ensures t.ExprTree? {
      var i :| 0 <= i < |ts| && ts[i] == t;
      assert KindRefs(k)[i].ExprRef?;
    }
  }

  /** The kind of a node with trees in place of its references. */
  function KindBack(k: NodeKind, ts: seq<Tree>): Kind
    requires hide KindBack, CallBack, CallRefs, Named, ArmRefs; Alike(KindRefs(k), ts)
  {
    match k
    case AtomNode(leaf) => Atom(leaf)
    case UnaryNode(op, _) => Unary(op, ts[0].expr)
    case BinaryNode(op, _, _) => Binary(op, ts[0].expr, ts[1].expr)
    case RecordNode(fs) => Record(Named(fs, Exprs(ts)))
    case ListNode(op, _) => ListOf(op, Exprs(ts))
    case BlockNode(_) => Block(Exprs(ts))
    case LetNode(v, _) => Let(v, ts[0].expr)
    case CondNode(_, _, _) => Cond(ts[0].expr, ts[1].expr, ts[2].expr)
    case MatchNode(_, arms) =>
      assert KindRefs(k)[0].ExprRef? && forall i :: 0 <= i < |ts| - 1 ==> KindRefs(k)[i + 1] == ArmRefs(arms)[i];
      PatternMatch(ts[0].expr, Arms(arms, ts[1..]))
    case SelectNode(_, _) => SelectIndex(ts[0].expr, ts[1].expr)
    case CallNode(ct, args) =>
      CallAlike(k, ts);
      Call(CallBack(ct, ts), Exprs(ts[|CallRefs(ct)|..]))
    case ComprehensionNode(v, _, _) => Comprehension(v, ts[0].expr, ts[1].expr)
    case ReduceNode(r, v, _, _, _) => Reduce(r, v, ts[0].expr, ts[1].expr, ts[2].expr)
    case RangeNode(_, t, inclusive) => Range(ts[0].expr, OptionExpr(t, ts[1..]), inclusive)
    case LazyNode(_, m, args) =>
      assert KindRefs(k)[0].ExprRef? && forall i :: 0 <= i < |args| ==> KindRefs(k)[i + 1] == ExprRefs(args)[i];
      InvokeMethodLazy(ts[0].expr, m, Exprs(ts[1..]))
  }

  function PatternBack(p: PatternNode, ts: seq<Tree>): ArmPattern
    requires Alike(PatternNodeRefs(p), ts)
  {
    match p
    case WildCardNode => WildCard
    case AsNode(name, _) => As(name, ts[0].pattern)
    case ConstructorNode(name, _) => Constructor(name, Patterns(ts))
    case TupleNode(_) => TupleConstructor(Patterns(ts))
    case ListPatternNode(_) => ListConstructor(Patterns(ts))
    case RecordPatternNode(fs) => RecordConstructor(Named(fs, Patterns(ts)))
    case LiteralNode(_) => LiteralPattern(ts[0].expr)
  }

  /** The tree behind a reference. An expression without a type gets the unknown one. */
  function Rebuild(s: Store, r: Ref): (t: Tree)
    requires hide Alike, Bound, ExprOk, KindBack, KindRefs, LiteralsOk, PatternBack, PatternNodeRefs, PatternsOk,
                  Rebuild;
             WellFounded(s) && Inside(s, r)
    ensures t.ExprTree? <==> r.ExprRef?
    decreases Rank(s, r), SubRank(s, r), 1
  {
    hide KindRefs, PatternNodeRefs, KindBack, PatternBack;
    assert forall c :: c in RefsAt(s, r) ==> Inside(s, c) && Before(s, c, r) by {
      forall c | c in RefsAt(s, r) ensures Inside(s, c) && Before(s, c, r) {
        RefsBefore(s, r, c);
      }
    }
    var ts := RebuildAll(s, r, RefsAt(s, r));
    match r
    case ExprRef(i) => ExprTree(Expr(KindBack(s.exprs[i].kind, ts), if i in s.types then s.types[i] else UNKNOWN, s.exprs[i].note))
    case PatternRef(j) => PatternTree(PatternBack(s.patterns[j], ts))
  }

  function RebuildAll(s: Store, r: Ref, rs: seq<Ref>): (ts: seq<Tree>)
    requires hide Bound, ExprOk, LiteralsOk, PatternsOk, Rebuild;
             WellFounded(s) && Inside(s, r) && forall c :: c in rs ==> Inside(s, c) && Before(s, c, r)
    ensures Alike(rs, ts)
    decreases Rank(s, r), SubRank(s, r), 0, |rs|
  {
    if rs == [] then [] else
    assert rs[0] in rs && Before(s, rs[0], r);
    [Rebuild(s, rs[0])] + RebuildAll(s, r, rs[1..])
  }

  // ===== Lowering a tree into an arena and rebuilding it gives back the tree, and leaves what was in the arena as it
  // was.

  // ---------- nodes refer to what they were made of ----------

  function RefOf(t: Tree, id: nat): Ref { if t.ExprTree? then ExprRef(id) else PatternRef(id) }

  function Refs(ts: seq<Tree>, ids: seq<nat>): (r: seq<Ref>)
    requires |ts| == |ids|
    ensures |r| == |ts| && forall i :: 0 <= i < |ts| ==> r[i] == RefOf(ts[i], ids[i])
  {
    seq(|ts|, i requires 0 <= i < |ts| => RefOf(ts[i], ids[i]))
  }

  lemma ArmRefsOf(arms: seq<MatchArm>, ids: seq<nat>)
    requires |ids| == 2 * |arms|
    ensures ArmRefs(ArmIds(arms, ids)) == Refs(ArmTrees(arms), ids)
  {
    hide Refs;
    if arms != [] {
      ArmRefsOf(arms[1..], ids[2..]);
      var ts := ArmTrees(arms);
      assert ArmIds(arms, ids)[1..] == ArmIds(arms[1..], ids[2..]);
      assert ts[2..] == ArmTrees(arms[1..]);
      assert Refs(ts, ids) == [RefOf(ts[0], ids[0]), RefOf(ts[1], ids[1])] + Refs(ts[2..], ids[2..]);
    }
  }

  lemma CallRefsOf(ct: CallType, ids: seq<nat>)
    requires hide *; |ids| >= |CallTrees(ct)|
    ensures CallRefs(CallIds(ct, ids)) == Refs(CallTrees(ct), ids[..|CallTrees(ct)|])
  {
  }

  lemma RefsAppend(a: seq<Tree>, b: seq<Tree>, ids: seq<nat>)
    requires |a| + |b| == |ids|
    ensures Refs(a + b, ids) == Refs(a, ids[..|a|]) + Refs(b, ids[|a|..])
  {
  }

  /** Kinds with a fixed number of parts. */
  predicate Fixed(k: Kind) {
    k.Atom? || k.Unary? || k.Binary? || k.Let? || k.Cond? || k.SelectIndex? || k.Comprehension? || k.Reduce?
  }

  lemma FixedRefsOf(k: Kind, ids: seq<nat>)
    requires hide *; Fixed(k) && |ids| == |BelowExpr(k)|
    ensures KindRefs(KindIds(k, ids)) == Refs(BelowExpr(k), ids)
  {
    hide ArmIds, ArmRefs, ArmTrees, CallIds, CallRefs, CallTrees, Trees, FieldTrees, FieldIds, OptionTree, OptionId,
         OptionRef;
  }

  lemma SequenceRefsOf(k: Kind, ids: seq<nat>)
    requires hide *; (k.Record? || k.ListOf? || k.Block?) && |ids| == |BelowExpr(k)|
    ensures KindRefs(KindIds(k, ids)) == Refs(BelowExpr(k), ids)
  {
    hide ArmIds, ArmRefs, ArmTrees, CallIds, CallRefs, CallTrees;
  }

  lemma KindRefsOf(k: Kind, ids: seq<nat>)
    requires hide *; |ids| == |BelowExpr(k)|
    ensures KindRefs(KindIds(k, ids)) == Refs(BelowExpr(k), ids)
  {
    hide KindRefs, KindIds, BelowExpr;
    if Fixed(k) {
      FixedRefsOf(k, ids);
    } else if k.Record? || k.ListOf? || k.Block? {
      SequenceRefsOf(k, ids);
    } else {
      AppendedRefsOf(k, ids);
    }
  }

  lemma AppendedRefsOf(k: Kind, ids: seq<nat>)
    requires hide *; (k.PatternMatch? || k.Call? || k.Range? || k.InvokeMethodLazy?) && |ids| == |BelowExpr(k)|
    ensures KindRefs(KindIds(k, ids)) == Refs(BelowExpr(k), ids)
  {
    hide ArmIds, ArmRefs, ArmTrees, CallIds, CallRefs, CallTrees, FieldIds, FieldTrees, Refs, IdsOf, ExprRefs;
    if k.PatternMatch? {
      ArmRefsOf(k.arms, ids[1..]);
      RefsAppend([ExprTree(k.scrutinee)], ArmTrees(k.arms), ids);
      assert Refs([ExprTree(k.scrutinee)], ids[..1]) == [ExprRef(ids[0])];
    } else if k.Call? {
      CallRefsOf(k.callType, ids);
      RefsAppend(CallTrees(k.callType), Trees(k.args), ids);
      assert Refs(Trees(k.args), ids[|CallTrees(k.callType)|..]) == ExprRefs(ids[|CallTrees(k.callType)|..]);
    } else if k.Range? {
      RangeRefsOf(k, ids);
    } else {
      LazyRefsOf(k, ids);
    }
  }

  lemma LazyRefsOf(k: Kind, ids: seq<nat>)
    requires hide *; k.InvokeMethodLazy? && |ids| == |BelowExpr(k)|
    ensures KindRefs(KindIds(k, ids)) == Refs(BelowExpr(k), ids)
  {
    hide ArmIds, ArmRefs, ArmTrees, CallIds, CallRefs, CallTrees, FieldIds, FieldTrees;
    RefsAppend([ExprTree(k.receiver)], Trees(k.args), ids);
    assert Refs([ExprTree(k.receiver)], ids[..1]) == [ExprRef(ids[0])];
    assert Refs(Trees(k.args), ids[1..]) == ExprRefs(ids[1..]);
  }

  lemma RangeRefsOf(k: Kind, ids: seq<nat>)
    requires hide *; k.Range? && |ids| == |BelowExpr(k)|
    ensures KindRefs(KindIds(k, ids)) == Refs(BelowExpr(k), ids)
  {
    hide ArmIds, ArmRefs, ArmTrees, CallIds, CallRefs, CallTrees, FieldIds, FieldTrees;
    RefsAppend([ExprTree(k.from)], OptionTree(k.to), ids);
  }

  lemma PatternRefsOf(p: ArmPattern, ids: seq<nat>)
    requires hide *; |ids| == |BelowPattern(p)|
    ensures PatternNodeRefs(PatternIds(p, ids)) == Refs(BelowPattern(p), ids)
  {
  }

  lemma RefsAlike(ts: seq<Tree>, ids: seq<nat>)
    requires |ts| == |ids|
    ensures Alike(Refs(ts, ids), ts)
  {
  }

  // ---------- a node and its parts make the tree again ----------

  lemma ArmsBack(arms: seq<MatchArm>, ids: seq<nat>)
    requires |ids| == 2 * |arms|
    ensures Alike(ArmRefs(ArmIds(arms, ids)), ArmTrees(arms)) && Arms(ArmIds(arms, ids), ArmTrees(arms)) == arms
  {
    ArmRefsOf(arms, ids);
    if arms != [] {
      ArmsBack(arms[1..], ids[2..]);
      assert ArmIds(arms, ids)[1..] == ArmIds(arms[1..], ids[2..]);
      assert ArmTrees(arms)[2..] == ArmTrees(arms[1..]);
    }
  }

  lemma CallsBack(ct: CallType, args: seq<Expr>, ids: seq<nat>)
    requires hide *; |ids| >= |CallTrees(ct)|
    ensures |CallTrees(ct) + Trees(args)| >= |CallRefs(CallIds(ct, ids))| && AllExprs(CallTrees(ct) + Trees(args))
    ensures CallBack(CallIds(ct, ids), CallTrees(ct) + Trees(args)) == ct
  {
    assert AllExprs(Trees(args)) by {
      forall t | t in Trees(args) ensures t.ExprTree? {
        var i :| 0 <= i < |args| && Trees(args)[i] == t;
      }
    }
  }

  lemma FixedBack(k: Kind, ids: seq<nat>)
    requires hide *; Fixed(k) && |ids| == |BelowExpr(k)| && Alike(KindRefs(KindIds(k, ids)), BelowExpr(k))
    ensures KindBack(KindIds(k, ids), BelowExpr(k)) == k
  {
    hide ArmIds, ArmRefs, ArmTrees, CallIds, CallRefs, CallTrees, Arms, CallBack, Trees, FieldTrees, FieldIds,
         OptionTree, OptionId, OptionRef, Alike, Exprs, IdsOf;
  }

  lemma KindsBack(k: Kind, ids: seq<nat>)
    requires hide *; |ids| == |BelowExpr(k)|
    ensures Alike(KindRefs(KindIds(k, ids)), BelowExpr(k)) && KindBack(KindIds(k, ids), BelowExpr(k)) == k
  {
    hide KindRefs, KindIds, KindBack, BelowExpr, Alike;
    KindRefsOf(k, ids);
    RefsAlike(BelowExpr(k), ids);
    if Fixed(k) {
      FixedBack(k, ids);
    } else {
      ListsBack(k, ids);
    }
  }

  lemma ListsBack(k: Kind, ids: seq<nat>)
    requires hide *; !Fixed(k) && |ids| == |BelowExpr(k)| && Alike(KindRefs(KindIds(k, ids)), BelowExpr(k))
    ensures KindBack(KindIds(k, ids), BelowExpr(k)) == k
  {
    hide ArmIds, ArmRefs, ArmTrees, CallIds, CallRefs, CallTrees, Arms, CallBack, Alike, Exprs;
    match k {
      case PatternMatch(p, arms) =>
        ArmsBack(arms, ids[1..]);
        assert ([ExprTree(p)] + ArmTrees(arms))[1..] == ArmTrees(arms);
      case Call(ct, args) =>
        CallsBack(ct, args, ids);
        CallRefsOf(ct, ids);
        assert (CallTrees(ct) + Trees(args))[|CallTrees(ct)|..] == Trees(args);
      case Range(f, t, _) => assert ([ExprTree(f)] + OptionTree(t))[1..] == OptionTree(t);
      case InvokeMethodLazy(r, _, args) => assert ([ExprTree(r)] + Trees(args))[1..] == Trees(args);
      case _ =>
    }
  }

  lemma PatternsBack(p: ArmPattern, ids: seq<nat>)
    requires hide *; |ids| == |BelowPattern(p)|
    ensures Alike(PatternNodeRefs(PatternIds(p, ids)), BelowPattern(p)) && PatternBack(PatternIds(p, ids), BelowPattern(p)) == p
  {
    PatternRefsOf(p, ids);
    RefsAlike(BelowPattern(p), ids);
  }

  // ---------- larger arenas ----------

  ghost predicate Extends(s: Store, n: Store) {
    && s.exprs <= n.exprs && s.patterns <= n.patterns
    && forall i: nat :: i < |s.exprs| ==> (i in s.types <==> i in n.types) && (i in s.types ==> s.types[i] == n.types[i])
  }

  lemma ExtendsOn(a: Store, b: Store, c: Store)
    requires Extends(a, b) && Extends(b, c)
    ensures Extends(a, c)
  {
  }

  lemma {:induction false} BoundExtends(ps: seq<PatternNode>, qs: seq<PatternNode>, j: nat)
    requires hide *; PatternsOk(ps) && PatternsOk(qs) && ps <= qs && j < |ps|
    ensures Bound(qs, j) == Bound(ps, j)
    decreases j, 1
  {
    hide PatternNodeRefs;
    BoundAllExtends(ps, qs, j, PatternNodeRefs(ps[j]));
  }

  lemma {:induction false} BoundAllExtends(ps: seq<PatternNode>, qs: seq<PatternNode>, j: nat, rs: seq<Ref>)
    requires hide *; PatternsOk(ps) && PatternsOk(qs) && ps <= qs && j < |ps|
    requires forall r :: r in rs && r.PatternRef? ==> r.id < j
    ensures BoundAll(qs, j, rs) == BoundAll(ps, j, rs)
    decreases j, 0, |rs|
  {
    hide PatternNodeRefs;
    if rs != [] {
      if rs[0].PatternRef? {
        BoundExtends(ps, qs, rs[0].id);
      }
      BoundAllExtends(ps, qs, j, rs[1..]);
    }
  }

  lemma {:induction false} BoundBelow(s: Store, j: nat)
    requires hide *; PatternsOk(s.patterns) && LiteralsOk(s) && j < |s.patterns|
    ensures Bound(s.patterns, j) <= |s.exprs|
    decreases j, 1
  {
    hide PatternNodeRefs;
    BoundAllBelow(s, j, PatternNodeRefs(s.patterns[j]));
  }

  lemma {:induction false} BoundAllBelow(s: Store, j: nat, rs: seq<Ref>)
    requires hide *; PatternsOk(s.patterns) && LiteralsOk(s) && j < |s.patterns|
    requires forall r :: r in rs && r.PatternRef? ==> r.id < j
    requires forall r :: r in rs && r.ExprRef? ==> r.id < |s.exprs|
    ensures BoundAll(s.patterns, j, rs) <= |s.exprs|
    decreases j, 0, |rs|
  {
    hide PatternNodeRefs, LiteralsOk, PatternsOk;
    if rs != [] {
      if rs[0].PatternRef? {
        BoundBelow(s, rs[0].id);
      }
      BoundAllBelow(s, j, rs[1..]);
    }
  }

  lemma SameRank(s: Store, n: Store, r: Ref)
    requires hide *; WellFounded(s) && WellFounded(n) && Extends(s, n) && Inside(s, r)
    ensures Inside(n, r) && Rank(n, r) == Rank(s, r) && RefsAt(n, r) == RefsAt(s, r)
  {
    hide KindRefs, PatternNodeRefs;
    if r.PatternRef? {
      BoundExtends(s.patterns, n.patterns, r.id);
    }
  }

  lemma {:induction false} StillBefore(s: Store, n: Store, c: Ref, r: Ref)
    requires hide *; WellFounded(s) && WellFounded(n) && Extends(s, n) && Inside(s, r) && c in RefsAt(s, r)
    ensures Inside(s, c) && Before(s, c, r) && Inside(n, r) && Inside(n, c) && Before(n, c, r)
  {
    hide KindRefs, PatternNodeRefs, WellFounded, Rank, Extends, SubRank, Before;
    RefsBefore(s, r, c);
    SameRank(s, n, r);
    SameRank(s, n, c);
    RefsBefore(n, r, c);
  }

  /** What was in the arena is rebuilt as before. */
  lemma {:induction false} RebuildExtends(s: Store, n: Store, r: Ref)
    requires hide *; WellFounded(s) && WellFounded(n) && Extends(s, n) && Inside(s, r)
    ensures Inside(n, r) && Rebuild(n, r) == Rebuild(s, r)
    decreases Rank(s, r), SubRank(s, r), 1
  {
    hide KindRefs, PatternNodeRefs, WellFounded, Rank, KindBack, PatternBack, Before, SubRank;
    SameRank(s, n, r);
    forall c | c in RefsAt(s, r) ensures Inside(s, c) && Before(s, c, r) && Inside(n, c) && Before(n, c, r) {
      StillBefore(s, n, c, r);
    }
    RebuildAllExtends(s, n, r, RefsAt(s, r));
  }

  lemma {:induction false} RebuildAllExtends(s: Store, n: Store, r: Ref, rs: seq<Ref>)
    requires hide *; WellFounded(s) && WellFounded(n) && Extends(s, n) && Inside(s, r) && Inside(n, r)
    requires forall c :: c in rs ==> Inside(s, c) && Before(s, c, r) && Inside(n, c) && Before(n, c, r)
    ensures RebuildAll(n, r, rs) == RebuildAll(s, r, rs)
    decreases Rank(s, r), SubRank(s, r), 0, |rs|
  {
    hide WellFounded, Extends, Inside, Rank, Rebuild, SubRank;
    if rs != [] {
      assert rs[0] in rs && Before(s, rs[0], r);
      RebuildExtends(s, n, rs[0]);
      RebuildAllExtends(s, n, r, rs[1..]);
    }
  }

  // ---------- allocation ----------

  /** The indices lead to nodes that rebuild the trees. */
  ghost predicate Stands(s: Store, t: Tree, id: nat)
    requires hide *; WellFounded(s)
  {
    Inside(s, RefOf(t, id)) && Rebuild(s, RefOf(t, id)) == t
  }

  ghost predicate StandAll(s: Store, ts: seq<Tree>, ids: seq<nat>)
    requires hide *; WellFounded(s)
  {
    |ids| == |ts| && forall k :: 0 <= k < |ts| ==> Stands(s, ts[k], ids[k])
  }

  lemma {:induction false} StandsExtends(s: Store, n: Store, t: Tree, id: nat)
    requires hide *; WellFounded(s) && WellFounded(n) && Extends(s, n) && Stands(s, t, id)
    ensures Stands(n, t, id)
  {
    hide WellFounded, Extends, Rebuild;
    RebuildExtends(s, n, RefOf(t, id));
  }

  /** References that stand are inside. */
  lemma RefsInside(s: Store, ts: seq<Tree>, ids: seq<nat>)
    requires hide ExprOk, LiteralsOk, PatternsOk, Stands; WellFounded(s) && StandAll(s, ts, ids)
    ensures forall c :: c in Refs(ts, ids) ==> Inside(s, c)
  {
    hide WellFounded, Rebuild, Inside;
    forall c | c in Refs(ts, ids) ensures Inside(s, c) {
      var k :| 0 <= k < |ts| && Refs(ts, ids)[k] == c;
      assert Stands(s, ts[k], ids[k]);
    }
  }

  lemma AllocExprKeeps(s: Store, e: Expr, ids: seq<nat>)
    requires hide Stands, Alloc, WellFounded, BelowExpr, Extends; WellFounded(s) && StandAll(s, BelowExpr(e.kind), ids)
    ensures var n := Alloc(ExprTree(e), s, ids).0; WellFounded(n) && Extends(s, n)
  {
    hide KindRefs, PatternNodeRefs, KindIds, BelowExpr, StandAll, Bound;
    var ts := BelowExpr(e.kind);
    StandLengths(s, ts, ids);
    RefsInside(s, ts, ids);
    KindRefsOf(e.kind, ids);
    var n := Alloc(ExprTree(e), s, ids).0;
    forall r | r in Refs(ts, ids) && r.PatternRef? ensures Bound(s.patterns, r.id) <= |s.exprs| {
      BoundBelow(s, r.id);
    }
    forall i | 0 <= i < |n.exprs| ensures ExprOk(n, i) {
      if i < |s.exprs| {
        assert ExprOk(s, i);
      }
    }
  }

  lemma StandLengths(s: Store, ts: seq<Tree>, ids: seq<nat>)
    requires hide *; WellFounded(s) && StandAll(s, ts, ids)
    ensures |ids| == |ts|
  {
    hide Stands, WellFounded;
  }

  lemma AllocPatternKeeps(s: Store, p: ArmPattern, ids: seq<nat>)
    requires hide Stands, Alloc, WellFounded, BelowPattern, Extends; WellFounded(s) && StandAll(s, BelowPattern(p), ids)
    ensures var n := Alloc(PatternTree(p), s, ids).0; WellFounded(n) && Extends(s, n)
  {
    hide KindRefs, PatternNodeRefs, PatternIds, BelowPattern, StandAll, Bound, BelowExpr, CallIds, KindIds;
    var ts := BelowPattern(p);
    StandLengths(s, ts, ids);
    RefsInside(s, ts, ids);
    PatternRefsOf(p, ids);
    var n := Alloc(PatternTree(p), s, ids).0;
    assert PatternsOk(n.patterns) && LiteralsOk(n);
    forall i | 0 <= i < |n.exprs| ensures ExprOk(n, i) {
      assert ExprOk(s, i);
      forall r | r in KindRefs(s.exprs[i].kind) && r.PatternRef? ensures Bound(n.patterns, r.id) == Bound(s.patterns, r.id) {
        BoundExtends(s.patterns, n.patterns, r.id);
      }
    }
  }

  /** Nodes that stand for the trees rebuild them. */
  lemma {:induction false} RebuildStanding(s: Store, r: Ref, ts: seq<Tree>, ids: seq<nat>)
    requires hide Alike, ExprOk, LiteralsOk, PatternsOk, Rank, Rebuild, Stands;
             WellFounded(s) && Inside(s, r) && StandAll(s, ts, ids)
    requires forall c :: c in Refs(ts, ids) ==> Inside(s, c) && Before(s, c, r)
    ensures RebuildAll(s, r, Refs(ts, ids)) == ts
    decreases |ts|
  {
    hide WellFounded, Inside, Before, Rebuild;
    var rs := Refs(ts, ids);
    if ts == [] {
      assert rs == [];
    } else {
      assert Stands(s, ts[0], ids[0]) && rs[0] in rs;
      assert rs[1..] == Refs(ts[1..], ids[1..]);
      assert StandAll(s, ts[1..], ids[1..]) by {
        forall k | 0 <= k < |ts[1..]| ensures Stands(s, ts[1..][k], ids[1..][k]) {
          assert Stands(s, ts[k + 1], ids[k + 1]);
        }
      }
      RebuildStanding(s, r, ts[1..], ids[1..]);
    }
  }

  lemma {:induction false} StandAllExtends(s: Store, n: Store, ts: seq<Tree>, ids: seq<nat>)
    requires hide *; WellFounded(s) && WellFounded(n) && Extends(s, n) && StandAll(s, ts, ids)
    ensures StandAll(n, ts, ids)
  {
    hide WellFounded, Extends, Stands;
    forall k | 0 <= k < |ts| ensures Stands(n, ts[k], ids[k]) {
      StandsExtends(s, n, ts[k], ids[k]);
    }
  }

  ghost predicate NewTyped(s: Store, n: Store) { forall i: nat :: |s.exprs| <= i < |n.exprs| ==> i in n.types }

  lemma AllocKeeps(s: Store, t: Tree, ids: seq<nat>)
    requires hide *; WellFounded(s) && StandAll(s, Below(t), ids)
    ensures |ids| == |Below(t)|
    ensures var n := Alloc(t, s, ids).0; WellFounded(n) && Extends(s, n) && NewTyped(s, n)
  {
    hide WellFounded, StandAll, Extends, BelowExpr, BelowPattern, KindIds, PatternIds;
    StandLengths(s, Below(t), ids);
    match t {
      case ExprTree(e) => AllocExprKeeps(s, e, ids);
      case PatternTree(p) => AllocPatternKeeps(s, p, ids);
    }
  }

  lemma AllocRefs(s: Store, t: Tree, ids: seq<nat>)
    requires hide *; |ids| == |Below(t)|
    ensures var (n, id) := Alloc(t, s, ids); Inside(n, RefOf(t, id)) && RefsAt(n, RefOf(t, id)) == Refs(Below(t), ids)
  {
    hide KindRefs, PatternNodeRefs, BelowExpr, BelowPattern, KindIds, PatternIds;
    match t {
      case ExprTree(e) => KindRefsOf(e.kind, ids);
      case PatternTree(p) => PatternRefsOf(p, ids);
    }
  }

  /** A new node over nodes that stand for the parts of a tree stands for the tree. */
  lemma AllocStands(s: Store, t: Tree, ids: seq<nat>)
    requires hide *; WellFounded(s) && StandAll(s, Below(t), ids)
    ensures |ids| == |Below(t)| && WellFounded(Alloc(t, s, ids).0)
    ensures Stands(Alloc(t, s, ids).0, t, Alloc(t, s, ids).1)
  {
    hide WellFounded, StandAll, Extends, KindRefs, PatternNodeRefs, BelowExpr, BelowPattern, KindIds, PatternIds,
         Before, KindBack, PatternBack;
    AllocKeeps(s, t, ids);
    AllocRefs(s, t, ids);
    var (n, id) := Alloc(t, s, ids);
    var r := RefOf(t, id);
    StandAllExtends(s, n, Below(t), ids);
    forall c | c in RefsAt(n, r) ensures Inside(n, c) && Before(n, c, r) {
      RefsBefore(n, r, c);
    }
    RebuildStanding(n, r, Below(t), ids);
    match t {
      case ExprTree(e) => KindsBack(e.kind, ids);
      case PatternTree(p) => PatternsBack(p, ids);
    }
  }

  // ---------- the theorems ----------

  /** Lowering into an arena gives a node that rebuilds the tree, with its types, spans and annotations; it leaves the nodes
      and types that were there, and gives every new expression a type. */
  lemma {:induction false} LowerStands(t: Tree, s: Store)
    requires hide *; WellFounded(s)
    ensures var (n, id) := Lower(t, s); WellFounded(n) && Extends(s, n) && NewTyped(s, n) && Stands(n, t, id)
    decreases Nodes(t), 0
  {
    hide WellFounded, Extends, Stands, StandAll, Alloc, Below, Nodes, AllNodes;
    BelowNodes(t);
    LowerAllStand(Below(t), s);
    var below := LowerAll(Below(t), s);
    AllocKeeps(below.store, t, below.ids);
    AllocStands(below.store, t, below.ids);
    var n := Alloc(t, below.store, below.ids).0;
    ExtendsOn(s, below.store, n);
    TypedOn(s, below.store, n);
  }

  lemma TypedOn(a: Store, b: Store, c: Store)
    requires Extends(a, b) && Extends(b, c) && NewTyped(a, b) && NewTyped(b, c)
    ensures NewTyped(a, c)
  {
  }

  lemma {:induction false} LowerAllStand(ts: seq<Tree>, s: Store)
    requires hide *; WellFounded(s)
    ensures var l := LowerAll(ts, s);
            WellFounded(l.store) && Extends(s, l.store) && NewTyped(s, l.store) && StandAll(l.store, ts, l.ids)
    decreases AllNodes(ts), 1
  {
    hide WellFounded, Stands, Lower, Nodes;
    if ts != [] {
      LowerStands(ts[0], s);
      var (s1, id) := Lower(ts[0], s);
      LowerAllStand(ts[1..], s1);
      var rest := LowerAll(ts[1..], s1);
      StandsExtends(s1, rest.store, ts[0], id);
      forall k | 0 <= k < |ts| ensures Stands(rest.store, ts[k], ([id] + rest.ids)[k]) {
        assert k > 0 ==> ts[k] == ts[1..][k - 1];
      }
    }
  }

  lemma NothingWellFounded()
    ensures WellFounded(NO_NODES)
  {
  }

  /** There and back. */
  lemma RoundTrip(e: Expr)
    ensures hide Rebuild, Lower, WellFounded; var (s, root) := Lower(ExprTree(e), NO_NODES);
            WellFounded(s) && root < |s.exprs| && Rebuild(s, ExprRef(root)) == ExprTree(e)
  {
    hide WellFounded, Lower, Rebuild;
    NothingWellFounded();
    LowerStands(ExprTree(e), NO_NODES);
  }

  /** Lowering more trees changes none of the rebuilt ones. */
  lemma LowerLeaves(t: Tree, s: Store, r: Ref)
    requires hide *; WellFounded(s) && Inside(s, r)
    ensures var n := Lower(t, s).0; WellFounded(n) && Inside(n, r) && Rebuild(n, r) == Rebuild(s, r)
  {
    hide WellFounded, Lower, Rebuild, Extends;
    LowerStands(t, s);
    RebuildExtends(s, Lower(t, s).0, r);
  }

  // ===== The arena as the compiler uses it: tables that are appended to in place.

  class TypeTable {
    var types: map<nat, InferredType>

    constructor ()
      ensures types == map[]
    {
      types := map[];
    }

    method Set(id: nat, ty: InferredType)
      modifies this
      ensures types == old(types)[id := ty]
    {
      types := types[id := ty];
    }
  }

  class ExprArena {
    var exprs: seq<ExprNode>
    var patterns: seq<PatternNode>

    constructor ()
      ensures exprs == [] && patterns == []
    {
      exprs, patterns := [], [];
    }

    method AllocExpr(node: ExprNode) returns (id: nat)
      modifies this
      ensures id == |old(exprs)| && exprs == old(exprs) + [node] && patterns == old(patterns)
    {
      id := |exprs|;
      exprs := exprs + [node];
    }

    method AllocPattern(node: PatternNode) returns (id: nat)
      modifies this
      ensures id == |old(patterns)| && patterns == old(patterns) + [node] && exprs == old(exprs)
    {
      id := |patterns|;
      patterns := patterns + [node];
    }
  }

  function StoreOf(arena: ExprArena, types: TypeTable): Store
    reads arena, types
  {
    Store(arena.exprs, arena.patterns, types.types)
  }

  method LowerTree(t: Tree, arena: ExprArena, types: TypeTable) returns (id: nat)
    modifies arena, types
    ensures hide *; (StoreOf(arena, types), id) == Lower(t, old(StoreOf(arena, types)))
    decreases Nodes(t), 0
  {
    hide Nodes, AllNodes, Below, KindIds, PatternIds;
    BelowNodes(t);
    var ids := LowerTrees(Below(t), arena, types);
    AllocAs(t, StoreOf(arena, types), ids);
    match t {
      case ExprTree(e) =>
        id := arena.AllocExpr(ExprNode(KindIds(e.kind, ids), e.note));
        types.Set(id, e.ty);
      case PatternTree(p) => id := arena.AllocPattern(PatternIds(p, ids));
    }
  }

  lemma AllocAs(t: Tree, s: Store, ids: seq<nat>)
    requires hide *; |ids| == |Below(t)|
    ensures t.ExprTree? ==> |ids| == |BelowExpr(t.expr.kind)|
    ensures t.PatternTree? ==> |ids| == |BelowPattern(t.pattern)|
  {
  }

  method LowerTrees(ts: seq<Tree>, arena: ExprArena, types: TypeTable) returns (ids: seq<nat>)
    modifies arena, types
    ensures hide *; Lowered(StoreOf(arena, types), ids) == LowerAll(ts, old(StoreOf(arena, types)))
    decreases AllNodes(ts), 1
  {
    hide Nodes, Lower;
    if ts == [] {
      ids := [];
    } else {
      var id := LowerTree(ts[0], arena, types);
      ids := LowerTrees(ts[1..], arena, types);
      ids := [id] + ids;
    }
  }

  /** Lowering into an arena that is in use: everything that was in it is rebuilt as before. */
  method LowerInto(arena: ExprArena, types: TypeTable, e: Expr) returns (id: nat)
    requires hide ExprOk, LiteralsOk, PatternsOk, Rank, Rebuild; WellFounded(StoreOf(arena, types))
    modifies arena, types
    ensures WellFounded(StoreOf(arena, types)) && Extends(old(StoreOf(arena, types)), StoreOf(arena, types))
    ensures |old(arena.exprs)| <= id < |arena.exprs| && Rebuild(StoreOf(arena, types), ExprRef(id)) == ExprTree(e)
    ensures forall r :: Inside(old(StoreOf(arena, types)), r) ==>
              Inside(StoreOf(arena, types), r) && Rebuild(StoreOf(arena, types), r) == Rebuild(old(StoreOf(arena, types)), r)
    ensures forall i: nat :: |old(arena.exprs)| <= i < |arena.exprs| ==> i in types.types
  {
    hide WellFounded, Lower, Rebuild, Extends;
    ghost var s := StoreOf(arena, types);
    LowerStands(ExprTree(e), s);
    LowerFresh(e, s);
    forall r | Inside(s, r)
      ensures Inside(Lower(ExprTree(e), s).0, r) && Rebuild(Lower(ExprTree(e), s).0, r) == Rebuild(s, r)
    {
      LowerLeaves(ExprTree(e), s, r);
    }
    id := LowerTree(ExprTree(e), arena, types);
  }

  lemma LowerFresh(e: Expr, s: Store)
    requires WellFounded(s)
    ensures Lower(ExprTree(e), s).1 >= |s.exprs|
  {
    hide WellFounded, LowerAll, Nodes, KindIds, PatternIds, StandAll;
    LowerAllStand(Below(ExprTree(e)), s);
    BelowNodes(ExprTree(e));
  }

  method LowerExpr(e: Expr) returns (arena: ExprArena, types: TypeTable, root: nat)
    ensures hide Rebuild, WellFounded; fresh(arena) && fresh(types) && WellFounded(StoreOf(arena, types))
    ensures root < |arena.exprs| && Rebuild(StoreOf(arena, types), ExprRef(root)) == ExprTree(e)
    ensures forall i: nat :: i < |arena.exprs| ==> i in types.types
  {
    hide WellFounded, Rebuild, Extends;
    arena := new ExprArena();
    types := new TypeTable();
    NothingWellFounded();
    root := LowerInto(arena, types, e);
  }
}
