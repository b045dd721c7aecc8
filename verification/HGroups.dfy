/**
  Group totals of the H arena (h_arena.rs): a backend applies its staged net deltas to
  the shared `effective_qty` cells at PRE_COMMIT, each by a compare-and-swap loop that
  refuses to go below zero, and takes them back if the transaction aborts later. Steps
  of any number of backends interleave freely; allowing inserts during another
  backend's first pass is more than the table lock permits.
*/
module HGroups {
  import opened Int64

  type Group = nat
  datatype Item = Item(group: Group, delta: int)

  datatype Pc =
    | Open
    | Applying(todo: map<Group, int>, applied: seq<Item>)
    | Loaded(todo: map<Group, int>, applied: seq<Item>, group: Group, cur: int)
    | Reversing(left: seq<Item>)

  datatype Backend = Backend(pending: map<Group, int>, pc: Pc)

  /** `staged`, `committed` and `reversed` are history: every delta staged, the deltas of
      committed transactions, and those taken back. */
  datatype State = State(
    eff: map<Group, int>, backends: seq<Backend>, cap: nat,
    staged: seq<Item>, committed: seq<Item>, reversed: seq<Item>)

  datatype Event =
    | Stage(b: nat, group: Group, delta: int)
    | PreCommit(b: nat)
    | Load(b: nat, group: Group)
    | Swap(b: nat)
    | Insert(b: nat, group: Group)
    | Commit(b: nat)
    | Abort(b: nat)
    | Reverse(b: nat)

  function EffOf(s: State, g: Group): int {
    if g in s.eff then s.eff[g] else 0
  }

  function SetPc(s: State, b: nat, pc: Pc): State
    requires b < |s.backends|
  {
    s.(backends := s.backends[b := s.backends[b].(pc := pc)])
  }

  /** What an error or an abort leaves to do. */
  function Unwind(s: State, b: nat, applied: seq<Item>): State
    requires b < |s.backends|
  {
    s.(backends := s.backends[b := Backend(map[], Reversing(applied))])
  }

  /** `h_try_apply_check` from the loaded value: overflow and a negative result are
      errors, a lost race goes back to loading. */
  function SwapStep(s: State, b: nat, pc: Pc): State
    requires b < |s.backends| && pc.Loaded?
  {
    var g := pc.group;
    if g !in pc.todo || g !in s.eff then SetPc(s, b, Applying(pc.todo, pc.applied))
    else
      var next := pc.cur + pc.todo[g];
      if !InI64(next) || next < 0 then Unwind(s, b, pc.applied)
      else if s.eff[g] == pc.cur then
        SetPc(s, b, Applying(pc.todo - {g}, pc.applied + [Item(g, pc.todo[g])])).(eff := s.eff[g := next])
      else SetPc(s, b, Applying(pc.todo, pc.applied))
  }

  /** The exclusive pass: probe again, then insert; a negative delta on a new group and
      a full table are errors. */
  function InsertStep(s: State, b: nat, g: Group): State
    requires b < |s.backends| && s.backends[b].pc.Applying?
  {
    var pc := s.backends[b].pc;
    if g !in pc.todo then s
    else if g in s.eff then SwapStep(s, b, Loaded(pc.todo, pc.applied, g, s.eff[g]))
    else if pc.todo[g] < 0 || |s.eff| >= s.cap then Unwind(s, b, pc.applied)
    else SetPc(s, b, Applying(pc.todo - {g}, pc.applied + [Item(g, pc.todo[g])])).(eff := s.eff[g := pc.todo[g]])
  }

  function ReverseStep(s: State, b: nat, left: seq<Item>): State
    requires b < |s.backends|
  {
    if left == [] then SetPc(s, b, Open)
    else
      var it := left[0];
      var t := SetPc(s, b, Reversing(left[1..])).(reversed := s.reversed + [it]);
      if it.group in s.eff then t.(eff := s.eff[it.group := Wrap(s.eff[it.group] - it.delta)]) else t
  }

  function Next(s: State, e: Event): State {
    if e.b >= |s.backends| then s
    else
      var x := s.backends[e.b];
      match (e, x.pc)
      case (Stage(b, g, d), Open) =>
        var was := if g in x.pending then x.pending[g] else 0;
        s.(backends := s.backends[b := x.(pending := x.pending[g := Sat(was + d)])], staged := s.staged + [Item(g, d)])
      case (PreCommit(b), Open) => s.(backends := s.backends[b := Backend(map[], Applying(x.pending, []))])
      case (Load(b, g), Applying(todo, applied)) =>
        if g in todo && g in s.eff then SetPc(s, b, Loaded(todo, applied, g, s.eff[g])) else s
      case (Swap(b), Loaded(_, _, _, _)) => SwapStep(s, b, x.pc)
      case (Insert(b, g), Applying(_, _)) => InsertStep(s, b, g)
      case (Commit(b), Applying(todo, applied)) =>
        if todo == map[] then SetPc(s, b, Open).(committed := s.committed + applied) else s
      case (Abort(b), Open) => Unwind(s, b, [])
      case (Abort(b), Applying(_, applied)) => Unwind(s, b, applied)
      case (Reverse(b), Reversing(left)) => ReverseStep(s, b, left)
      case _ => s
  }

  function Run(s: State, es: seq<Event>): State {
    if es == [] then s else Next(Run(s, es[..|es| - 1]), es[|es| - 1])
  }

  // ---- Accounts -------------------------------------------------------------

  function Sum(items: seq<Item>, g: Group): int {
    if items == [] then 0 else Sum(items[1..], g) + if items[0].group == g then items[0].delta else 0
  }

  lemma {:induction false} SumAppend(a: seq<Item>, b: seq<Item>, g: Group)
    ensures Sum(a + b, g) == Sum(a, g) + Sum(b, g)
  {
    if a == [] {
      assert a + b == b;
    } else {
      SumAppend(a[1..], b, g);
      assert (a + b)[1..] == a[1..] + b;
    }
  }

  /** The deltas a backend has applied and neither committed nor taken back. */
  function Unresolved(pc: Pc): seq<Item> {
    match pc
    case Open => []
    case Applying(_, applied) => applied
    case Loaded(_, applied, _, _) => applied
    case Reversing(left) => left
  }

  function AllUnresolved(xs: seq<Backend>, g: Group): int {
    if xs == [] then 0 else AllUnresolved(xs[..|xs| - 1], g) + Sum(Unresolved(xs[|xs| - 1].pc), g)
  }

  lemma {:induction false} UnresolvedUpdate(xs: seq<Backend>, b: nat, y: Backend, g: Group)
    requires b < |xs|
    ensures AllUnresolved(xs[b := y], g)
         == AllUnresolved(xs, g) - Sum(Unresolved(xs[b].pc), g) + Sum(Unresolved(y.pc), g)
  {
    hide Sum, Unresolved;
    var n := |xs| - 1;
    if b == n {
      assert xs[b := y][..n] == xs[..n];
    } else {
      UnresolvedUpdate(xs[..n], b, y, g);
      assert xs[b := y][..n] == xs[..n][b := y];
    }
  }

  /** The receipts among the deltas: the total of the positive ones. */
  function Receipts(items: seq<Item>, g: Group): (n: nat) {
    if items == [] then 0 else Receipts(items[1..], g) + ReceiptOf(items[0], g)
  }

  function ReceiptOf(it: Item, g: Group): nat {
    if it.group == g && it.delta > 0 then it.delta else 0
  }

  lemma {:induction false} ReceiptsAppend(a: seq<Item>, b: seq<Item>, g: Group)
    ensures Receipts(a + b, g) == Receipts(a, g) + Receipts(b, g)
  {
    if a == [] {
      assert a + b == b;
    } else {
      ReceiptsAppend(a[1..], b, g);
      assert (a + b)[1..] == a[1..] + b;
    }
  }

  lemma OneReceipt(a: seq<Item>, it: Item, g: Group)
    ensures Receipts(a + [it], g) == Receipts(a, g) + ReceiptOf(it, g)
  {
    ReceiptsAppend(a, [it], g);
    assert [it][1..] == [];
  }

  lemma {:induction false} SumIsAtMost(items: seq<Item>, g: Group)
    ensures Sum(items, g) <= Receipts(items, g)
  {
    if items != [] {
      SumIsAtMost(items[1..], g);
    }
  }

  /** The receipt a backend has summed up for a group. */
  function ReceiptAt(m: map<Group, int>, g: Group): nat {
    if g in m && m[g] > 0 then m[g] else 0
  }

  function Todo(pc: Pc): map<Group, int> {
    if pc.Applying? || pc.Loaded? then pc.todo else map[]
  }

  /** Receipts a backend has in hand: staged, about to be applied, or unresolved. */
  function Held(x: Backend, g: Group): nat {
    ReceiptAt(x.pending, g) + ReceiptAt(Todo(x.pc), g) + Receipts(Unresolved(x.pc), g)
  }

  function AllHeld(xs: seq<Backend>, g: Group): nat {
    if xs == [] then 0 else AllHeld(xs[..|xs| - 1], g) + Held(xs[|xs| - 1], g)
  }

  lemma {:induction false} HeldUpdate(xs: seq<Backend>, b: nat, y: Backend, g: Group)
    requires b < |xs|
    ensures AllHeld(xs[b := y], g) == AllHeld(xs, g) - Held(xs[b], g) + Held(y, g)
  {
    hide Held;
    var n := |xs| - 1;
    if b == n {
      assert xs[b := y][..n] == xs[..n];
    } else {
      HeldUpdate(xs[..n], b, y, g);
      assert xs[b := y][..n] == xs[..n][b := y];
    }
  }

  lemma {:induction false} UnresolvedIsHeld(xs: seq<Backend>, g: Group)
    ensures AllUnresolved(xs, g) <= AllHeld(xs, g)
  {
    hide Sum, Receipts, ReceiptAt, Unresolved;
    if xs != [] {
      UnresolvedIsHeld(xs[..|xs| - 1], g);
      SumIsAtMost(Unresolved(xs[|xs| - 1].pc), g);
    }
  }

  function Owed(s: State, g: Group): int {
    Sum(s.committed, g) + AllUnresolved(s.backends, g)
  }

  ghost predicate Accounted(s: State, g: Group) {
    EffOf(s, g) == Wrap(Owed(s, g))
  }

  /** Where the receipts are: no receipt is anywhere that was not staged. */
  function Budget(s: State, g: Group): nat {
    Receipts(s.committed, g) + Receipts(s.reversed, g) + AllHeld(s.backends, g)
  }

  /** While the receipts staged for the group fit in 64 bits, nothing is cut. */
  ghost predicate Bounded(s: State, g: Group) {
    && Budget(s, g) <= Receipts(s.staged, g)
    && (Receipts(s.staged, g) <= I64_MAX ==>
          EffOf(s, g) == Owed(s, g) && 0 <= EffOf(s, g) + Receipts(s.reversed, g))
  }

  /** Applied deltas have a cell to be taken back from. */
  ghost predicate CellsExist(s: State) {
    forall b, i :: 0 <= b < |s.backends| && 0 <= i < |Unresolved(s.backends[b].pc)| ==>
      Unresolved(s.backends[b].pc)[i].group in s.eff
  }

  /** Staged and loaded deltas are 64-bit values. */
  ghost predicate DeltasFit(x: Backend) {
    && (forall g :: g in x.pending ==> InI64(x.pending[g]))
    && (x.pc.Applying? || x.pc.Loaded? ==> forall g :: g in x.pc.todo ==> InI64(x.pc.todo[g]))
  }

  ghost predicate Inv(s: State) {
    && CellsExist(s) && (forall b :: 0 <= b < |s.backends| ==> DeltasFit(s.backends[b]))
    && (forall g :: g in s.eff ==> InI64(s.eff[g]))
    && (forall g :: Accounted(s, g) && Bounded(s, g))
  }

  /** Steps that change one backend but neither its unresolved deltas nor the cells. */
  lemma QuietKeeps(s: State, t: State, b: nat, y: Backend)
    requires Inv(s) && b < |s.backends| && t == s.(backends := s.backends[b := y], staged := t.staged)
    requires Unresolved(y.pc) == Unresolved(s.backends[b].pc) && DeltasFit(y)
    requires forall g :: NewlyHeld(s, t, b, y, g)
    ensures Inv(t)
  {
    hide Unresolved, DeltasFit, Sum, Wrap, Receipts, Held, NewlyHeld;
    forall g
      ensures Accounted(t, g) && Bounded(t, g)
    {
      assert Accounted(s, g) && Bounded(s, g) && NewlyHeld(s, t, b, y, g);
      NewlyHeldIs(s, t, b, y, g);
      UnresolvedUpdate(s.backends, b, y, g);
      HeldUpdate(s.backends, b, y, g);
    }
  }

  /** What the backend has more in hand was staged by the step. */
  ghost predicate NewlyHeld(s: State, t: State, b: nat, y: Backend, g: Group)
    requires b < |s.backends|
  {
    && Receipts(s.staged, g) <= Receipts(t.staged, g)
    && Held(y, g) - Held(s.backends[b], g) <= Receipts(t.staged, g) - Receipts(s.staged, g)
  }

  lemma NewlyHeldIs(s: State, t: State, b: nat, y: Backend, g: Group)
    requires b < |s.backends| && NewlyHeld(s, t, b, y, g)
    ensures Receipts(s.staged, g) <= Receipts(t.staged, g)
    ensures Held(y, g) - Held(s.backends[b], g) <= Receipts(t.staged, g) - Receipts(s.staged, g)
  {
  }

  /** Steps that stage nothing and do not raise what is summed up. */
  lemma NothingNew(s: State, t: State, b: nat, y: Backend)
    requires Inv(s) && b < |s.backends| && t == s.(backends := s.backends[b := y])
    requires Unresolved(y.pc) == Unresolved(s.backends[b].pc) && DeltasFit(y)
    requires forall g :: ReceiptAt(y.pending, g) + ReceiptAt(Todo(y.pc), g)
                      <= ReceiptAt(s.backends[b].pending, g) + ReceiptAt(Todo(s.backends[b].pc), g)
    ensures Inv(t)
  {
    hide Inv, Unresolved, DeltasFit, Receipts, ReceiptAt, Todo;
    forall g
      ensures NewlyHeld(s, t, b, y, g)
    {
      assert ReceiptAt(y.pending, g) + ReceiptAt(Todo(y.pc), g)
          <= ReceiptAt(s.backends[b].pending, g) + ReceiptAt(Todo(s.backends[b].pc), g);
    }
    QuietKeeps(s, t, b, y);
  }

  lemma StageKeeps(s: State, b: nat, g: Group, d: int)
    requires Inv(s) && b < |s.backends| && s.backends[b].pc.Open?
    ensures Inv(Next(s, Stage(b, g, d)))
  {
    var t := Next(s, Stage(b, g, d));
    var x, y := s.backends[b], t.backends[b];
    assert DeltasFit(x) && DeltasFit(y);
    hide Inv, DeltasFit;
    forall h
      ensures NewlyHeld(s, t, b, y, h)
    {
      OneReceipt(s.staged, Item(g, d), h);
      hide Receipts;
    }
    QuietKeeps(s, t, b, y);
  }

  lemma OwedAfterApply(s: State, t: State, b: nat, y: Backend, it: Item, g: Group)
    requires b < |s.backends| && t.committed == s.committed && t.backends == s.backends[b := y]
    requires Unresolved(y.pc) == Unresolved(s.backends[b].pc) + [it]
    ensures Owed(t, g) == Owed(s, g) + if it.group == g then it.delta else 0
  {
    hide Unresolved, Sum, AllUnresolved;
    UnresolvedUpdate(s.backends, b, y, g);
    SumAppend(Unresolved(s.backends[b].pc), [it], g);
    SumOne(it, g);
  }

  /** The delta leaves the list of those still to apply. */
  ghost predicate Moves(x: Backend, y: Backend, it: Item) {
    && y.pending == x.pending && Unresolved(y.pc) == Unresolved(x.pc) + [it]
    && it.group in Todo(x.pc) && it.delta == Todo(x.pc)[it.group] && Todo(y.pc) == Todo(x.pc) - {it.group}
  }

  lemma BudgetAfterApply(s: State, t: State, b: nat, y: Backend, it: Item, g: Group)
    requires b < |s.backends| && t.committed == s.committed && t.reversed == s.reversed
    requires t.backends == s.backends[b := y] && Moves(s.backends[b], y, it)
    ensures Budget(t, g) == Budget(s, g)
  {
    var x := s.backends[b];
    OneReceipt(Unresolved(x.pc), it, g);
    assert Held(y, g) == Held(x, g) by {
      hide Receipts, Unresolved;
    }
    hide Receipts, Unresolved, Held, AllHeld;
    HeldUpdate(s.backends, b, y, g);
  }

  lemma ApplyAccounts(s: State, t: State, b: nat, y: Backend, it: Item, v: int, g: Group)
    requires b < |s.backends| && Accounted(s, g) && Bounded(s, g)
    requires t == s.(backends := s.backends[b := y], eff := s.eff[it.group := v])
    requires Moves(s.backends[b], y, it)
    requires v == EffOf(s, it.group) + it.delta && InI64(v) && 0 <= v
    ensures Accounted(t, g) && Bounded(t, g)
  {
    OwedAfterApply(s, t, b, y, it, g);
    BudgetAfterApply(s, t, b, y, it, g);
    hide Owed, Receipts, Wrap, Unresolved, Budget, Moves;
    if g == it.group {
      WrapAdd(Owed(s, g), it.delta);
    }
  }

  /** A delta reaches its cell. */
  lemma ApplyKeeps(s: State, t: State, b: nat, y: Backend, it: Item, v: int)
    requires Inv(s) && b < |s.backends|
    requires t == s.(backends := s.backends[b := y], eff := s.eff[it.group := v])
    requires Moves(s.backends[b], y, it) && DeltasFit(y)
    requires v == EffOf(s, it.group) + it.delta && InI64(v) && 0 <= v
    ensures Inv(t)
  {
    hide Accounted, Bounded, Unresolved, DeltasFit;
    forall g
      ensures Accounted(t, g) && Bounded(t, g)
    {
      assert Accounted(s, g) && Bounded(s, g);
      ApplyAccounts(s, t, b, y, it, v, g);
    }
    hide EffOf, Todo;
    forall c, i | 0 <= c < |t.backends| && 0 <= i < |Unresolved(t.backends[c].pc)|
      ensures Unresolved(t.backends[c].pc)[i].group in t.eff
    {
    }
  }

  lemma SumOne(it: Item, g: Group)
    ensures Sum([it], g) == if it.group == g then it.delta else 0
  {
    assert [it][1..] == [];
  }

  lemma CommitKeeps(s: State, t: State, b: nat)
    requires Inv(s) && b < |s.backends|
    requires t == SetPc(s, b, Open).(committed := s.committed + Unresolved(s.backends[b].pc))
    ensures Inv(t)
  {
    var y := s.backends[b].(pc := Open);
    assert Unresolved(y.pc) == [] && DeltasFit(s.backends[b]) && DeltasFit(y);
    hide Sum, Unresolved, Receipts, Wrap, AllUnresolved, DeltasFit, Accounted, Bounded;
    forall g
      ensures Accounted(t, g) && Bounded(t, g)
    {
      assert Accounted(s, g) && Bounded(s, g);
      CommitAccounts(s, t, b, g);
    }
  }

  lemma CommitAccounts(s: State, t: State, b: nat, g: Group)
    requires b < |s.backends| && Accounted(s, g) && Bounded(s, g)
    requires t == SetPc(s, b, Open).(committed := s.committed + Unresolved(s.backends[b].pc))
    ensures Accounted(t, g) && Bounded(t, g)
  {
    var x, y := s.backends[b], s.backends[b].(pc := Open);
    assert Unresolved(y.pc) == [] && Sum([], g) == 0 && Receipts([], g) == 0;
    assert Held(y, g) <= Held(x, g) - Receipts(Unresolved(x.pc), g);
    hide Sum, Unresolved, Receipts, Wrap, AllUnresolved, Held;
    UnresolvedUpdate(s.backends, b, y, g);
    HeldUpdate(s.backends, b, y, g);
    SumAppend(s.committed, Unresolved(x.pc), g);
    ReceiptsAppend(s.committed, Unresolved(x.pc), g);
  }

  lemma ReverseAccounts(s: State, b: nat, g: Group)
    requires b < |s.backends| && s.backends[b].pc.Reversing? && s.backends[b].pc.left != []
    requires s.backends[b].pc.left[0].group in s.eff && Accounted(s, g) && Bounded(s, g)
    ensures var t := ReverseStep(s, b, s.backends[b].pc.left); Accounted(t, g) && Bounded(t, g)
  {
    var it := s.backends[b].pc.left[0];
    var t := ReverseStep(s, b, s.backends[b].pc.left);
    OwedAfterReverse(s, b, g);
    OneReceipt(s.reversed, it, g);
    BudgetAfterReverse(s, b, g);
    OwedWithinBudget(t, g);
    hide Owed, Receipts, Wrap, Budget;
    if g == it.group {
      WrapAdd(Owed(s, g), -it.delta);
    }
  }

  lemma OwedWithinBudget(s: State, g: Group)
    ensures Owed(s, g) + Receipts(s.reversed, g) <= Budget(s, g)
  {
    hide Receipts, Sum, AllUnresolved, AllHeld;
    SumIsAtMost(s.committed, g);
    UnresolvedIsHeld(s.backends, g);
  }

  lemma BudgetAfterReverse(s: State, b: nat, g: Group)
    requires b < |s.backends| && s.backends[b].pc.Reversing? && s.backends[b].pc.left != []
    ensures var t := ReverseStep(s, b, s.backends[b].pc.left);
            t.staged == s.staged && Budget(t, g) == Budget(s, g)
  {
    var left := s.backends[b].pc.left;
    var x, y := s.backends[b], s.backends[b].(pc := Reversing(left[1..]));
    OneReceipt(s.reversed, left[0], g);
    assert Held(x, g) == Held(y, g) + ReceiptOf(left[0], g);
    hide Receipts, Held, AllHeld, Wrap;
    HeldUpdate(s.backends, b, y, g);
  }

  lemma OwedAfterReverse(s: State, b: nat, g: Group)
    requires b < |s.backends| && s.backends[b].pc.Reversing? && s.backends[b].pc.left != []
    ensures var left := s.backends[b].pc.left;
            Owed(ReverseStep(s, b, left), g) == Owed(s, g) - if left[0].group == g then left[0].delta else 0
  {
    var left := s.backends[b].pc.left;
    var it := left[0];
    UnresolvedUpdate(s.backends, b, s.backends[b].(pc := Reversing(left[1..])), g);
    assert Sum(left, g) == Sum(left[1..], g) + if it.group == g then it.delta else 0;
    hide Sum, AllUnresolved, Wrap, InI64;
  }

  lemma ReverseKeeps(s: State, b: nat)
    requires Inv(s) && b < |s.backends| && s.backends[b].pc.Reversing? && s.backends[b].pc.left != []
    ensures Inv(ReverseStep(s, b, s.backends[b].pc.left))
  {
    var left := s.backends[b].pc.left;
    var it := left[0];
    var t := ReverseStep(s, b, left);
    var y := s.backends[b].(pc := Reversing(left[1..]));
    assert Unresolved(s.backends[b].pc)[0] == it && DeltasFit(s.backends[b]) && DeltasFit(y);
    forall g
      ensures Accounted(t, g) && Bounded(t, g)
    {
      assert Accounted(s, g) && Bounded(s, g);
      ReverseAccounts(s, b, g);
    }
    hide Accounted, Bounded, Wrap, DeltasFit;
    forall c, i | 0 <= c < |t.backends| && 0 <= i < |Unresolved(t.backends[c].pc)|
      ensures Unresolved(t.backends[c].pc)[i].group in t.eff
    {
      if c == b {
        assert Unresolved(t.backends[c].pc)[i] == Unresolved(s.backends[b].pc)[i + 1];
      }
    }
  }

  lemma SwapKeeps(s: State, b: nat, pc: Pc)
    requires Inv(s) && b < |s.backends| && pc.Loaded? && Unresolved(s.backends[b].pc) == pc.applied
    requires DeltasFit(s.backends[b].(pc := pc)) && Todo(s.backends[b].pc) == pc.todo
    ensures Inv(SwapStep(s, b, pc))
  {
    var t := SwapStep(s, b, pc);
    var g := pc.group;
    hide Inv;
    if g in pc.todo && g in s.eff && InI64(pc.cur + pc.todo[g]) && 0 <= pc.cur + pc.todo[g] && s.eff[g] == pc.cur {
      ApplyKeeps(s, t, b, t.backends[b], Item(g, pc.todo[g]), t.eff[g]);
    } else {
      NothingNew(s, t, b, t.backends[b]);
    }
  }

  lemma InsertKeeps(s: State, b: nat, g: Group)
    requires Inv(s) && b < |s.backends| && s.backends[b].pc.Applying?
    ensures Inv(InsertStep(s, b, g))
  {
    assert DeltasFit(s.backends[b]);
    hide Inv;
    var pc := s.backends[b].pc;
    var t := InsertStep(s, b, g);
    if g in pc.todo {
      if g in s.eff {
        SwapKeeps(s, b, Loaded(pc.todo, pc.applied, g, s.eff[g]));
      } else if pc.todo[g] < 0 || |s.eff| >= s.cap {
        NothingNew(s, t, b, t.backends[b]);
      } else {
        ApplyKeeps(s, t, b, t.backends[b], Item(g, pc.todo[g]), pc.todo[g]);
      }
    }
  }

  lemma NextKeepsInv(s: State, e: Event)
    requires Inv(s)
    ensures Inv(Next(s, e))
  {
    if e.b < |s.backends| {
      var x := s.backends[e.b];
      assert DeltasFit(x);
      var t := Next(s, e);
      hide Inv, SwapStep, InsertStep;
      match (e, x.pc) {
        case (Swap(b), Loaded(_, _, _, _)) => SwapKeeps(s, b, x.pc);
        case (Insert(b, g), Applying(_, _)) => InsertKeeps(s, b, g);
        case (Commit(b), Applying(todo, _)) =>
          if todo == map[] {
            CommitKeeps(s, t, b);
          }
        case (Reverse(b), Reversing(left)) =>
          if left == [] {
            NothingNew(s, t, b, t.backends[b]);
          } else {
            ReverseKeeps(s, b);
          }
        case (Stage(b, g, d), Open) => StageKeeps(s, b, g, d);
        case (PreCommit(b), Open) => NothingNew(s, t, b, t.backends[b]);
        case (Load(b, g), Applying(_, _)) => NothingNew(s, t, b, t.backends[b]);
        case (Abort(b), Open) => NothingNew(s, t, b, t.backends[b]);
        case (Abort(b), Applying(_, _)) => NothingNew(s, t, b, t.backends[b]);
        case _ =>
      }
    }
  }

  lemma {:induction false} RunKeepsInv(s: State, es: seq<Event>)
    requires Inv(s)
    ensures Inv(Run(s, es))
  {
    hide Inv, Next;
    if es != [] {
      RunKeepsInv(s, es[..|es| - 1]);
      NextKeepsInv(Run(s, es[..|es| - 1]), es[|es| - 1]);
    }
  }

  /** An arena with no cells and n idle backends. */
  function Fresh(n: nat, cap: nat): State {
    State(map[], seq(n, _ => Backend(map[], Open)), cap, [], [], [])
  }

  lemma {:induction false} NothingUnresolved(xs: seq<Backend>, g: Group)
    requires forall b :: 0 <= b < |xs| ==> xs[b].pc.Open?
    ensures AllUnresolved(xs, g) == 0
  {
    if xs != [] {
      NothingUnresolved(xs[..|xs| - 1], g);
    }
  }

  lemma {:induction false} NothingHeld(xs: seq<Backend>, g: Group)
    requires forall b :: 0 <= b < |xs| ==> xs[b] == Backend(map[], Open)
    ensures AllHeld(xs, g) == 0
  {
    if xs != [] {
      NothingHeld(xs[..|xs| - 1], g);
    }
  }

  lemma FreshIsFine(n: nat, cap: nat)
    ensures Inv(Fresh(n, cap))
  {
    forall g
      ensures Accounted(Fresh(n, cap), g) && Bounded(Fresh(n, cap), g)
    {
      NothingUnresolved(Fresh(n, cap).backends, g);
      NothingHeld(Fresh(n, cap).backends, g);
    }
  }

  /** The receipts a list of events stages for a group. */
  function StagedIn(es: seq<Event>, g: Group): nat {
    if es == [] then 0
    else StagedIn(es[..|es| - 1], g) + StagedBy(es[|es| - 1], g)
  }

  function StagedBy(e: Event, g: Group): nat {
    if e.Stage? then ReceiptOf(Item(e.group, e.delta), g) else 0
  }

  lemma {:induction false} StagedByRun(s: State, es: seq<Event>, g: Group)
    ensures Receipts(Run(s, es).staged, g) <= Receipts(s.staged, g) + StagedIn(es, g)
  {
    hide Receipts, StagedBy;
    if es != [] {
      var n := |es| - 1;
      StagedByRun(s, es[..n], g);
      var t := Run(s, es[..n]);
      StagedByNext(t, es[n], g);
      hide Next;
    }
  }

  lemma StagedByNext(s: State, e: Event, g: Group)
    ensures Receipts(Next(s, e).staged, g) <= Receipts(s.staged, g) + StagedBy(e, g)
  {
    hide Receipts, ReceiptOf;
    if e.Stage? {
      OneReceipt(s.staged, Item(e.group, e.delta), g);
    }
  }

  /** In every run, `effective_qty` is the sum of committed deltas plus the applied but
      unresolved ones, in 64-bit arithmetic. While the receipts staged for the group add
      up to less than 2^63 it is that sum exactly, and no lower than minus the receipts
      taken back. */
  lemma TotalsAreConserved(n: nat, cap: nat, es: seq<Event>, g: Group)
    ensures var s := Run(Fresh(n, cap), es);
            && EffOf(s, g) == Wrap(Sum(s.committed, g) + AllUnresolved(s.backends, g))
            && (StagedIn(es, g) <= I64_MAX ==>
                  && EffOf(s, g) == Sum(s.committed, g) + AllUnresolved(s.backends, g)
                  && -(Receipts(s.reversed, g) as int) <= EffOf(s, g))
  {
    hide *;
    FreshIsFine(n, cap);
    RunKeepsInv(Fresh(n, cap), es);
    StagedByRun(Fresh(n, cap), es, g);
    NothingStaged(n, cap, g);
    AccountOf(Run(Fresh(n, cap), es), g);
  }

  lemma NothingStaged(n: nat, cap: nat, g: Group)
    ensures Receipts(Fresh(n, cap).staged, g) == 0
  {
  }

  lemma AccountOf(s: State, g: Group)
    requires Inv(s)
    ensures EffOf(s, g) == Wrap(Sum(s.committed, g) + AllUnresolved(s.backends, g))
    ensures Receipts(s.staged, g) <= I64_MAX ==>
              && EffOf(s, g) == Sum(s.committed, g) + AllUnresolved(s.backends, g)
              && -(Receipts(s.reversed, g) as int) <= EffOf(s, g)
  {
    assert Accounted(s, g) && Bounded(s, g);
    hide Inv, Wrap, Sum, AllUnresolved, Receipts;
  }

  // ---- Two runs ---------------------------------------------------------------

  lemma {:induction false} RunAppend(s: State, a: seq<Event>, b: seq<Event>)
    ensures Run(s, a + b) == Run(Run(s, a), b)
  {
    hide Next;
    if b == [] {
      assert a + b == a;
    } else {
      var n := |b| - 1;
      RunAppend(s, a, b[..n]);
      assert (a + b)[..|a + b| - 1] == a + b[..n];
    }
  }

  lemma RunOne(s: State, e: Event)
    ensures Run(s, [e]) == Next(s, e)
  {
    hide Next;
    assert [e][..0] == [];
    assert Run(s, []) == s;
  }

  lemma RunTwo(s: State, e: Event, f: Event)
    ensures Run(s, [e, f]) == Next(Next(s, e), f)
  {
    hide Next;
    assert [e, f] == [e] + [f];
    RunAppend(s, [e], [f]);
    RunOne(s, e);
    RunOne(Run(s, [e]), f);
  }

  /** A transaction of one delta up to the point where it is applied. */
  function Tx(b: nat, g: Group, d: int): seq<Event> {
    [Stage(b, g, d), PreCommit(b)] + [Insert(b, g)]
  }

  function Idle(): Backend {
    Backend(map[], Open)
  }

  function Applies(it: Item): Backend {
    Backend(map[], Applying(map[], [it]))
  }

  lemma TxApplies(s: State, b: nat, g: Group, d: int)
    requires b < |s.backends| && s.backends[b] == Idle() && InI64(d)
    requires InI64(EffOf(s, g) + d) && 0 <= EffOf(s, g) + d && (g in s.eff || |s.eff| < s.cap)
    ensures Run(s, Tx(b, g, d))
         == s.(backends := s.backends[b := Applies(Item(g, d))], staged := s.staged + [Item(g, d)],
               eff := s.eff[g := EffOf(s, g) + d])
  {
    RunAppend(s, [Stage(b, g, d), PreCommit(b)], [Insert(b, g)]);
    RunTwo(s, Stage(b, g, d), PreCommit(b));
    hide Run;
    var todo := map[g := d];
    var u := s.(backends := s.backends[b := Backend(map[], Applying(todo, []))], staged := s.staged + [Item(g, d)]);
    assert (map[])[g := d] == todo;
    assert Next(Next(s, Stage(b, g, d)), PreCommit(b)) == u;
    RunOne(u, Insert(b, g));
    assert todo - {g} == map[] && [] + [Item(g, d)] == [Item(g, d)];
    assert u.backends[b := Applies(Item(g, d))] == s.backends[b := Applies(Item(g, d))];
    assert Next(u, Insert(b, g)) == InsertStep(u, b, g);
  }

  lemma TxCommits(s: State, b: nat, it: Item)
    requires b < |s.backends| && s.backends[b] == Applies(it)
    ensures Run(s, [Commit(b)]) == s.(backends := s.backends[b := Idle()], committed := s.committed + [it])
  {
    hide Run, SwapStep, InsertStep, ReverseStep, Sat;
    RunOne(s, Commit(b));
  }

  lemma TxAborts(s: State, b: nat, it: Item)
    requires b < |s.backends| && s.backends[b] == Applies(it) && it.group in s.eff
    ensures var t := Run(s, [Abort(b), Reverse(b)]);
            && t.backends == s.backends[b := Backend(map[], Reversing([]))] && t.committed == s.committed
            && t.reversed == s.reversed + [it] && t.eff == s.eff[it.group := Wrap(s.eff[it.group] - it.delta)]
  {
    hide Run, Wrap, SwapStep, InsertStep, Sat;
    RunTwo(s, Abort(b), Reverse(b));
    var u := Unwind(s, b, [it]);
    assert Next(s, Abort(b)) == u && u.backends[b].pc == Reversing([it]);
    var done := Backend(map[], Reversing([]));
    assert [it][1..] == [] && u.backends[b := done] == s.backends[b := done];
    assert Next(u, Reverse(b)) == ReverseStep(u, b, [it]);
    hide Next;
  }

  /** Backend 0 receives five units, backend 1 consumes them and commits, and then
      backend 0 aborts. */
  function AbortRun(): seq<Event> {
    Tx(0, 7, 5) + Tx(1, 7, -5) + [Commit(1)] + [Abort(0), Reverse(0)]
  }

  /** The bound of TotalsAreConserved is reached: once its receipt is taken back, a
      group whose units another backend has consumed stands at minus that receipt. */
  lemma AbortCanGoNegative()
    ensures var s := Run(Fresh(2, 1), AbortRun());
            EffOf(s, 7) == -5 == -(Receipts(s.reversed, 7) as int) && AllUnresolved(s.backends, 7) == 0
  {
    hide Run, Next, Tx;
    var s0 := Fresh(2, 1);
    var s1, s2 := Run(s0, Tx(0, 7, 5)), Run(Run(s0, Tx(0, 7, 5)), Tx(1, 7, -5));
    TxApplies(s0, 0, 7, 5);
    TxApplies(s1, 1, 7, -5);
    TxCommits(s2, 1, Item(7, -5));
    var s3 := Run(s2, [Commit(1)]);
    TxAborts(s3, 0, Item(7, 5));
    RunAppend(s0, Tx(0, 7, 5), Tx(1, 7, -5));
    RunAppend(s0, Tx(0, 7, 5) + Tx(1, 7, -5), [Commit(1)]);
    RunAppend(s0, Tx(0, 7, 5) + Tx(1, 7, -5) + [Commit(1)], [Abort(0), Reverse(0)]);
    var t := Run(s3, [Abort(0), Reverse(0)]);
    OneReceipt([], Item(7, 5), 7);
    assert [] + [Item(7, 5)] == [Item(7, 5)];
    assert t.backends == [Backend(map[], Reversing([])), Idle()];
    TwoUnresolved(t.backends[0], t.backends[1], 7);
  }

  lemma TwoUnresolved(x: Backend, y: Backend, g: Group)
    ensures AllUnresolved([x, y], g) == Sum(Unresolved(x.pc), g) + Sum(Unresolved(y.pc), g)
  {
    hide Unresolved, Sum;
    assert [x, y][..1] == [x] && [x][..0] == [];
    assert AllUnresolved([x], g) == Sum(Unresolved(x.pc), g);
  }

  /** One unit is committed; backend 0 consumes it, backend 1 receives 2^63 - 1 units
      and commits, and then backend 0 aborts. */
  function OverflowRun(): seq<Event> {
    Tx(0, 7, 1) + [Commit(0)] + Tx(0, 7, -1) + Tx(1, 7, I64_MAX) + [Commit(1)] + [Abort(0), Reverse(0)]
  }

  /** Beyond the limit the bound fails: every apply was checked and no receipt was taken
      back, but taking back the issue wraps the cell round to the lowest value. */
  lemma ReversalCanOverflow()
    ensures var s := Run(Fresh(2, 1), OverflowRun());
            && StagedIn(OverflowRun(), 7) == I64_MAX + 1
            && EffOf(s, 7) == I64_MIN && Receipts(s.reversed, 7) == 0
  {
    OverflowStages();
    hide Run, Next, Tx, StagedIn;
    var p1 := Tx(0, 7, 1);
    var p2 := p1 + [Commit(0)];
    var p3 := p2 + Tx(0, 7, -1);
    var p4 := p3 + Tx(1, 7, I64_MAX);
    var p5 := p4 + [Commit(1)];
    var s0 := Fresh(2, 1);
    TxApplies(s0, 0, 7, 1);
    RunAppend(s0, p1, [Commit(0)]);
    TxCommits(Run(s0, p1), 0, Item(7, 1));
    RunAppend(s0, p2, Tx(0, 7, -1));
    TxApplies(Run(s0, p2), 0, 7, -1);
    RunAppend(s0, p3, Tx(1, 7, I64_MAX));
    TxApplies(Run(s0, p3), 1, 7, I64_MAX);
    RunAppend(s0, p4, [Commit(1)]);
    TxCommits(Run(s0, p4), 1, Item(7, I64_MAX));
    RunAppend(s0, p5, [Abort(0), Reverse(0)]);
    TxAborts(Run(s0, p5), 0, Item(7, -1));
    OneReceipt([], Item(7, -1), 7);
  }

  lemma {:induction false} StagedAppend(a: seq<Event>, b: seq<Event>, g: Group)
    ensures StagedIn(a + b, g) == StagedIn(a, g) + StagedIn(b, g)
  {
    if b == [] {
      assert a + b == a;
    } else {
      var n := |b| - 1;
      StagedAppend(a, b[..n], g);
      assert (a + b)[..|a + b| - 1] == a + b[..n];
    }
  }

  lemma TxStages(b: nat, g: Group, d: int)
    ensures StagedIn(Tx(b, g, d), g) == ReceiptOf(Item(g, d), g)
  {
    StagedAppend([Stage(b, g, d), PreCommit(b)], [Insert(b, g)], g);
    assert [Stage(b, g, d), PreCommit(b)] == [Stage(b, g, d)] + [PreCommit(b)];
    StagedAppend([Stage(b, g, d)], [PreCommit(b)], g);
    StagedOne(Stage(b, g, d), g);
    StagedOne(PreCommit(b), g);
    StagedOne(Insert(b, g), g);
    hide StagedIn;
  }

  lemma StagedOne(e: Event, g: Group)
    ensures StagedIn([e], g) == StagedBy(e, g)
  {
    assert [e][..0] == [];
  }

  lemma EndStages(b: nat, g: Group)
    ensures StagedIn([Commit(b)], g) == 0 && StagedIn([Abort(b), Reverse(b)], g) == 0
  {
    assert [Commit(b)][..0] == [] && [Abort(b), Reverse(b)][..1] == [Abort(b)] && [Abort(b)][..0] == [];
  }

  lemma OverflowStages()
    ensures StagedIn(OverflowRun(), 7) == I64_MAX + 1
  {
    assert ReceiptOf(Item(7, -1), 7) == 0 && ReceiptOf(Item(7, 1), 7) == 1;
    TxStages(0, 7, 1);
    TxStages(0, 7, -1);
    TxStages(1, 7, I64_MAX);
    EndStages(0, 7);
    EndStages(1, 7);
    hide StagedIn, Tx;
    var p1 := Tx(0, 7, 1);
    var p2 := p1 + [Commit(0)];
    var p3 := p2 + Tx(0, 7, -1);
    var p4 := p3 + Tx(1, 7, I64_MAX);
    StagedAppend(p1, [Commit(0)], 7);
    StagedAppend(p2, Tx(0, 7, -1), 7);
    StagedAppend(p3, Tx(1, 7, I64_MAX), 7);
    StagedAppend(p4, [Commit(1)], 7);
    StagedAppend(p4 + [Commit(1)], [Abort(0), Reverse(0)], 7);
  }

  /** With no transaction in progress the cell is exactly the committed total. */
  lemma IdleTotalIsCommitted(n: nat, cap: nat, es: seq<Event>, g: Group)
    requires forall b :: 0 <= b < |Run(Fresh(n, cap), es).backends| ==> Run(Fresh(n, cap), es).backends[b].pc.Open?
    ensures var s := Run(Fresh(n, cap), es); EffOf(s, g) == Wrap(Sum(s.committed, g))
  {
    hide Run, Wrap, Sum, StagedIn, Receipts;
    TotalsAreConserved(n, cap, es, g);
    NothingUnresolved(Run(Fresh(n, cap), es).backends, g);
  }
}
