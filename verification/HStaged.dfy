/**
  What was staged and what became of it (h_arena.rs): the deltas of a transaction are
  those handed to `h_apply_delta` since the backend's last transaction ended, and the
  group totals are the sums of the deltas of the transactions that committed. Both are
  read off the list of events, not off the machine's own books.
*/
module HStaged {
  import opened Int64
  import opened HGroups

  /** Backend `b` commits here: it has applied all it had to. */
  ghost predicate Commits(s: State, e: Event, b: nat) {
    e == Commit(b) && b < |s.backends| && s.backends[b].pc.Applying? && s.backends[b].pc.todo == map[]
  }

  /** The deltas backend `b` has staged in the transaction it is in. */
  ghost function Ours(s: State, es: seq<Event>, b: nat): seq<Item> {
    if es == [] then []
    else
      var n := |es| - 1;
      OursNext(Run(s, es[..n]), es[n], b, Ours(s, es[..n], b))
  }

  ghost function OursNext(s: State, e: Event, b: nat, ours: seq<Item>): seq<Item> {
    if e.b != b || b >= |s.backends| then ours
    else if e.Stage? && s.backends[b].pc.Open? then ours + [Item(e.group, e.delta)]
    else if Commits(s, e, b) || Next(s, e).backends[b].pc.Reversing? then []
    else ours
  }

  /** The deltas of the transactions that have committed. */
  ghost function Survived(s: State, es: seq<Event>): seq<Item> {
    if es == [] then []
    else
      var n := |es| - 1;
      if Commits(Run(s, es[..n]), es[n], es[n].b) then Survived(s, es[..n]) + Ours(s, es[..n], es[n].b)
      else Survived(s, es[..n])
  }

  /** At no point had a transaction staged more for the group than 64 bits hold. */
  ghost predicate SumsFit(s: State, es: seq<Event>, g: Group) {
    && (forall b: nat :: InI64(Sum(Ours(s, es, b), g)))
    && (es != [] ==> SumsFit(s, es[..|es| - 1], g))
  }

  function At(m: map<Group, int>, g: Group): int {
    if g in m then m[g] else 0
  }

  /** The backend holds exactly what its transaction staged: pending, still to apply, or
      applied. */
  ghost predicate Holds(x: Backend, ours: seq<Item>, g: Group) {
    match x.pc
    case Open => At(x.pending, g) == Sum(ours, g)
    case Applying(todo, applied) => At(todo, g) + Sum(applied, g) == Sum(ours, g) && x.pending == map[]
    case Loaded(todo, applied, _, _) => At(todo, g) + Sum(applied, g) == Sum(ours, g) && x.pending == map[]
    case Reversing(_) => ours == [] && x.pending == map[]
  }

  lemma StageHolds(s: State, b: nat, h: Group, d: int, ours: seq<Item>, g: Group)
    requires b < |s.backends| && s.backends[b].pc.Open? && Holds(s.backends[b], ours, g)
    requires InI64(Sum(ours + [Item(h, d)], g))
    ensures Holds(Next(s, Stage(b, h, d)).backends[b], ours + [Item(h, d)], g)
  {
    SumAppend(ours, [Item(h, d)], g);
    SumOne(Item(h, d), g);
    hide Sum;
  }

  lemma SwapHolds(s: State, b: nat, pc: Pc, ours: seq<Item>, g: Group)
    requires b < |s.backends| && pc.Loaded? && Holds(s.backends[b].(pc := pc), ours, g)
    ensures var y := SwapStep(s, b, pc).backends[b]; Holds(y, if y.pc.Reversing? then [] else ours, g)
  {
    if pc.group in pc.todo {
      var it := Item(pc.group, pc.todo[pc.group]);
      SumAppend(pc.applied, [it], g);
      SumOne(it, g);
    }
    hide Sum, InI64;
  }

  lemma InsertHolds(s: State, b: nat, h: Group, ours: seq<Item>, g: Group)
    requires b < |s.backends| && s.backends[b].pc.Applying? && Holds(s.backends[b], ours, g)
    ensures var y := InsertStep(s, b, h).backends[b]; Holds(y, if y.pc.Reversing? then [] else ours, g)
  {
    var pc := s.backends[b].pc;
    if h in pc.todo {
      if h in s.eff {
        SwapHolds(s, b, Loaded(pc.todo, pc.applied, h, s.eff[h]), ours, g);
        hide SwapStep;
      }
      var it := Item(h, pc.todo[h]);
      SumAppend(pc.applied, [it], g);
      SumOne(it, g);
    }
    hide Sum, InI64;
  }

  /** A step leaves the other backends alone. */
  lemma OthersStay(s: State, e: Event, b: nat)
    ensures |Next(s, e).backends| == |s.backends|
    ensures b < |s.backends| && b != e.b ==> Next(s, e).backends[b] == s.backends[b]
  {
    hide InI64, Wrap, Sat;
  }

  lemma NextHolds(s: State, e: Event, ours: seq<Item>, g: Group)
    requires e.b < |s.backends| && Holds(s.backends[e.b], ours, g)
    requires InI64(Sum(OursNext(s, e, e.b, ours), g))
    ensures |Next(s, e).backends| == |s.backends|
    ensures Holds(Next(s, e).backends[e.b], OursNext(s, e, e.b, ours), g)
  {
    OthersStay(s, e, e.b);
    var x := s.backends[e.b];
    hide Sum, InI64;
    match (e, x.pc) {
      case (Stage(b, h, d), Open) => StageHolds(s, b, h, d, ours, g);
      case (Swap(b), Loaded(_, _, _, _)) =>
        SwapHolds(s, b, x.pc, ours, g);
        hide SwapStep;
      case (Insert(b, h), Applying(_, _)) =>
        InsertHolds(s, b, h, ours, g);
        hide InsertStep;
      case _ => NothingSummed(g);
    }
  }

  lemma NothingSummed(g: Group)
    ensures Sum([], g) == 0
  {
  }

  lemma {:induction false} RunHolds(s: State, es: seq<Event>, g: Group)
    requires forall b :: 0 <= b < |s.backends| ==> s.backends[b] == Idle()
    requires SumsFit(s, es, g)
    ensures |Run(s, es).backends| == |s.backends|
    ensures forall b: nat :: b < |s.backends| ==> Holds(Run(s, es).backends[b], Ours(s, es, b), g)
  {
    hide Next, OursNext, Sum, InI64;
    if es == [] {
      NothingSummed(g);
    } else {
      hide Holds;
      var n := |es| - 1;
      var t := Run(s, es[..n]);
      RunHolds(s, es[..n], g);
      forall b: nat | b < |s.backends|
        ensures |Next(t, es[n]).backends| == |s.backends| && Holds(Next(t, es[n]).backends[b], Ours(s, es, b), g)
      {
        assert InI64(Sum(Ours(s, es, b), g)) && Holds(t.backends[b], Ours(s, es[..n], b), g);
        OthersStay(t, es[n], b);
        if es[n].b == b {
          NextHolds(t, es[n], Ours(s, es[..n], b), g);
        } else {
          NotOurs(t, es[n], b, Ours(s, es[..n], b));
        }
      }
      OthersStay(t, es[n], 0);
    }
  }

  lemma NotOurs(s: State, e: Event, b: nat, ours: seq<Item>)
    requires e.b != b
    ensures OursNext(s, e, b, ours) == ours
  {
  }

  lemma CommittedNext(s: State, e: Event)
    ensures Commits(s, e, e.b) ==> Next(s, e).committed == s.committed + s.backends[e.b].pc.applied
    ensures !Commits(s, e, e.b) ==> Next(s, e).committed == s.committed
  {
    hide InI64, Wrap, Sat;
  }

  /** What the machine counts as committed is what the committed transactions staged. */
  lemma {:induction false} CommittedIsSurvived(s: State, es: seq<Event>, g: Group)
    requires forall b :: 0 <= b < |s.backends| ==> s.backends[b] == Idle()
    requires SumsFit(s, es, g) && s.committed == []
    ensures Sum(Run(s, es).committed, g) == Sum(Survived(s, es), g)
  {
    if es != [] {
      hide Next, Sum;
      var n := |es| - 1;
      var t, e := Run(s, es[..n]), es[n];
      CommittedIsSurvived(s, es[..n], g);
      CommittedNext(t, e);
      if Commits(t, e, e.b) {
        RunHolds(s, es[..n], g);
        assert Holds(t.backends[e.b], Ours(s, es[..n], e.b), g);
        SumAppend(t.committed, t.backends[e.b].pc.applied, g);
        SumAppend(Survived(s, es[..n]), Ours(s, es[..n], e.b), g);
      }
    }
  }

  /** Nobody is in the middle of a commit or an abort. */
  ghost predicate Quiet(s: State) {
    forall b :: 0 <= b < |s.backends| ==> s.backends[b].pc.Open?
  }

  /** Over every run, with no transaction at its end, a group's total is the sum of the
      deltas staged for it by the transactions that committed: in 64-bit arithmetic as
      long as no transaction staged more than 64 bits hold, and exactly while the
      receipts staged add up to less than 2^63. */
  lemma CommitsAddUp(n: nat, cap: nat, es: seq<Event>, g: Group)
    requires SumsFit(Fresh(n, cap), es, g)
    ensures var s, sum := Run(Fresh(n, cap), es), Sum(Survived(Fresh(n, cap), es), g);
            && EffOf(s, g) == Wrap(sum + AllUnresolved(s.backends, g))
            && (Quiet(s) ==> EffOf(s, g) == Wrap(sum))
            && (Quiet(s) && StagedIn(es, g) <= I64_MAX ==> EffOf(s, g) == sum)
  {
    hide Run, Next, Sum, Wrap, Survived, SumsFit, StagedIn, AllUnresolved;
    TotalsAreConserved(n, cap, es, g);
    CommittedIsSurvived(Fresh(n, cap), es, g);
    if Quiet(Run(Fresh(n, cap), es)) {
      NothingUnresolved(Run(Fresh(n, cap), es).backends, g);
    }
  }

  /** `h_arena_lookup`: the cell and the caller's own pending delta. */
  function Lookup(s: State, b: nat, g: Group): int
    requires b < |s.backends|
  {
    EffOf(s, g) + At(s.backends[b].pending, g)
  }

  /** A backend sees its own staged deltas on top of the committed ones. */
  lemma LookupSeesOwnDeltas(n: nat, cap: nat, es: seq<Event>, g: Group, b: nat)
    requires b < n && SumsFit(Fresh(n, cap), es, g) && StagedIn(es, g) <= I64_MAX
    ensures var s := Run(Fresh(n, cap), es);
            var committed, own := Survived(Fresh(n, cap), es), Ours(Fresh(n, cap), es, b);
            |s.backends| == n && (Quiet(s) ==> Lookup(s, b, g) == Sum(committed, g) + Sum(own, g))
  {
    hide Run, Next, Sum, Wrap, Survived, SumsFit, StagedIn, AllUnresolved, Ours;
    CommitsAddUp(n, cap, es, g);
    RunHolds(Fresh(n, cap), es, g);
  }

  // ---- A sum that does not fit ----------------------------------------------

  /** Staging keeps the sum exactly when the sum fits in 64 bits. */
  lemma StageIsExactIff(s: State, b: nat, g: Group, d: int, ours: seq<Item>)
    requires b < |s.backends| && s.backends[b].pc.Open? && At(s.backends[b].pending, g) == Sum(ours, g)
    ensures var sum := Sum(ours + [Item(g, d)], g);
            At(Next(s, Stage(b, g, d)).backends[b].pending, g) == sum <==> InI64(sum)
  {
    SumAppend(ours, [Item(g, d)], g);
    SumOne(Item(g, d), g);
    hide Sum;
  }

  lemma OneMore(s: State, es: seq<Event>, e: Event, b: nat)
    ensures Run(s, es + [e]) == Next(Run(s, es), e)
    ensures Ours(s, es + [e], b) == OursNext(Run(s, es), e, b, Ours(s, es, b))
    ensures Survived(s, es + [e]) == Survived(s, es) + if Commits(Run(s, es), e, e.b) then Ours(s, es, e.b) else []
  {
    hide Next, OursNext, Commits;
    assert (es + [e])[..|es + [e]| - 1] == es;
  }

  /** One more step of a run of backend 0 alone. */
  lemma Reaches(es: seq<Event>, e: Event, s: State, t: State, ours: seq<Item>)
    requires Run(Fresh(1, 1), es) == s && Ours(Fresh(1, 1), es, 0) == ours && Survived(Fresh(1, 1), es) == []
    requires e.b == 0 && t == Next(s, e) && !Commits(s, e, 0)
    ensures Run(Fresh(1, 1), es + [e]) == t && Ours(Fresh(1, 1), es + [e], 0) == OursNext(s, e, 0, ours)
    ensures Survived(Fresh(1, 1), es + [e]) == []
  {
    hide Next, OursNext, Commits, Run, Ours, Survived;
    OneMore(Fresh(1, 1), es, e, 0);
  }

  function At1(pending: map<Group, int>, pc: Pc, eff: map<Group, int>, staged: seq<Item>): State {
    State(eff, [Backend(pending, pc)], 1, staged, [], [])
  }

  /** 2^63 - 1, one more and one less, in one transaction. */
  function CutRun(): seq<Event> {
    [] + [Stage(0, 7, I64_MAX)] + [Stage(0, 7, 1)] + [Stage(0, 7, -1)] + [PreCommit(0)] + [Insert(0, 7)]
  }

  /** A staged sum that leaves 64 bits on the way loses a unit for good, although the sum
      of what was staged fits. */
  lemma SaturationLosesAUnit()
    ensures var s, es := Fresh(1, 1), CutRun() + [Commit(0)];
            && Sum(Survived(s, es), 7) == I64_MAX && Quiet(Run(s, es))
            && EffOf(Run(s, es), 7) == I64_MAX - 1
  {
    hide Run, Ours, Survived, Sum;
    var a, b, c := Item(7, I64_MAX), Item(7, 1), Item(7, -1);
    var s := Fresh(1, 1);
    CutStages();
    var e4 := [] + [Stage(0, 7, I64_MAX)] + [Stage(0, 7, 1)] + [Stage(0, 7, -1)];
    var s4 := At1(map[7 := I64_MAX - 1], Open, map[], [a, b, c]);
    var s5 := At1(map[], Applying(map[7 := I64_MAX - 1], []), map[], [a, b, c]);
    var it := Item(7, I64_MAX - 1);
    var s6 := At1(map[], Applying(map[], [it]), map[7 := I64_MAX - 1], [a, b, c]);
    Reaches(e4, PreCommit(0), s4, s5, [a, b, c]);
    assert [] + [it] == [it] && map[7 := I64_MAX - 1] - {7} == map[];
    Reaches(e4 + [PreCommit(0)], Insert(0, 7), s5, s6, [a, b, c]);
    OneMore(s, CutRun(), Commit(0), 0);
    assert [] + [a, b, c] == [a, b, c] == [a] + [b] + [c];
    SumAppend([a] + [b], [c], 7);
    SumAppend([a], [b], 7);
    SumOne(a, 7);
    SumOne(b, 7);
    SumOne(c, 7);
  }

  lemma StageOn(was: int, staged: seq<Item>, d: int)
    ensures var s := At1(map[7 := was], Open, map[], staged);
            Next(s, Stage(0, 7, d)) == At1(map[7 := Sat(was + d)], Open, map[], staged + [Item(7, d)])
  {
    var p: map<Group, int> := map[7 := was];
    assert p[7 := Sat(was + d)] == map[7 := Sat(was + d)];
    var xs := [Backend(p, Open)];
    assert xs[0 := Backend(map[7 := Sat(was + d)], Open)] == [Backend(map[7 := Sat(was + d)], Open)];
  }

  lemma FirstStage(d: int)
    requires InI64(d)
    ensures Next(Fresh(1, 1), Stage(0, 7, d)) == At1(map[7 := d], Open, map[], [Item(7, d)])
  {
    assert [] + [Item(7, d)] == [Item(7, d)] && (map[])[7 := d] == map[7 := d];
    assert [Backend(map[], Open)][0 := Backend(map[7 := d], Open)] == [Backend(map[7 := d], Open)];
  }

  lemma CutStages()
    ensures var s, es := Fresh(1, 1), [] + [Stage(0, 7, I64_MAX)] + [Stage(0, 7, 1)] + [Stage(0, 7, -1)];
            var a, b, c := Item(7, I64_MAX), Item(7, 1), Item(7, -1);
            && Run(s, es) == At1(map[7 := I64_MAX - 1], Open, map[], [a, b, c])
            && Ours(s, es, 0) == [a, b, c] && Survived(s, es) == []
  {
    var s := Fresh(1, 1);
    var a, b, c := Item(7, I64_MAX), Item(7, 1), Item(7, -1);
    assert Run(s, []) == s && Ours(s, [], 0) == [] && Survived(s, []) == [];
    hide Run, Ours, Survived, Next;
    var e1 := [] + [Stage(0, 7, I64_MAX)];
    var s1, s2 := At1(map[7 := I64_MAX], Open, map[], [a]), At1(map[7 := I64_MAX], Open, map[], [a, b]);
    assert [] + [a] == [a] && [a] + [b] == [a, b] && [a, b] + [c] == [a, b, c];
    FirstStage(I64_MAX);
    Reaches([], Stage(0, 7, I64_MAX), s, s1, []);
    StageOn(I64_MAX, [a], 1);
    Reaches(e1, Stage(0, 7, 1), s1, s2, [a]);
    StageOn(I64_MAX, [a, b], -1);
    Reaches(e1 + [Stage(0, 7, 1)], Stage(0, 7, -1), s2, At1(map[7 := I64_MAX - 1], Open, map[], [a, b, c]), [a, b]);
  }
}
