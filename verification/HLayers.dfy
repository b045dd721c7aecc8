/**
  Layer residuals of the H layer arena (h_layer_arena.rs): creating a layer and taking
  from it change the shared residual at once, and an abort takes every change of its
  backend back, one by one. A backend only walks layers it created itself or that are
  committed, because it reads the layer list through its own snapshot.
*/
module HLayers {
  import opened Int64

  type LayerId = nat

  /** A change already made to a residual: positive for a create, negative for a take.
      `asked` and `left` are history: what a take was asked for, and the residual after. */
  datatype Item = Item(layer: LayerId, delta: int, asked: int, left: int)

  datatype Pc =
    | Running(applied: seq<Item>)
    | Loaded(applied: seq<Item>, layer: LayerId, requested: int, cur: int)
    | Reversing(left: seq<Item>)

  /** Who may see a layer: its creator, everyone, or no one once the creator aborts. */
  datatype Status = Own(b: nat) | Committed | Gone(b: nat)

  /** `created`, `status` and `done` are history: the quantity each layer was created
      with, who may see it, and the changes of committed transactions. */
  datatype State = State(
    residual: map<LayerId, int>, backends: seq<Pc>, cap: nat,
    created: map<LayerId, int>, status: map<LayerId, Status>, done: seq<Item>)

  datatype Event =
    | Create(b: nat, layer: LayerId, qty: int)
    | Load(b: nat, layer: LayerId, requested: int)
    | Swap(b: nat)
    | Commit(b: nat)
    | Abort(b: nat)
    | Reverse(b: nat)

  predicate Visible(s: State, b: nat, l: LayerId) {
    l in s.status && (s.status[l] == Committed || s.status[l] == Own(b))
  }

  function SetPc(s: State, b: nat, pc: Pc): State
    requires b < |s.backends|
  {
    s.(backends := s.backends[b := pc])
  }

  /** The layers of an ended transaction become visible to all or to none. */
  function Settle(status: map<LayerId, Status>, b: nat, end: Status): map<LayerId, Status> {
    map l | l in status :: if status[l] == Own(b) then end else status[l]
  }

  function Unwind(s: State, b: nat, applied: seq<Item>): State
    requires b < |s.backends|
  {
    SetPc(s, b, Reversing(applied)).(status := Settle(s.status, b, Gone(b)))
  }

  /** `h_layer_create` for an id fresh from the sequence; a bad id or quantity and a
      full table are errors. */
  function CreateStep(s: State, b: nat, applied: seq<Item>, l: LayerId, qty: int): State
    requires b < |s.backends|
  {
    if l in s.created then s
    else if l == 0 || qty < 0 || |s.residual| >= s.cap then Unwind(s, b, applied)
    else
      SetPc(s, b, Running(applied + [Item(l, qty, 0, qty)]))
        .(residual := s.residual[l := qty], created := s.created[l := qty], status := s.status[l := Own(b)])
  }

  /** `h_layer_decrement` from the loaded residual: a lost race goes back to loading. */
  function SwapStep(s: State, b: nat, pc: Pc): State
    requires b < |s.backends| && pc.Loaded?
  {
    var l := pc.layer;
    if pc.cur <= 0 || pc.requested <= 0 || l !in s.residual then SetPc(s, b, Running(pc.applied))
    else if s.residual[l] == pc.cur then
      var take := Min(pc.cur, pc.requested);
      SetPc(s, b, Running(pc.applied + [Item(l, -take, pc.requested, pc.cur - take)]))
        .(residual := s.residual[l := pc.cur - take])
    else SetPc(s, b, Running(pc.applied))
  }

  function ReverseStep(s: State, b: nat, left: seq<Item>): State
    requires b < |s.backends|
  {
    if left == [] then SetPc(s, b, Running([]))
    else
      var t := SetPc(s, b, Reversing(left[1..]));
      var it := left[0];
      if it.layer in s.residual then t.(residual := s.residual[it.layer := s.residual[it.layer] - it.delta]) else t
  }

  function Next(s: State, e: Event): State {
    if e.b >= |s.backends| then s
    else
      match (e, s.backends[e.b])
      case (Create(b, l, qty), Running(applied)) => CreateStep(s, b, applied, l, qty)
      case (Load(b, l, requested), Running(applied)) =>
        if Visible(s, b, l) && l in s.residual then SetPc(s, b, Loaded(applied, l, requested, s.residual[l])) else s
      case (Swap(b), Loaded(_, _, _, _)) => SwapStep(s, b, s.backends[b])
      case (Commit(b), Running(applied)) =>
        SetPc(s, b, Running([])).(done := s.done + applied, status := Settle(s.status, b, Committed))
      case (Abort(b), Running(applied)) => Unwind(s, b, applied)
      case (Reverse(b), Reversing(left)) => ReverseStep(s, b, left)
      case _ => s
  }

  function Run(s: State, es: seq<Event>): State {
    if es == [] then s else Next(Run(s, es[..|es| - 1]), es[|es| - 1])
  }

  // ---- Accounts -------------------------------------------------------------

  function Part(it: Item, l: LayerId, takes: bool): (n: nat) {
    if it.layer != l then 0 else if takes then (if it.delta < 0 then -it.delta else 0)
    else if it.delta > 0 then it.delta else 0
  }

  /** The sum of the takes, or of the creates, of a layer. */
  function Parts(items: seq<Item>, l: LayerId, takes: bool): nat {
    if items == [] then 0 else Part(items[0], l, takes) + Parts(items[1..], l, takes)
  }

  lemma {:induction false} PartsAppend(a: seq<Item>, b: seq<Item>, l: LayerId, takes: bool)
    ensures Parts(a + b, l, takes) == Parts(a, l, takes) + Parts(b, l, takes)
  {
    hide Part;
    if a == [] {
      assert a + b == b;
    } else {
      PartsAppend(a[1..], b, l, takes);
      assert (a + b)[1..] == a[1..] + b;
    }
  }

  lemma PartsNext(a: seq<Item>, it: Item, l: LayerId, takes: bool)
    ensures Parts(a + [it], l, takes) == Parts(a, l, takes) + Part(it, l, takes)
  {
    PartsAppend(a, [it], l, takes);
    assert [it][1..] == [];
    assert Parts([it], l, takes) == Part(it, l, takes) + Parts([], l, takes);
  }

  /** The changes of a backend that are neither committed nor taken back. */
  function Unresolved(pc: Pc): seq<Item> {
    if pc.Reversing? then pc.left else pc.applied
  }

  function AllParts(xs: seq<Pc>, l: LayerId, takes: bool): nat {
    if xs == [] then 0 else AllParts(xs[..|xs| - 1], l, takes) + Parts(Unresolved(xs[|xs| - 1]), l, takes)
  }

  lemma {:induction false} AllPartsUpdate(xs: seq<Pc>, b: nat, y: Pc, l: LayerId, takes: bool)
    requires b < |xs|
    ensures AllParts(xs[b := y], l, takes) + Parts(Unresolved(xs[b]), l, takes)
         == AllParts(xs, l, takes) + Parts(Unresolved(y), l, takes)
  {
    hide Parts, Unresolved;
    var n := |xs| - 1;
    if b == n {
      assert xs[b := y][..n] == xs[..n];
    } else {
      AllPartsUpdate(xs[..n], b, y, l, takes);
      assert xs[b := y][..n] == xs[..n][b := y];
    }
  }

  /** Unreversed takes from a layer. */
  function Taken(s: State, l: LayerId): nat {
    Parts(s.done, l, true) + AllParts(s.backends, l, true)
  }

  /** What is left of the layer's creation. */
  function Standing(s: State, l: LayerId): nat {
    Parts(s.done, l, false) + AllParts(s.backends, l, false)
  }

  predicate Live(s: State, l: LayerId) {
    l in s.status && !s.status[l].Gone?
  }

  ghost predicate LayerOk(s: State, l: LayerId) {
    && (l !in s.created ==> Taken(s, l) == 0 && Standing(s, l) == 0)
    && (l in s.created ==>
          && l in s.residual && s.residual[l] == Standing(s, l) - Taken(s, l)
          && Standing(s, l) <= s.created[l] && Taken(s, l) <= s.created[l]
          && (Live(s, l) ==> Standing(s, l) == s.created[l]))
  }

  /** A backend's own changes are to layers it may see, and a create it still has to
      settle is of a layer that is its own, or gone. */
  ghost predicate ItemOk(s: State, b: nat, it: Item)
    requires b < |s.backends|
  {
    && it.layer in s.status
    && (s.status[it.layer].Own? ==> s.status[it.layer].b == b && !s.backends[b].Reversing?)
    && (s.status[it.layer].Gone? ==> s.status[it.layer].b == b && s.backends[b].Reversing?)
    && (it.delta > 0 ==> !s.status[it.layer].Committed?)
  }

  ghost predicate BackendOk(s: State, b: nat)
    requires b < |s.backends|
  {
    && (forall i :: 0 <= i < |Unresolved(s.backends[b])| ==> ItemOk(s, b, Unresolved(s.backends[b])[i]))
    && (s.backends[b].Loaded? ==> Visible(s, b, s.backends[b].layer))
  }

  ghost predicate Inv(s: State) {
    && s.residual.Keys == s.created.Keys == s.status.Keys
    && (forall l :: LayerOk(s, l))
    && (forall b :: 0 <= b < |s.backends| ==> BackendOk(s, b))
    && (forall i :: 0 <= i < |s.done| ==> s.done[i].layer in s.status && s.status[s.done[i].layer].Committed?)
    && (forall l :: l in s.status && s.status[l].Own? ==>
          s.status[l].b < |s.backends| && !s.backends[s.status[l].b].Reversing?)
  }

  /** How one backend's step moves the accounts of a layer. */
  lemma Accounts(s: State, t: State, b: nat, l: LayerId)
    requires |t.backends| == |s.backends| && b < |s.backends| && t.backends == s.backends[b := t.backends[b]]
    requires t.done == s.done
    ensures Taken(t, l) + Parts(Unresolved(s.backends[b]), l, true)
         == Taken(s, l) + Parts(Unresolved(t.backends[b]), l, true)
    ensures Standing(t, l) + Parts(Unresolved(s.backends[b]), l, false)
         == Standing(s, l) + Parts(Unresolved(t.backends[b]), l, false)
  {
    hide Parts, Unresolved;
    AllPartsUpdate(s.backends, b, t.backends[b], l, true);
    AllPartsUpdate(s.backends, b, t.backends[b], l, false);
  }

  /** Steps that change no residual, no layer and no unresolved change. */
  lemma QuietKeeps(s: State, t: State, b: nat, pc: Pc)
    requires Inv(s) && b < |s.backends| && t == SetPc(s, b, pc)
    requires Unresolved(pc) == Unresolved(s.backends[b]) && pc.Reversing? == s.backends[b].Reversing?
    requires pc.Loaded? ==> Visible(s, b, pc.layer)
    ensures Inv(t)
  {
    hide Parts, Unresolved, AllParts;
    forall l
      ensures LayerOk(t, l)
    {
      assert LayerOk(s, l);
      Accounts(s, t, b, l);
    }
    hide LayerOk;
    forall c | 0 <= c < |t.backends|
      ensures BackendOk(t, c)
    {
      assert BackendOk(s, c);
    }
  }

  lemma CreateLayers(s: State, t: State, b: nat, applied: seq<Item>, l: LayerId, qty: int, k: LayerId)
    requires Inv(s) && b < |s.backends| && Unresolved(s.backends[b]) == applied
    requires l !in s.created && l != 0 && qty >= 0 && |s.residual| < s.cap
    requires t == CreateStep(s, b, applied, l, qty)
    ensures LayerOk(t, k)
  {
    assert LayerOk(s, k);
    hide Parts, AllParts;
    Accounts(s, t, b, k);
    PartsNext(applied, Item(l, qty, 0, qty), k, true);
    PartsNext(applied, Item(l, qty, 0, qty), k, false);
  }

  lemma CreateKeeps(s: State, t: State, b: nat, applied: seq<Item>, l: LayerId, qty: int)
    requires Inv(s) && b < |s.backends| && s.backends[b] == Running(applied)
    requires l !in s.created && l != 0 && qty >= 0 && |s.residual| < s.cap
    requires t == CreateStep(s, b, applied, l, qty)
    ensures Inv(t)
  {
    forall k
      ensures LayerOk(t, k)
    {
      CreateLayers(s, t, b, applied, l, qty, k);
    }
    hide LayerOk;
    forall c | 0 <= c < |t.backends|
      ensures BackendOk(t, c)
    {
      assert BackendOk(s, c);
      forall i | 0 <= i < |Unresolved(t.backends[c])|
        ensures ItemOk(t, c, Unresolved(t.backends[c])[i])
      {
        if c != b || i < |applied| {
          assert ItemOk(s, c, Unresolved(s.backends[c])[i]);
        }
      }
    }
  }

  lemma TakeLayers(s: State, t: State, b: nat, l: LayerId, take: int, it: Item, k: LayerId)
    requires it.layer == l && it.delta == -take
    requires Inv(s) && b < |s.backends| && l in s.residual && 0 < take <= s.residual[l] && Visible(s, b, l)
    requires t == SetPc(s, b, Running(Unresolved(s.backends[b]) + [it]))
                    .(residual := s.residual[l := s.residual[l] - take])
    ensures LayerOk(t, k)
  {
    assert LayerOk(s, k);
    hide Parts, AllParts;
    Accounts(s, t, b, k);
    PartsNext(Unresolved(s.backends[b]), it, k, true);
    PartsNext(Unresolved(s.backends[b]), it, k, false);
  }

  lemma TakeKeeps(s: State, t: State, b: nat, l: LayerId, take: int, it: Item)
    requires it.layer == l && it.delta == -take
    requires Inv(s) && b < |s.backends| && l in s.residual && 0 < take <= s.residual[l] && Visible(s, b, l)
    requires !s.backends[b].Reversing?
    requires t == SetPc(s, b, Running(Unresolved(s.backends[b]) + [it]))
                    .(residual := s.residual[l := s.residual[l] - take])
    ensures Inv(t)
  {
    forall k
      ensures LayerOk(t, k)
    {
      TakeLayers(s, t, b, l, take, it, k);
    }
    hide LayerOk;
    var applied := Unresolved(s.backends[b]);
    forall c | 0 <= c < |t.backends|
      ensures BackendOk(t, c)
    {
      assert BackendOk(s, c);
      forall i | 0 <= i < |Unresolved(t.backends[c])|
        ensures ItemOk(t, c, Unresolved(t.backends[c])[i])
      {
        if c != b || i < |applied| {
          assert ItemOk(s, c, Unresolved(s.backends[c])[i]);
        }
      }
    }
  }

  lemma SettleCommits(s: State, t: State, b: nat, k: LayerId)
    requires Inv(s) && b < |s.backends| && s.backends[b].Running?
    requires t == SetPc(s, b, Running([]))
                    .(done := s.done + s.backends[b].applied, status := Settle(s.status, b, Committed))
    ensures LayerOk(t, k)
  {
    assert LayerOk(s, k);
    assert Parts([], k, true) == 0 && Parts([], k, false) == 0;
    hide Parts;
    AllPartsUpdate(s.backends, b, Running([]), k, true);
    AllPartsUpdate(s.backends, b, Running([]), k, false);
    PartsAppend(s.done, s.backends[b].applied, k, true);
    PartsAppend(s.done, s.backends[b].applied, k, false);
    hide AllParts;
  }

  lemma CommitKeeps(s: State, t: State, b: nat)
    requires Inv(s) && b < |s.backends| && s.backends[b].Running?
    requires t == SetPc(s, b, Running([]))
                    .(done := s.done + s.backends[b].applied, status := Settle(s.status, b, Committed))
    ensures Inv(t)
  {
    forall k
      ensures LayerOk(t, k)
    {
      SettleCommits(s, t, b, k);
    }
    hide LayerOk;
    assert BackendOk(s, b);
    forall c | 0 <= c < |t.backends|
      ensures BackendOk(t, c)
    {
      assert BackendOk(s, c);
      forall i | 0 <= i < |Unresolved(t.backends[c])|
        ensures ItemOk(t, c, Unresolved(t.backends[c])[i])
      {
        assert ItemOk(s, c, Unresolved(s.backends[c])[i]);
      }
    }
    forall i | 0 <= i < |t.done|
      ensures t.done[i].layer in t.status && t.status[t.done[i].layer].Committed?
    {
      if i >= |s.done| {
        assert ItemOk(s, b, Unresolved(s.backends[b])[i - |s.done|]);
      }
    }
  }

  lemma UnwindLayers(s: State, t: State, b: nat, k: LayerId)
    requires Inv(s) && b < |s.backends| && !s.backends[b].Reversing?
    requires t == Unwind(s, b, Unresolved(s.backends[b]))
    ensures LayerOk(t, k)
  {
    assert LayerOk(s, k);
    hide Parts, AllParts;
    Accounts(s, t, b, k);
  }

  lemma UnwindKeeps(s: State, t: State, b: nat)
    requires Inv(s) && b < |s.backends| && !s.backends[b].Reversing?
    requires t == Unwind(s, b, Unresolved(s.backends[b]))
    ensures Inv(t)
  {
    forall k
      ensures LayerOk(t, k)
    {
      UnwindLayers(s, t, b, k);
    }
    hide LayerOk;
    forall c | 0 <= c < |t.backends|
      ensures BackendOk(t, c)
    {
      assert BackendOk(s, c);
      forall i | 0 <= i < |Unresolved(t.backends[c])|
        ensures ItemOk(t, c, Unresolved(t.backends[c])[i])
      {
        assert ItemOk(s, c, Unresolved(s.backends[c])[i]);
      }
    }
  }

  lemma ReverseLayers(s: State, t: State, b: nat, left: seq<Item>, k: LayerId)
    requires Inv(s) && b < |s.backends| && s.backends[b] == Reversing(left) && left != []
    requires t == ReverseStep(s, b, left)
    ensures LayerOk(t, k)
  {
    assert LayerOk(s, k) && BackendOk(s, b);
    assert ItemOk(s, b, Unresolved(s.backends[b])[0]);
    Accounts(s, t, b, k);
    assert Parts(left, k, true) == Part(left[0], k, true) + Parts(left[1..], k, true);
    assert Parts(left, k, false) == Part(left[0], k, false) + Parts(left[1..], k, false);
    hide Parts, AllParts;
  }

  lemma ReverseKeeps(s: State, t: State, b: nat, left: seq<Item>)
    requires Inv(s) && b < |s.backends| && s.backends[b] == Reversing(left) && left != []
    requires t == ReverseStep(s, b, left)
    ensures Inv(t)
  {
    forall k
      ensures LayerOk(t, k)
    {
      ReverseLayers(s, t, b, left, k);
    }
    hide LayerOk;
    forall c | 0 <= c < |t.backends|
      ensures BackendOk(t, c)
    {
      assert BackendOk(s, c);
      forall i | 0 <= i < |Unresolved(t.backends[c])|
        ensures ItemOk(t, c, Unresolved(t.backends[c])[i])
      {
        var j := if c == b then i + 1 else i;
        assert ItemOk(s, c, Unresolved(s.backends[c])[j]);
      }
    }
    assert BackendOk(s, b) && ItemOk(s, b, Unresolved(s.backends[b])[0]);
  }

  /** A finished abort: the changed layers it owned are gone, nothing is unresolved. */
  lemma ReversedKeeps(s: State, t: State, b: nat)
    requires Inv(s) && b < |s.backends| && s.backends[b] == Reversing([])
    requires t == SetPc(s, b, Running([]))
    ensures Inv(t)
  {
    forall k
      ensures LayerOk(t, k)
    {
      assert LayerOk(s, k);
      hide Parts, AllParts;
      Accounts(s, t, b, k);
    }
    hide LayerOk;
    forall c | 0 <= c < |t.backends|
      ensures BackendOk(t, c)
    {
      assert BackendOk(s, c);
      forall i | 0 <= i < |Unresolved(t.backends[c])|
        ensures ItemOk(t, c, Unresolved(t.backends[c])[i])
      {
        assert ItemOk(s, c, Unresolved(s.backends[c])[i]);
      }
    }
  }

  lemma NextKeepsInv(s: State, e: Event)
    requires Inv(s)
    ensures Inv(Next(s, e))
  {
    if e.b < |s.backends| {
      var t := Next(s, e);
      assert BackendOk(s, e.b);
      assert s.residual.Keys == s.status.Keys;
      hide Inv;
      match (e, s.backends[e.b]) {
        case (Create(b, l, qty), Running(applied)) =>
          if l !in s.created {
            if l == 0 || qty < 0 || |s.residual| >= s.cap {
              UnwindKeeps(s, t, b);
            } else {
              CreateKeeps(s, t, b, applied, l, qty);
            }
          }
        case (Load(b, l, _), Running(_)) =>
          if Visible(s, b, l) && l in s.residual {
            QuietKeeps(s, t, b, t.backends[b]);
          }
        case (Swap(b), Loaded(applied, l, requested, cur)) =>
          if cur > 0 && requested > 0 && l in s.residual && s.residual[l] == cur {
            var take := Min(cur, requested);
            TakeKeeps(s, t, b, l, take, Item(l, -take, requested, cur - take));
          } else {
            QuietKeeps(s, t, b, t.backends[b]);
          }
        case (Commit(b), Running(_)) => CommitKeeps(s, t, b);
        case (Abort(b), Running(_)) => UnwindKeeps(s, t, b);
        case (Reverse(b), Reversing(left)) =>
          if left == [] {
            ReversedKeeps(s, t, b);
          } else {
            ReverseKeeps(s, t, b, left);
          }
        case _ =>
      }
    }
  }

  lemma {:induction false} RunKeepsInv(s: State, es: seq<Event>)
    requires Inv(s)
    ensures Inv(Run(s, es))
  {
    hide Inv, Next;
    if es != [] {
      RunKeepsInv(s, es[..|es| - 1]);
      NextKeepsInv(Run(s, es[..|es| - 1]), es[|es| - 1]);
    }
  }

  function Fresh(n: nat, cap: nat): State {
    State(map[], seq(n, _ => Running([])), cap, map[], map[], [])
  }

  lemma {:induction false} NoParts(xs: seq<Pc>, l: LayerId, takes: bool)
    requires forall b, i :: 0 <= b < |xs| && 0 <= i < |Unresolved(xs[b])| ==> Unresolved(xs[b])[i].layer != l
    ensures AllParts(xs, l, takes) == 0
  {
    if xs != [] {
      var n := |xs| - 1;
      forall b, i | 0 <= b < n && 0 <= i < |Unresolved(xs[..n][b])|
        ensures Unresolved(xs[..n][b])[i].layer != l
      {
        assert xs[..n][b] == xs[b];
      }
      NoParts(xs[..n], l, takes);
      NoneOf(Unresolved(xs[n]), l, takes);
    }
  }

  lemma {:induction false} NoneOf(items: seq<Item>, l: LayerId, takes: bool)
    requires forall i :: 0 <= i < |items| ==> items[i].layer != l
    ensures Parts(items, l, takes) == 0
  {
    if items != [] {
      NoneOf(items[1..], l, takes);
    }
  }

  lemma FreshIsFine(n: nat, cap: nat)
    ensures Inv(Fresh(n, cap))
  {
    forall l
      ensures LayerOk(Fresh(n, cap), l)
    {
      NoParts(Fresh(n, cap).backends, l, true);
      NoParts(Fresh(n, cap).backends, l, false);
    }
  }

  /** In every run, a layer whose creator is not undoing it holds its created quantity
      less the unreversed takes, which is between zero and the created quantity. While
      the creator's abort runs the residual stays within plus or minus that quantity. */
  lemma ResidualsStayWithinBounds(n: nat, cap: nat, es: seq<Event>, l: LayerId)
    ensures var s := Run(Fresh(n, cap), es);
            l in s.created ==>
              && l in s.residual && -s.created[l] <= s.residual[l] <= s.created[l]
              && (Live(s, l) ==> 0 <= s.residual[l] == s.created[l] - Taken(s, l))
  {
    FreshIsFine(n, cap);
    RunKeepsInv(Fresh(n, cap), es);
    assert LayerOk(Run(Fresh(n, cap), es), l);
  }

  /** When the abort of its creator has finished, a layer's residual is back to zero. */
  lemma AbortedLayersAreEmpty(n: nat, cap: nat, es: seq<Event>, l: LayerId)
    ensures var s := Run(Fresh(n, cap), es);
            l in s.status && s.status[l].Gone? && s.status[l].b < |s.backends| && !s.backends[s.status[l].b].Reversing?
            ==> l in s.residual && s.residual[l] == 0
  {
    FreshIsFine(n, cap);
    RunKeepsInv(Fresh(n, cap), es);
    var s := Run(Fresh(n, cap), es);
    assert LayerOk(s, l);
    hide Run, LayerOk;
    if l in s.status && s.status[l].Gone? && s.status[l].b < |s.backends| && !s.backends[s.status[l].b].Reversing? {
      forall b, i | 0 <= b < |s.backends| && 0 <= i < |Unresolved(s.backends[b])|
        ensures Unresolved(s.backends[b])[i].layer != l
      {
        assert BackendOk(s, b);
        assert ItemOk(s, b, Unresolved(s.backends[b])[i]);
      }
      NoParts(s.backends, l, true);
      NoParts(s.backends, l, false);
      NoneOf(s.done, l, true);
      NoneOf(s.done, l, false);
      EmptyAccount(s, l);
    }
  }

  lemma EmptyAccount(s: State, l: LayerId)
    requires LayerOk(s, l) && Taken(s, l) == 0 == Standing(s, l) && l in s.created
    ensures l in s.residual && s.residual[l] == 0
  {
  }

  // ---- Takes are what was asked for -----------------------------------------------

  /** A take is of at least one unit, of no more than was asked for, and of less only if
      it left the layer empty. */
  predicate TakeOk(it: Item) {
    it.delta < 0 ==> 0 < -it.delta <= it.asked && (-it.delta < it.asked ==> it.left == 0)
  }

  ghost predicate ListOk(items: seq<Item>) {
    forall i :: 0 <= i < |items| ==> TakeOk(items[i])
  }

  ghost predicate TakesOk(s: State) {
    ListOk(s.done) && forall b :: 0 <= b < |s.backends| ==> ListOk(Unresolved(s.backends[b]))
  }

  lemma OneBackendKeeps(s: State, t: State, b: nat)
    requires TakesOk(s) && b < |s.backends| == |t.backends| && t.backends == s.backends[b := t.backends[b]]
    requires ListOk(Unresolved(t.backends[b])) && ListOk(t.done)
    ensures TakesOk(t)
  {
    hide ListOk, Unresolved;
  }

  lemma SwapTakes(s: State, b: nat, pc: Pc)
    requires TakesOk(s) && b < |s.backends| && pc.Loaded? && ListOk(pc.applied)
    ensures TakesOk(SwapStep(s, b, pc))
  {
    var t := SwapStep(s, b, pc);
    assert ListOk(Unresolved(t.backends[b])) && t.done == s.done;
    hide ListOk, Unresolved;
    OneBackendKeeps(s, t, b);
  }

  lemma CreateTakes(s: State, b: nat, applied: seq<Item>, l: LayerId, qty: int)
    requires TakesOk(s) && b < |s.backends| && ListOk(applied)
    ensures TakesOk(CreateStep(s, b, applied, l, qty))
  {
    var t := CreateStep(s, b, applied, l, qty);
    if l !in s.created {
      assert ListOk(Unresolved(t.backends[b])) && t.done == s.done;
      hide ListOk, Unresolved;
      OneBackendKeeps(s, t, b);
    }
  }

  lemma ReverseTakes(s: State, b: nat, left: seq<Item>)
    requires TakesOk(s) && b < |s.backends| && ListOk(left)
    ensures TakesOk(ReverseStep(s, b, left))
  {
    var t := ReverseStep(s, b, left);
    assert ListOk(Unresolved(t.backends[b])) && t.done == s.done;
    hide ListOk, Unresolved;
    OneBackendKeeps(s, t, b);
  }

  lemma CommitTakes(s: State, b: nat, applied: seq<Item>)
    requires TakesOk(s) && b < |s.backends| && ListOk(applied)
    ensures TakesOk(SetPc(s, b, Running([])).(done := s.done + applied, status := Settle(s.status, b, Committed)))
  {
    var t := SetPc(s, b, Running([])).(done := s.done + applied, status := Settle(s.status, b, Committed));
    assert ListOk(s.done + applied) && ListOk([]);
    hide ListOk;
    OneBackendKeeps(s, t, b);
  }

  lemma NextKeepsTakes(s: State, e: Event)
    requires TakesOk(s)
    ensures TakesOk(Next(s, e))
  {
    if e.b < |s.backends| {
      var b, t, pc := e.b, Next(s, e), s.backends[e.b];
      assert ListOk(Unresolved(pc));
      hide TakesOk, ListOk, SwapStep, CreateStep, ReverseStep, Settle;
      match (e, pc)
      case (Create(_, l, qty), Running(applied)) => CreateTakes(s, b, applied, l, qty);
      case (Swap(_), Loaded(_, _, _, _)) => SwapTakes(s, b, pc);
      case (Reverse(_), Reversing(left)) => ReverseTakes(s, b, left);
      case (Commit(_), Running(applied)) => CommitTakes(s, b, applied);
      case (Load(_, l, _), Running(_)) =>
        if Visible(s, b, l) && l in s.residual {
          DoneOk(s);
          OneBackendKeeps(s, t, b);
        }
      case (Abort(_), Running(_)) =>
        DoneOk(s);
        OneBackendKeeps(s, t, b);
      case _ =>
    }
  }

  lemma DoneOk(s: State)
    requires TakesOk(s)
    ensures ListOk(s.done)
  {
  }

  lemma {:induction false} RunKeepsTakes(n: nat, cap: nat, es: seq<Event>)
    ensures TakesOk(Run(Fresh(n, cap), es))
  {
    if es == [] {
      assert ListOk([]);
    } else {
      hide Next, TakesOk;
      RunKeepsTakes(n, cap, es[..|es| - 1]);
      NextKeepsTakes(Run(Fresh(n, cap), es[..|es| - 1]), es[|es| - 1]);
    }
  }

  /** Whatever interleaves, no take of any run exceeds what was asked for, and one that
      falls short of it emptied the layer. */
  lemma TakesAreAsAsked(n: nat, cap: nat, es: seq<Event>)
    ensures var s := Run(Fresh(n, cap), es);
            && (forall i :: 0 <= i < |s.done| ==> TakeOk(s.done[i]))
            && (forall b, i :: 0 <= b < |s.backends| && 0 <= i < |Unresolved(s.backends[b])| ==>
                  TakeOk(Unresolved(s.backends[b])[i]))
  {
    hide Run, TakeOk, Unresolved;
    RunKeepsTakes(n, cap, es);
  }

  /** `h_layer_decrement` with nobody else at the layer. */
  function Decremented(s: State, b: nat, l: LayerId, requested: int): State {
    Next(Next(s, Load(b, l, requested)), Swap(b))
  }

  /** It takes the smaller of what is there and what is asked for, and touches nothing
      else; if either is not positive it takes nothing. */
  lemma UndisturbedTake(s: State, b: nat, applied: seq<Item>, l: LayerId, requested: int)
    requires b < |s.backends| && s.backends[b] == Running(applied) && Visible(s, b, l) && l in s.residual
    ensures var t, was := Decremented(s, b, l, requested), s.residual[l];
            && t.created == s.created && t.status == s.status && t.done == s.done && t.cap == s.cap
            && if was <= 0 || requested <= 0 then t.residual == s.residual && t.backends == s.backends
               else
                 var take := if was < requested then was else requested;
                 && t.residual == s.residual[l := was - take]
                 && t.backends == s.backends[b := Running(applied + [Item(l, -take, requested, was - take)])]
  {
    var u := SetPc(s, b, Loaded(applied, l, requested, s.residual[l]));
    assert Next(s, Load(b, l, requested)) == u;
    assert u.backends[b] == Loaded(applied, l, requested, s.residual[l]);
    var t := SwapStep(u, b, u.backends[b]);
    assert Next(u, Swap(b)) == t;
    assert t.backends == s.backends[b := t.backends[b]];
  }
}
