/** Safety of the slot protocol over every interleaving of its steps. */
module SlotSafety {
  import opened Collections
  import opened SlotProtocol

  // ---- The invariant --------------------------------------------------------

  /** Slots the router has packed and not yet published. */
  function Unpublished(r: RouterPc): seq<nat> {
    match r
    case Packing(_, packed) => packed
    case Packed(packed) => packed
    case Allocated(packed, _) => packed
    case RollingBack(packed, _) => packed
    case _ => []
  }

  ghost predicate Fresh(pubs: seq<Publication>, env: Env) {
    forall p :: 0 <= p < |pubs| ==> pubs[p].env != env
  }

  ghost predicate Unclaimed(claims: seq<Claim>, sb: nat) {
    forall p :: 0 <= p < |claims| ==> claims[p].sb != sb
  }

  /** A stamped slot carries its owner's id: the id is stored before the flag. */
  ghost predicate SlotOk(s: State, i: nat)
    requires i < |s.slots|
  {
    var v := s.slots[i];
    && v.valid <= 3 && v.owner <= s.nextSb
    && (v.valid <= 1 ==> v.owner == 0)
    && (i in Unpublished(s.router) <==> v.valid == 2 && v.owner == 0)
    && (v.valid == 3 ==> v.owner != 0 && v.sb == v.owner)
    && (v.valid != 0 ==> v.env < s.nextEnv)
    && (v.valid != 0 && v.owner == 0 ==> Fresh(s.pubs, v.env))
  }

  ghost predicate RouterOk(s: State) {
    && NoDup(Unpublished(s.router))
    && (forall j :: 0 <= j < |Unpublished(s.router)| ==> Unpublished(s.router)[j] < |s.slots|)
    && (s.router.Filled? || s.router.Stamping? ==>
          && 0 < s.router.sb <= s.nextSb
          && forall j :: 0 <= j < |s.router.packed| ==>
               s.router.packed[j] < |s.slots| && s.slots[s.router.packed[j]].owner in {0, s.router.sb})
    && (s.router.Stamping? && s.router.stored ==>
          s.router.packed != [] && s.slots[s.router.packed[0]].sb == s.router.sb)
  }

  /** Every slot of the list still belongs to the SuperBatch and holds the envelope it
      was published with. */
  ghost predicate Owned(slots: seq<Slot>, sb: nat, list: seq<Ref>) {
    && (forall j :: 0 <= j < |list| ==>
          list[j].slot < |slots| && slots[list[j].slot].owner == sb && slots[list[j].slot].env == list[j].env)
    && (forall j, k :: 0 <= j < k < |list| ==> list[j].slot != list[k].slot)
  }

  ghost predicate CqOk(s: State, x: nat)
    requires x < |s.cq|
  {
    var q := s.cq[x];
    && q.valid <= 3
    && (q.valid == 0 ==> !q.owns)
    && (q.valid != 0 ==> 0 < q.sb <= s.nextSb)
    && (q.valid == 1 ==> q.owns && Owned(s.slots, q.sb, q.list) && Unclaimed(s.claims, q.sb))
  }

  ghost predicate InCharge(s: State, c: nat, x: nat, sb: nat, blocks: set<Block>) {
    && x < |s.cq| && s.cq[x].gen == c + 1 && s.cq[x].valid == 2
    && s.cq[x].sb == sb && s.cq[x].owns && s.cq[x].blocks == blocks
  }

  ghost predicate CommitterOk(s: State, c: nat)
    requires c < |s.committers|
  {
    match s.committers[c]
    case CommitterIdle => true
    case Saw(x) => x < |s.cq|
    case Won(x) => x < |s.cq| && s.cq[x].gen == c + 1
    case Undo(x) => x < |s.cq| && s.cq[x].gen == c + 1
    case Busy(x, sb, list, blocks) => InCharge(s, c, x, sb, blocks) && Owned(s.slots, sb, list)
    case Cleaning(x, sb, list, blocks, seen, seenSb, _) =>
      && InCharge(s, c, x, sb, blocks) && Owned(s.slots, sb, list)
      && list != [] && seen == s.slots[list[0].slot].blocks
    case Freeing(x, sb, list, blocks, _) => InCharge(s, c, x, sb, blocks) && Owned(s.slots, sb, list)
    case FreedCq(x) => x < |s.cq| && s.cq[x].gen == c + 1 && s.cq[x].valid == 2 && !s.cq[x].owns
    case Closing(x) => x < |s.cq| && s.cq[x].gen == c + 1 && s.cq[x].valid == 3 && !s.cq[x].owns
    case Closed(x) => x < |s.cq| && s.cq[x].gen == c + 1 && s.cq[x].valid == 0 && !s.cq[x].owns
  }

  ghost predicate SbsDistinct(cq: seq<Cq>) {
    forall x, y :: 0 <= x < y < |cq| && cq[x].valid != 0 && cq[y].valid != 0 ==> cq[x].sb != cq[y].sb
  }

  ghost predicate EnvsDistinct(slots: seq<Slot>) {
    forall i, j :: 0 <= i < j < |slots| && slots[i].valid != 0 && slots[j].valid != 0 ==> slots[i].env != slots[j].env
  }

  /** Who is answerable for freeing a block. */
  datatype Holder = OfSlot(i: nat) | OfCq(x: nat) | OfRouter | OfCommitter(c: nat)

  function Held(s: State, h: Holder): set<Block> {
    match h
    case OfSlot(i) => if i < |s.slots| && s.slots[i].valid != 0 then s.slots[i].blocks else {}
    case OfCq(x) => if x < |s.cq| && s.cq[x].owns then s.cq[x].blocks else {}
    case OfRouter => if s.router.Allocated? || s.router.RollingBack? then s.router.blocks else {}
    case OfCommitter(c) => if c < |s.committers| && s.committers[c].Freeing? then s.committers[c].hold else {}
  }

  ghost predicate HasHolder(s: State, b: Block) {
    exists h :: b in Held(s, h)
  }

  /** The allocated blocks are the held ones, and every block has one holder. */
  ghost predicate BlocksOk(s: State) {
    && !s.doubleFree
    && (forall b :: b in s.live ==> HasHolder(s, b))
    && (forall h :: Held(s, h) <= s.live)
    && (forall h, k :: h != k ==> Held(s, h) !! Held(s, k))
  }

  ghost predicate HistoryOk(s: State) {
    && (forall p :: 0 <= p < |s.pubs| ==> s.pubs[p].env < s.nextEnv)
    && (forall p, q :: 0 <= p < q < |s.pubs| ==> s.pubs[p].env != s.pubs[q].env)
    && (forall p :: 0 <= p < |s.claims| ==> s.claims[p].sb <= s.nextSb)
    && (forall p, q :: 0 <= p < q < |s.claims| ==> s.claims[p].sb != s.claims[q].sb)
  }

  ghost predicate SlotsOk(s: State) {
    (forall i :: 0 <= i < |s.slots| ==> SlotOk(s, i)) && EnvsDistinct(s.slots)
  }

  ghost predicate QueueOk(s: State) {
    (forall x :: 0 <= x < |s.cq| ==> CqOk(s, x)) && SbsDistinct(s.cq)
  }

  ghost predicate CommittersOk(s: State) {
    forall c :: 0 <= c < |s.committers| ==> CommitterOk(s, c)
  }

  ghost predicate Inv(s: State) {
    SlotsOk(s) && RouterOk(s) && QueueOk(s) && CommittersOk(s) && BlocksOk(s) && HistoryOk(s)
  }

  // ---- Steps of a committer that change no slot -----------------------------

  lemma SameHolders(s: State, t: State)
    requires BlocksOk(s) && t.live == s.live && t.doubleFree == s.doubleFree
    requires forall h :: Held(t, h) == Held(s, h)
    ensures BlocksOk(t)
  {
    hide Held;
    forall b | b in t.live
      ensures HasHolder(t, b)
    {
      assert HasHolder(s, b);
      var h :| b in Held(s, h);
      assert b in Held(t, h);
    }
  }

  /** One committer moves and possibly updates the queue entry it is at. */
  lemma CommitterMoves(s: State, t: State, c: nat, x: nat)
    requires Inv(s) && |t.committers| == |s.committers| && c < |s.committers| && x < |s.cq| == |t.cq|
    requires t == s.(committers := s.committers[c := t.committers[c]], cq := s.cq[x := t.cq[x]], claims := t.claims)
    requires t.cq[x] == s.cq[x].(gen := t.cq[x].gen, valid := t.cq[x].valid)
    requires t.cq[x] == s.cq[x] || s.cq[x].gen in {0, c + 1}
    requires CqOk(t, x) && CommitterOk(t, c)
    requires t.cq[x].valid != 0 ==> s.cq[x].valid != 0
    requires t.claims == s.claims || (t.claims == s.claims + [Claim(s.cq[x].sb, c)] && s.cq[x].valid == 1)
    requires Held(t, OfCommitter(c)) == Held(s, OfCommitter(c))
    ensures Inv(t)
  {
    assert forall i :: 0 <= i < |s.slots| && SlotOk(s, i) ==> SlotOk(t, i);
    forall y | 0 <= y < |t.cq|
      ensures CqOk(t, y)
    {
      hide Owned;
      assert CqOk(s, y) && CqOk(s, x);
    }
    forall d | 0 <= d < |t.committers|
      ensures CommitterOk(t, d)
    {
      hide Owned;
      assert CommitterOk(s, d);
    }
    assert HistoryOk(t) by {
      assert CqOk(s, x);
    }
    hide SlotOk, CqOk, CommitterOk, Owned;
    forall h
      ensures Held(t, h) == Held(s, h)
    {
    }
    SameHolders(s, t);
  }

  lemma ReadKeeps(s: State, c: nat, x: nat)
    requires Inv(s) && c < |s.committers| && s.committers[c].CommitterIdle? && x < |s.cq| && s.cq[x].valid == 1
    ensures Inv(Next(s, ClaimRead(c, x)))
  {
    assert CommitterOk(s, c) && CqOk(s, x);
    hide Inv, Owned;
    CommitterMoves(s, Next(s, ClaimRead(c, x)), c, x);
  }

  lemma GenKeeps(s: State, c: nat)
    requires Inv(s) && c < |s.committers| && s.committers[c].Saw?
    ensures Inv(Next(s, ClaimGen(c)))
  {
    assert CommitterOk(s, c) && CqOk(s, s.committers[c].x);
    hide Inv, Owned;
    CommitterMoves(s, Next(s, ClaimGen(c)), c, s.committers[c].x);
  }

  lemma WonKeeps(s: State, c: nat)
    requires Inv(s) && c < |s.committers| && s.committers[c].Won?
    ensures Inv(Next(s, ClaimValid(c)))
  {
    assert CommitterOk(s, c) && CqOk(s, s.committers[c].x);
    hide Inv, Owned;
    CommitterMoves(s, Next(s, ClaimValid(c)), c, s.committers[c].x);
  }

  lemma UndoKeeps(s: State, c: nat)
    requires Inv(s) && c < |s.committers| && s.committers[c].Undo?
    ensures Inv(Next(s, ClaimUndo(c)))
  {
    assert CommitterOk(s, c) && CqOk(s, s.committers[c].x);
    hide Inv, Owned;
    CommitterMoves(s, Next(s, ClaimUndo(c)), c, s.committers[c].x);
  }

  lemma CompleteKeeps(s: State, c: nat)
    requires Inv(s) && c < |s.committers| && s.committers[c].FreedCq?
    ensures Inv(Next(s, Complete(c)))
  {
    assert CommitterOk(s, c) && CqOk(s, s.committers[c].x);
    hide Inv, Owned;
    CommitterMoves(s, Next(s, Complete(c)), c, s.committers[c].x);
  }

  lemma VacateKeeps(s: State, c: nat)
    requires Inv(s) && c < |s.committers| && s.committers[c].Closing?
    ensures Inv(Next(s, Vacate(c)))
  {
    assert CommitterOk(s, c) && CqOk(s, s.committers[c].x);
    hide Inv, Owned;
    CommitterMoves(s, Next(s, Vacate(c)), c, s.committers[c].x);
  }

  lemma ForgetKeeps(s: State, c: nat)
    requires Inv(s) && c < |s.committers| && s.committers[c].Closed?
    ensures Inv(Next(s, Forget(c)))
  {
    assert CommitterOk(s, c) && CqOk(s, s.committers[c].x);
    hide Inv, Owned;
    CommitterMoves(s, Next(s, Forget(c)), c, s.committers[c].x);
  }

  lemma CleanReadKeeps(s: State, c: nat)
    requires Inv(s) && c < |s.committers| && s.committers[c].Busy? && s.committers[c].list != []
    ensures Inv(Next(s, CleanRead(c)))
  {
    assert CommitterOk(s, c) && CqOk(s, s.committers[c].x);
    hide Inv, Owned;
    CommitterMoves(s, Next(s, CleanRead(c)), c, s.committers[c].x);
  }

  lemma ClaimKeeps(s: State, e: Event)
    requires Inv(s) && (e.ClaimRead? || e.ClaimGen? || e.ClaimValid? || e.ClaimUndo?)
    ensures Inv(Next(s, e))
  {
    hide Inv;
    if e.c < |s.committers| {
      match (e, s.committers[e.c]) {
        case (ClaimRead(c, x), CommitterIdle) =>
          if x < |s.cq| && s.cq[x].valid == 1 {
            ReadKeeps(s, c, x);
          }
        case (ClaimGen(c), Saw(_)) => GenKeeps(s, c);
        case (ClaimValid(c), Won(_)) => WonKeeps(s, c);
        case (ClaimUndo(c), Undo(_)) => UndoKeeps(s, c);
        case _ =>
      }
    }
  }

  lemma CloseKeeps(s: State, e: Event)
    requires Inv(s) && (e.CleanRead? || e.Complete? || e.Vacate? || e.Forget?)
    ensures Inv(Next(s, e))
  {
    hide Inv;
    if e.c < |s.committers| {
      match (e, s.committers[e.c]) {
        case (CleanRead(c), Busy(_, _, list, _)) =>
          if list != [] {
            CleanReadKeeps(s, c);
          }
        case (Complete(c), FreedCq(_)) => CompleteKeeps(s, c);
        case (Vacate(c), Closing(_)) => VacateKeeps(s, c);
        case (Forget(c), Closed(_)) => ForgetKeeps(s, c);
        case _ =>
      }
    }
  }

  // ---- Freeing --------------------------------------------------------------

  /** A holder lets go of what it holds, and those blocks are freed. */
  lemma FreeHeld(s: State, t: State, h: Holder)
    requires BlocksOk(s) && t.live == s.live - Held(s, h) && t.doubleFree == (s.doubleFree || !(Held(s, h) <= s.live))
    requires Held(t, h) == {} && forall k :: k != h ==> Held(t, k) == Held(s, k)
    ensures BlocksOk(t)
  {
    forall k
      ensures Held(t, k) <= t.live
    {
      assert Held(s, k) <= s.live;
      if k != h {
        assert Held(s, h) !! Held(s, k);
      }
    }
    forall k, l | k != l
      ensures Held(t, k) !! Held(t, l)
    {
      assert Held(s, k) !! Held(s, l);
    }
    assert Held(s, h) <= s.live;
    forall b | b in t.live
      ensures HasHolder(t, b)
    {
      assert HasHolder(s, b);
      var k :| b in Held(s, k);
      assert b in Held(t, k);
    }
  }

  lemma FreeSlotKeeps(s: State, c: nat)
    requires Inv(s) && c < |s.committers| && s.committers[c].Freeing?
    ensures Inv(Next(s, FreeSlot(c)))
  {
    var t := Next(s, FreeSlot(c));
    assert CommitterOk(s, c);
    assert forall i :: 0 <= i < |s.slots| && SlotOk(s, i) ==> SlotOk(t, i);
    assert forall x :: 0 <= x < |s.cq| && CqOk(s, x) ==> CqOk(t, x);
    assert forall d :: 0 <= d < |s.committers| && d != c && CommitterOk(s, d) ==> CommitterOk(t, d);
    hide SlotOk, CqOk, Owned;
    FreeHeld(s, t, OfCommitter(c));
  }

  lemma FreeCqQueue(s: State, t: State, c: nat)
    requires QueueOk(s) && CommittersOk(s) && c < |s.committers| && s.committers[c].Busy? && s.committers[c].list == []
    requires t == Next(s, FreeCq(c))
    ensures QueueOk(t) && CommittersOk(t)
  {
    hide Owned;
    var x := s.committers[c].x;
    assert CommitterOk(s, c) && CqOk(s, x);
    forall y | 0 <= y < |t.cq|
      ensures CqOk(t, y)
    {
      assert CqOk(s, y);
    }
    forall d | 0 <= d < |t.committers|
      ensures CommitterOk(t, d)
    {
      assert CommitterOk(s, d);
    }
  }

  lemma FreeCqKeeps(s: State, c: nat)
    requires Inv(s) && c < |s.committers| && s.committers[c].Busy? && s.committers[c].list == []
    ensures Inv(Next(s, FreeCq(c)))
  {
    var t := Next(s, FreeCq(c));
    assert CommitterOk(s, c);
    FreeCqQueue(s, t, c);
    hide QueueOk, CommittersOk, CommitterOk, Unpublished, Owned;
    assert forall i :: 0 <= i < |s.slots| && SlotOk(s, i) ==> SlotOk(t, i);
    hide SlotOk, NoDup;
    FreeHeld(s, t, OfCq(s.committers[c].x));
  }

  // ---- Cleaning a slot ------------------------------------------------------

  /** Blocks move from one holder to another. */
  lemma MoveHeld(s: State, t: State, from: Holder, to: Holder)
    requires BlocksOk(s) && t.live == s.live && t.doubleFree == s.doubleFree && from != to
    requires Held(s, to) == {} && Held(t, to) == Held(s, from) && Held(t, from) == {}
    requires forall k :: k != from && k != to ==> Held(t, k) == Held(s, k)
    ensures BlocksOk(t)
  {
    forall k
      ensures Held(t, k) <= t.live
    {
      assert Held(s, k) <= s.live && Held(s, from) <= s.live;
    }
    forall k, l | k != l
      ensures Held(t, k) !! Held(t, l)
    {
      assert Held(s, k) !! Held(s, l);
      assert k != from ==> Held(s, from) !! Held(s, k);
      assert l != from ==> Held(s, from) !! Held(s, l);
    }
    forall b | b in t.live
      ensures HasHolder(t, b)
    {
      assert HasHolder(s, b);
      var k :| b in Held(s, k);
      assert b in Held(t, if k == from then to else k);
    }
  }

  /** Giving up a slot of one SuperBatch leaves the lists of the others alone. */
  lemma OwnedElsewhere(slots: seq<Slot>, sb: nat, list: seq<Ref>, i: nat, v: Slot)
    requires Owned(slots, sb, list) && i < |slots| && slots[i].owner != sb
    ensures Owned(slots[i := v], sb, list)
  {
  }

  lemma OwnedRest(slots: seq<Slot>, sb: nat, list: seq<Ref>, v: Slot)
    requires Owned(slots, sb, list) && list != []
    ensures Owned(slots[list[0].slot := v], sb, list[1..])
  {
  }

  lemma TakeSlots(s: State, t: State, i: nat)
    requires SlotsOk(s) && RouterOk(s) && i < |s.slots| && s.slots[i].owner != 0
    requires t.slots == s.slots[i := s.slots[i].(valid := 0, owner := 0)]
    requires t.router == s.router && t.nextSb == s.nextSb && t.nextEnv == s.nextEnv && t.pubs == s.pubs
    ensures SlotsOk(t) && RouterOk(t)
  {
    forall j | 0 <= j < |t.slots|
      ensures SlotOk(t, j)
    {
      hide Unpublished, Fresh;
      assert SlotOk(s, j);
    }
    hide SlotOk, Unpublished, NoDup;
  }

  lemma TakeKeeps(s: State, t: State, c: nat, pc: CommitterPc)
    requires Inv(s) && c < |s.committers| && s.committers[c] == pc && pc.Cleaning? && pc.list != []
    requires pc.list[0].slot < |s.slots| && s.slots[pc.list[0].slot].valid != 0
    requires t == SetCommitter(SetSlot(s, pc.list[0].slot, s.slots[pc.list[0].slot].(valid := 0, owner := 0)), c,
                               Freeing(pc.x, pc.sb, pc.list[1..], pc.blocks, pc.seen))
    ensures Inv(t)
  {
    var i := pc.list[0].slot;
    assert CommitterOk(s, c) && CqOk(s, pc.x);
    assert s.slots[i].owner == pc.sb != 0;
    TakeSlots(s, t, i);
    OwnedRest(s.slots, pc.sb, pc.list, t.slots[i]);
    hide SlotsOk, RouterOk, Owned;
    forall x | 0 <= x < |t.cq|
      ensures CqOk(t, x)
    {
      assert CqOk(s, x);
      if s.cq[x].valid == 1 {
        OwnedElsewhere(s.slots, s.cq[x].sb, s.cq[x].list, i, t.slots[i]);
      }
    }
    forall d | 0 <= d < |t.committers|
      ensures CommitterOk(t, d)
    {
      TakeOthers(s, t, c, pc, d);
    }
    hide CqOk, CommitterOk;
    TakeHeld(s, t, c, pc);
  }

  lemma TakeOthers(s: State, t: State, c: nat, pc: CommitterPc, d: nat)
    requires Inv(s) && c < |s.committers| && s.committers[c] == pc && pc.Cleaning? && pc.list != []
    requires pc.list[0].slot < |s.slots|
    requires t == SetCommitter(SetSlot(s, pc.list[0].slot, s.slots[pc.list[0].slot].(valid := 0, owner := 0)), c,
                               Freeing(pc.x, pc.sb, pc.list[1..], pc.blocks, pc.seen))
    requires d < |t.committers|
    ensures CommitterOk(t, d)
  {
    var i := pc.list[0].slot;
    assert CommitterOk(s, c) && CommitterOk(s, d);
    assert s.slots[i].owner == pc.sb;
    if d == c {
      OwnedRest(s.slots, pc.sb, pc.list, t.slots[i]);
    } else {
      var pd := s.committers[d];
      if pd.Busy? || pd.Cleaning? || pd.Freeing? {
        assert s.cq[pd.x].gen != s.cq[pc.x].gen;
        assert pd.sb != pc.sb;
        OwnedElsewhere(s.slots, pd.sb, pd.list, i, t.slots[i]);
        if pd.Cleaning? {
          assert s.slots[pd.list[0].slot].owner == pd.sb;
        }
      }
    }
    hide Owned, SlotsOk, RouterOk, QueueOk, BlocksOk;
  }

  lemma TakeHeld(s: State, t: State, c: nat, pc: CommitterPc)
    requires BlocksOk(s) && c < |s.committers| && s.committers[c] == pc && pc.Cleaning? && pc.list != []
    requires pc.list[0].slot < |s.slots| && s.slots[pc.list[0].slot].valid != 0
    requires pc.seen == s.slots[pc.list[0].slot].blocks
    requires t == SetCommitter(SetSlot(s, pc.list[0].slot, s.slots[pc.list[0].slot].(valid := 0, owner := 0)), c,
                               Freeing(pc.x, pc.sb, pc.list[1..], pc.blocks, pc.seen))
    ensures BlocksOk(t)
  {
    hide BlocksOk;
    MoveHeld(s, t, OfSlot(pc.list[0].slot), OfCommitter(c));
  }

  lemma MissKeeps(s: State, t: State, c: nat, pc: CommitterPc)
    requires Inv(s) && c < |s.committers| && s.committers[c].Cleaning? && s.committers[c].list != []
    requires t == SetCommitter(s, c, pc)
    requires var was := s.committers[c];
             pc == was.(tried := true) || pc == Busy(was.x, was.sb, was.list[1..], was.blocks)
    ensures Inv(t)
  {
    assert CommitterOk(s, c) && CqOk(s, s.committers[c].x);
    hide Inv;
    CommitterMoves(s, t, c, s.committers[c].x);
  }

  lemma CleansAList(s: State, c: nat)
    requires CommittersOk(s) && c < |s.committers| && s.committers[c].Cleaning?
    ensures s.committers[c].list != [] && s.committers[c].list[0].slot < |s.slots|
  {
    assert CommitterOk(s, c);
  }

  lemma CleanKeeps(s: State, e: Event)
    requires Inv(s) && (e.CleanStamped? || e.CleanUnstamped?)
    ensures Inv(Next(s, e))
  {
    if e.c < |s.committers| && s.committers[e.c].Cleaning? && e.CleanStamped? == !s.committers[e.c].tried {
      var t := Next(s, e);
      var pc := s.committers[e.c];
      CleansAList(s, e.c);
      hide Inv, CommitterOk;
      if t.committers[e.c].Freeing? {
        TakeKeeps(s, t, e.c, pc);
      } else {
        MissKeeps(s, t, e.c, t.committers[e.c]);
      }
    }
  }

  // ---- The router -----------------------------------------------------------

  /** The router moves without touching slots, queue or blocks. */
  lemma RouterMoves(s: State, t: State)
    requires Inv(s) && t == s.(router := t.router)
    requires Unpublished(t.router) == Unpublished(s.router) && Held(t, OfRouter) == Held(s, OfRouter)
    requires RouterOk(t)
    ensures Inv(t)
  {
    assert forall i :: 0 <= i < |s.slots| && SlotOk(s, i) ==> SlotOk(t, i);
    assert forall x :: 0 <= x < |s.cq| && CqOk(s, x) ==> CqOk(t, x);
    assert forall d :: 0 <= d < |s.committers| && CommitterOk(s, d) ==> CommitterOk(t, d);
    hide SlotOk, CqOk, CommitterOk, RouterOk;
    SameHolders(s, t);
  }

  /** A slot changes its flag or its stamp, and neither its envelope, its blocks nor its
      owner. */
  lemma FlagOthers(s: State, t: State, i: nat)
    requires QueueOk(s) && CommittersOk(s) && i < |s.slots| == |t.slots|
    requires t == s.(slots := s.slots[i := t.slots[i]], router := t.router)
    requires t.slots[i] == s.slots[i].(valid := t.slots[i].valid, sb := t.slots[i].sb)
    ensures QueueOk(t) && CommittersOk(t)
  {
    forall sb: nat, list: seq<Ref> | Owned(s.slots, sb, list)
      ensures Owned(t.slots, sb, list)
    {
      assert forall j :: 0 <= j < |s.slots| ==>
               t.slots[j].owner == s.slots[j].owner && t.slots[j].env == s.slots[j].env;
    }
    forall x | 0 <= x < |t.cq|
      ensures CqOk(t, x)
    {
      hide Owned;
      assert CqOk(s, x);
    }
    forall d | 0 <= d < |t.committers|
      ensures CommitterOk(t, d)
    {
      assert CommitterOk(s, d);
    }
  }

  lemma FlagKeeps(s: State, t: State, i: nat)
    requires Inv(s) && i < |s.slots| == |t.slots|
    requires t == s.(slots := s.slots[i := t.slots[i]], router := t.router)
    requires t.slots[i] == s.slots[i].(valid := t.slots[i].valid, sb := t.slots[i].sb)
    requires t.slots[i].valid != 0 <==> s.slots[i].valid != 0
    requires Held(t, OfRouter) == Held(s, OfRouter)
    requires RouterOk(t) && SlotOk(t, i)
    requires forall j :: j != i ==> (j in Unpublished(t.router) <==> j in Unpublished(s.router))
    ensures Inv(t)
  {
    FlagOthers(s, t, i);
    forall j | 0 <= j < |t.slots|
      ensures SlotOk(t, j)
    {
      hide Unpublished, Fresh;
      assert SlotOk(s, j);
    }
    hide SlotOk, QueueOk, CommittersOk, RouterOk, Unpublished;
    SameHolders(s, t);
  }

  lemma PackKeeps(s: State, e: Event)
    requires Inv(s) && (e.PackOne? || e.PackEnd?)
    ensures Inv(Next(s, e))
  {
    var t := Next(s, e);
    if s.router.Packing? {
      var i := if s.router.chunk == [] then 0 else s.router.chunk[0];
      if e.PackOne? && s.router.chunk != [] && i < |s.slots| && s.slots[i].valid == 1 {
        assert SlotOk(s, i);
        hide Inv, Fresh;
        PackedMore(s, t, i);
        FlagKeeps(s, t, i);
      } else {
        RouterMoves(s, t);
      }
    }
  }

  lemma PackedMore(s: State, t: State, i: nat)
    requires Inv(s) && s.router.Packing? && s.router.chunk != [] && s.router.chunk[0] == i
    requires i < |s.slots| && s.slots[i].valid == 1 && t == Next(s, PackOne)
    ensures RouterOk(t) && i !in s.router.packed
  {
    assert SlotOk(s, i);
  }

  lemma RollKeeps(s: State)
    requires Inv(s) && s.router.RollingBack? && s.router.packed != []
    ensures Inv(Next(s, RollOne))
  {
    var t := Next(s, RollOne);
    var i := s.router.packed[0];
    assert i in Unpublished(s.router);
    assert SlotOk(s, i);
    RolledBack(s, t, i);
    hide Inv, Fresh;
    FlagKeeps(s, t, i);
  }

  lemma RolledBack(s: State, t: State, i: nat)
    requires Inv(s) && s.router.RollingBack? && s.router.packed != [] && s.router.packed[0] == i
    requires i < |s.slots| && t == Next(s, RollOne)
    ensures RouterOk(t) && i !in Unpublished(t.router)
    ensures forall j :: j != i ==> (j in Unpublished(t.router) <==> j in Unpublished(s.router))
  {
    var p := s.router.packed;
    assert Unpublished(t.router) == p[1..];
    assert forall j :: j in p <==> j == p[0] || j in p[1..];
  }

  lemma RollEndKeeps(s: State)
    requires Inv(s) && s.router.RollingBack? && s.router.packed == []
    ensures Inv(Next(s, RollEnd))
  {
    var t := Next(s, RollEnd);
    assert forall i :: 0 <= i < |s.slots| && SlotOk(s, i) ==> SlotOk(t, i);
    assert forall x :: 0 <= x < |s.cq| && CqOk(s, x) ==> CqOk(t, x);
    assert forall d :: 0 <= d < |s.committers| && CommitterOk(s, d) ==> CommitterOk(t, d);
    hide SlotOk, CqOk, CommitterOk;
    FreeHeld(s, t, OfRouter);
  }

  lemma StampStoreKeeps(s: State)
    requires Inv(s) && s.router.Stamping? && s.router.packed != [] && !s.router.stored
    ensures Inv(Next(s, StampStore))
  {
    var t := Next(s, StampStore);
    var i := s.router.packed[0];
    assert SlotOk(s, i);
    assert s.slots[i].owner in {0, s.router.sb};
    assert RouterOk(t);
    hide Inv, Fresh, RouterOk;
    FlagKeeps(s, t, i);
  }

  lemma StampFlagKeeps(s: State)
    requires Inv(s) && s.router.Stamping? && s.router.packed != [] && s.router.stored
    ensures Inv(Next(s, StampFlag))
  {
    var t := Next(s, StampFlag);
    var i := s.router.packed[0];
    assert SlotOk(s, i);
    assert s.slots[i].owner in {0, s.router.sb};
    assert RouterOk(t);
    hide Inv, Fresh, RouterOk;
    FlagKeeps(s, t, i);
  }

  /** New blocks go to a holder that had none. */
  lemma AllocHeld(s: State, t: State, h: Holder)
    requires BlocksOk(s) && Held(t, h) !! s.live && t.live == s.live + Held(t, h) && t.doubleFree == s.doubleFree
    requires Held(s, h) == {} && forall k :: k != h ==> Held(t, k) == Held(s, k)
    ensures BlocksOk(t)
  {
    forall k
      ensures Held(t, k) <= t.live
    {
      assert Held(s, k) <= s.live;
    }
    forall k, l | k != l
      ensures Held(t, k) !! Held(t, l)
    {
      assert Held(s, k) !! Held(s, l) && Held(s, k) <= s.live && Held(s, l) <= s.live;
    }
    forall b | b in t.live
      ensures HasHolder(t, b)
    {
      if b in s.live {
        assert HasHolder(s, b);
        var k :| b in Held(s, k);
        assert b in Held(t, k);
      } else {
        assert b in Held(t, h);
      }
    }
  }

  lemma AllocKeeps(s: State, blocks: set<Block>)
    requires Inv(s) && s.router.Packed? && blocks !! s.live
    ensures Inv(Next(s, Alloc(blocks)))
  {
    var t := Next(s, Alloc(blocks));
    assert forall i :: 0 <= i < |s.slots| && SlotOk(s, i) ==> SlotOk(t, i);
    assert forall x :: 0 <= x < |s.cq| && CqOk(s, x) ==> CqOk(t, x);
    assert forall d :: 0 <= d < |s.committers| && CommitterOk(s, d) ==> CommitterOk(t, d);
    hide SlotOk, CqOk, CommitterOk;
    AllocHeld(s, t, OfRouter);
  }

  lemma RouterKeeps(s: State, e: Event)
    requires Inv(s)
    requires e.PackStart? || e.PackOne? || e.PackEnd? || e.Alloc? || e.AllocFail? || e.FillFail? || e.RollOne?
             || e.RollEnd?
          || e.StampStart? || e.StampStore? || e.StampFlag? || e.StampEnd?
    ensures Inv(Next(s, e))
  {
    hide Inv;
    match e {
      case PackOne => PackKeeps(s, e);
      case PackEnd => PackKeeps(s, e);
      case Alloc(blocks) =>
        if s.router.Packed? && blocks !! s.live {
          AllocKeeps(s, blocks);
        }
      case RollOne =>
        if s.router.RollingBack? && s.router.packed != [] {
          RollKeeps(s);
        }
      case RollEnd =>
        if s.router.RollingBack? && s.router.packed == [] {
          RollEndKeeps(s);
        }
      case StampStore =>
        if s.router.Stamping? && s.router.packed != [] && !s.router.stored {
          StampStoreKeeps(s);
        }
      case StampFlag =>
        if s.router.Stamping? && s.router.packed != [] && s.router.stored {
          StampFlagKeeps(s);
        }
      case _ => MoveKeeps(s, e);
    }
  }

  lemma MoveKeeps(s: State, e: Event)
    requires Inv(s) && (e.PackStart? || e.AllocFail? || e.FillFail? || e.StampStart? || e.StampEnd?)
    ensures Inv(Next(s, e))
  {
    var t := Next(s, e);
    assert RouterOk(t) && Unpublished(t.router) == Unpublished(s.router);
    hide Inv, RouterOk;
    if t != s {
      RouterMoves(s, t);
    }
  }

  // ---- Push -----------------------------------------------------------------

  lemma PushSlots(s: State, t: State, i: nat, blocks: set<Block>)
    requires SlotsOk(s) && RouterOk(s) && HistoryOk(s) && i < |s.slots| && s.slots[i].valid == 0 && !StagingShared(s)
    requires t == SetSlot(s, i, Slot(1, 0, s.nextEnv, blocks, 0)).(nextEnv := s.nextEnv + 1, live := s.live + blocks)
    ensures SlotsOk(t) && RouterOk(t) && HistoryOk(t)
  {
    assert SlotOk(s, i);
    forall j | 0 <= j < |t.slots|
      ensures SlotOk(t, j)
    {
      hide Unpublished;
      assert SlotOk(s, j);
    }
    forall j, k | 0 <= j < k < |t.slots| && t.slots[j].valid != 0 && t.slots[k].valid != 0
      ensures t.slots[j].env != t.slots[k].env
    {
      assert SlotOk(s, j) && SlotOk(s, k);
    }
    hide SlotOk;
  }

  lemma PushOthers(s: State, t: State, i: nat, blocks: set<Block>)
    requires SlotsOk(s) && QueueOk(s) && CommittersOk(s) && i < |s.slots| && s.slots[i].valid == 0 && !StagingShared(s)
    requires t == SetSlot(s, i, Slot(1, 0, s.nextEnv, blocks, 0)).(nextEnv := s.nextEnv + 1, live := s.live + blocks)
    ensures QueueOk(t) && CommittersOk(t)
  {
    assert SlotOk(s, i);
    forall x | 0 <= x < |t.cq|
      ensures CqOk(t, x)
    {
      assert CqOk(s, x);
      hide Owned;
      if s.cq[x].valid == 1 {
        OwnedElsewhere(s.slots, s.cq[x].sb, s.cq[x].list, i, t.slots[i]);
      }
    }
    forall d | 0 <= d < |t.committers|
      ensures CommitterOk(t, d)
    {
      assert CommitterOk(s, d);
      hide Owned;
      var pd := s.committers[d];
      if pd.Busy? || pd.Freeing? {
        assert CqOk(s, pd.x);
        OwnedElsewhere(s.slots, pd.sb, pd.list, i, t.slots[i]);
      }
    }
  }

  lemma PushKeeps(s: State, i: nat, blocks: set<Block>)
    requires Inv(s)
    ensures Inv(Next(s, Push(i, blocks)))
  {
    if i < |s.slots| && s.slots[i].valid == 0 && !StagingShared(s) && blocks !! s.live {
      var t := Next(s, Push(i, blocks));
      PushSlots(s, t, i, blocks);
      PushOthers(s, t, i, blocks);
      hide SlotsOk, RouterOk, QueueOk, CommittersOk, HistoryOk, BlocksOk;
      AllocHeld(s, t, OfSlot(i));
    }
  }

  // ---- Fill -----------------------------------------------------------------

  /** What filling entry x changes, point by point. */
  ghost predicate FillFacts(s: State, t: State, x: nat, packed: seq<nat>) {
    && s.router.Allocated? && packed == s.router.packed && t.router == Filled(s.nextSb + 1, packed)
    && |t.slots| == |s.slots| && t.nextSb == s.nextSb + 1 && t.nextEnv == s.nextEnv && t.claims == s.claims
    && (forall j :: 0 <= j < |s.slots| ==>
          t.slots[j] == if j in packed then s.slots[j].(owner := s.nextSb + 1) else s.slots[j])
    && |t.pubs| == |s.pubs| + |packed| && (forall p :: 0 <= p < |s.pubs| ==> t.pubs[p] == s.pubs[p])
    && (forall p :: 0 <= p < |packed| && packed[p] < |s.slots| ==> t.pubs[|s.pubs| + p].env == s.slots[packed[p]].env)
  }

  lemma FillEffect(s: State, t: State, x: nat)
    requires s.router.Allocated? && x < |s.cq| && s.cq[x].valid == 0 && !QueueShared(s) && t == Next(s, Fill(x))
    ensures FillFacts(s, t, x, s.router.packed)
  {
    PublishFacts(s.slots, s.router.packed, s.nextSb + 1);
    PubsFacts(s.slots, s.router.packed, s.nextSb + 1);
    hide QueueShared, Publish, PubsOf, RefsOf;
  }

  lemma PublishFacts(slots: seq<Slot>, packed: seq<nat>, sb: nat)
    ensures var r := Publish(slots, packed, sb);
            forall j :: 0 <= j < |slots| ==> r[j] == if j in packed then slots[j].(owner := sb) else slots[j]
  {
  }

  lemma PubsFacts(slots: seq<Slot>, packed: seq<nat>, sb: nat)
    ensures var r := PubsOf(RefsOf(slots, packed), sb);
            forall p :: 0 <= p < |packed| && packed[p] < |slots| ==> r[p].env == slots[packed[p]].env
  {
  }

  /** A new publication is of a slot that was packed, with an envelope not published
      before. */
  lemma NewPub(s: State, t: State, x: nat, p: nat) returns (i: nat)
    requires SlotsOk(s) && RouterOk(s) && s.router.Allocated? && FillFacts(s, t, x, s.router.packed)
    requires |s.pubs| <= p < |t.pubs|
    ensures i == s.router.packed[p - |s.pubs|] && i in s.router.packed && i < |s.slots|
    ensures s.slots[i].valid == 2 && s.slots[i].owner == 0 && t.pubs[p].env == s.slots[i].env < s.nextEnv
    ensures Fresh(s.pubs, s.slots[i].env)
  {
    i := s.router.packed[p - |s.pubs|];
    assert Unpublished(s.router)[p - |s.pubs|] == i;
    assert SlotOk(s, i);
  }

  lemma FillSlot(s: State, t: State, x: nat, j: nat)
    requires SlotsOk(s) && RouterOk(s) && s.router.Allocated? && FillFacts(s, t, x, s.router.packed) && j < |s.slots|
    ensures SlotOk(t, j)
  {
    assert SlotOk(s, j);
    if t.slots[j].valid != 0 && t.slots[j].owner == 0 {
      forall p | 0 <= p < |t.pubs|
        ensures t.pubs[p].env != t.slots[j].env
      {
        if p >= |s.pubs| {
          var i := NewPub(s, t, x, p);
          assert i != j && (i < j || j < i);
        }
      }
    }
    hide SlotsOk, RouterOk, Fresh;
  }

  lemma FillSlots(s: State, t: State, x: nat)
    requires SlotsOk(s) && RouterOk(s) && s.router.Allocated? && FillFacts(s, t, x, s.router.packed)
    ensures SlotsOk(t) && RouterOk(t)
  {
    forall j | 0 <= j < |t.slots|
      ensures SlotOk(t, j)
    {
      FillSlot(s, t, x, j);
    }
    hide SlotOk;
    var packed := s.router.packed;
    forall j | 0 <= j < |packed|
      ensures packed[j] < |t.slots| && t.slots[packed[j]].owner == t.nextSb
    {
      assert Unpublished(s.router)[j] < |s.slots| && packed[j] in packed;
    }
  }

  lemma FillHistory(s: State, t: State, x: nat)
    requires SlotsOk(s) && RouterOk(s) && HistoryOk(s) && s.router.Allocated? && FillFacts(s, t, x, s.router.packed)
    ensures HistoryOk(t)
  {
    forall p | 0 <= p < |t.pubs|
      ensures t.pubs[p].env < t.nextEnv
    {
      hide SlotsOk, RouterOk;
      if p >= |s.pubs| {
        var _ := NewPub(s, t, x, p);
      }
    }
    forall p, q | 0 <= p < q < |t.pubs|
      ensures t.pubs[p].env != t.pubs[q].env
    {
      NewPubsDiffer(s, t, x, p, q);
    }
    hide SlotsOk, RouterOk;
  }

  lemma NewPubsDiffer(s: State, t: State, x: nat, p: nat, q: nat)
    requires SlotsOk(s) && RouterOk(s) && HistoryOk(s) && s.router.Allocated? && FillFacts(s, t, x, s.router.packed)
    requires p < q < |t.pubs|
    ensures t.pubs[p].env != t.pubs[q].env
  {
    if q >= |s.pubs| {
      var i := NewPub(s, t, x, q);
      if p >= |s.pubs| {
        var j := NewPub(s, t, x, p);
        assert Unpublished(s.router)[p - |s.pubs|] != Unpublished(s.router)[q - |s.pubs|];
        assert i < j || j < i;
        assert EnvsDistinct(s.slots);
      }
    }
    hide SlotsOk, RouterOk;
  }

  /** The freshly published list is owned, and the lists of earlier SuperBatches are
      untouched because the packed slots had no owner. */
  lemma FillOwned(s: State, t: State, x: nat)
    requires SlotsOk(s) && RouterOk(s) && s.router.Allocated? && x < |s.cq| && s.cq[x].valid == 0
    requires !QueueShared(s) && t == Next(s, Fill(x))
    ensures Owned(t.slots, s.nextSb + 1, RefsOf(s.slots, s.router.packed))
    ensures forall sb, list :: sb != 0 && Owned(s.slots, sb, list) ==> Owned(t.slots, sb, list)
  {
    var packed := s.router.packed;
    assert forall j :: 0 <= j < |packed| ==> packed[j] in packed && packed[j] < |s.slots|;
    forall sb: nat, list: seq<Ref> | sb != 0 && Owned(s.slots, sb, list)
      ensures Owned(t.slots, sb, list)
    {
      forall j | 0 <= j < |list|
        ensures t.slots[list[j].slot] == s.slots[list[j].slot]
      {
        assert SlotOk(s, list[j].slot);
      }
    }
  }

  lemma FillOthers(s: State, t: State, x: nat)
    requires SlotsOk(s) && RouterOk(s) && QueueOk(s) && CommittersOk(s) && HistoryOk(s)
    requires s.router.Allocated? && x < |s.cq| && s.cq[x].valid == 0 && !QueueShared(s) && t == Next(s, Fill(x))
    ensures QueueOk(t) && CommittersOk(t)
  {
    FillOwned(s, t, x);
    hide Owned, SlotsOk;
    assert CqOk(s, x);
    forall y | 0 <= y < |t.cq|
      ensures CqOk(t, y)
    {
      assert CqOk(s, y);
    }
    forall y, z | 0 <= y < z < |t.cq| && t.cq[y].valid != 0 && t.cq[z].valid != 0
      ensures t.cq[y].sb != t.cq[z].sb
    {
      assert CqOk(s, y) && CqOk(s, z);
    }
    forall d | 0 <= d < |t.committers|
      ensures CommitterOk(t, d)
    {
      FillCommitter(s, t, x, d);
    }
  }

  lemma FillCommitter(s: State, t: State, x: nat, d: nat)
    requires QueueOk(s) && CommittersOk(s) && d < |s.committers|
    requires s.router.Allocated? && x < |s.cq| && s.cq[x].valid == 0 && !QueueShared(s) && t == Next(s, Fill(x))
    requires forall sb, list :: sb != 0 && Owned(s.slots, sb, list) ==> Owned(t.slots, sb, list)
    ensures CommitterOk(t, d)
  {
    assert CommitterOk(s, d);
    var pd := s.committers[d];
    assert !HoldsQueue(pd);
    if pd.Busy? || pd.Cleaning? || pd.Freeing? {
      assert CqOk(s, pd.x);
      assert Owned(t.slots, pd.sb, pd.list);
    }
  }

  lemma FillHolder(s: State, t: State, x: nat, k: Holder)
    requires s.router.Allocated? && x < |s.cq| && s.cq[x].valid == 0 && !s.cq[x].owns
    requires !QueueShared(s) && t == Next(s, Fill(x)) && FillFacts(s, t, x, s.router.packed)
    ensures k == OfRouter ==> Held(t, k) == {}
    ensures k == OfCq(x) ==> Held(s, k) == {} && Held(t, k) == Held(s, OfRouter)
    ensures k != OfRouter && k != OfCq(x) ==> Held(t, k) == Held(s, k)
  {
    hide QueueShared, Publish, PubsOf, RefsOf;
  }

  lemma FillHeld(s: State, t: State, x: nat)
    requires BlocksOk(s) && s.router.Allocated? && x < |s.cq| && s.cq[x].valid == 0 && !s.cq[x].owns
    requires !QueueShared(s) && t == Next(s, Fill(x))
    ensures BlocksOk(t)
  {
    FillEffect(s, t, x);
    assert t.live == s.live && t.doubleFree == s.doubleFree;
    hide *;
    forall k
      ensures k == OfRouter ==> Held(t, k) == {}
      ensures k == OfCq(x) ==> Held(s, k) == {} && Held(t, k) == Held(s, OfRouter)
      ensures k != OfRouter && k != OfCq(x) ==> Held(t, k) == Held(s, k)
    {
      FillHolder(s, t, x, k);
    }
    MoveHeld(s, t, OfRouter, OfCq(x));
  }

  lemma FillKeeps(s: State, x: nat)
    requires Inv(s)
    ensures Inv(Next(s, Fill(x)))
  {
    if s.router.Allocated? && x < |s.cq| && s.cq[x].valid == 0 && !QueueShared(s) {
      var t := Next(s, Fill(x));
      assert CqOk(s, x) && !s.cq[x].owns;
      hide SlotsOk, RouterOk, QueueOk, CommittersOk, HistoryOk, BlocksOk, CqOk;
      FillEffect(s, t, x);
      FillSlots(s, t, x);
      FillHistory(s, t, x);
      FillOthers(s, t, x);
      FillHeld(s, t, x);
    }
  }

  // ---- Whole runs -----------------------------------------------------------

  lemma NextKeepsInv(s: State, e: Event)
    requires Inv(s)
    ensures Inv(Next(s, e))
  {
    hide Inv;
    match e {
      case Push(i, blocks) => PushKeeps(s, i, blocks);
      case Fill(x) => FillKeeps(s, x);
      case ClaimRead(_, _) => ClaimKeeps(s, e);
      case ClaimGen(_) => ClaimKeeps(s, e);
      case ClaimValid(_) => ClaimKeeps(s, e);
      case ClaimUndo(_) => ClaimKeeps(s, e);
      case CleanRead(_) => CloseKeeps(s, e);
      case Complete(_) => CloseKeeps(s, e);
      case Vacate(_) => CloseKeeps(s, e);
      case Forget(_) => CloseKeeps(s, e);
      case CleanStamped(_) => CleanKeeps(s, e);
      case CleanUnstamped(_) => CleanKeeps(s, e);
      case FreeSlot(c) =>
        if c < |s.committers| && s.committers[c].Freeing? {
          FreeSlotKeeps(s, c);
        }
      case FreeCq(c) =>
        if c < |s.committers| && s.committers[c].Busy? && s.committers[c].list == [] {
          FreeCqKeeps(s, c);
        }
      case _ => RouterKeeps(s, e);
    }
  }

  lemma {:induction false} RunKeepsInv(s: State, es: seq<Event>)
    requires Inv(s)
    ensures Inv(Run(s, es))
  {
    hide Inv, Next;
    if es != [] {
      RunKeepsInv(s, es[..|es| - 1]);
      NextKeepsInv(Run(s, es[..|es| - 1]), es[|es| - 1]);
    }
  }

  /** Empty queues, an empty arena and idle workers. */
  function Empty(slots: nat, entries: nat, committers: nat): State {
    State(seq(slots, _ => Slot(0, 0, 0, {}, 0)), seq(entries, _ => Cq(0, 0, 0, [], {}, false)), {},
          RouterIdle, seq(committers, _ => CommitterIdle), 0, 0, [], [], false)
  }

  lemma EmptyIsFine(slots: nat, entries: nat, committers: nat)
    ensures Inv(Empty(slots, entries, committers))
  {
  }

  /** No interleaving lets two committers claim one SuperBatch. */
  lemma ClaimedOnce(n: nat, m: nat, k: nat, es: seq<Event>, p: nat, q: nat)
    ensures var s := Run(Empty(n, m, k), es); p < q < |s.claims| ==> s.claims[p].sb != s.claims[q].sb
  {
    EmptyIsFine(n, m, k);
    RunKeepsInv(Empty(n, m, k), es);
  }

  /** No envelope is published in two SuperBatches, or twice in one. */
  lemma PublishedOnce(n: nat, m: nat, k: nat, es: seq<Event>, p: nat, q: nat)
    ensures var s := Run(Empty(n, m, k), es); p < q < |s.pubs| ==> s.pubs[p].env != s.pubs[q].env
  {
    EmptyIsFine(n, m, k);
    RunKeepsInv(Empty(n, m, k), es);
  }

  /** Every block freed, by a committer or by the router, was allocated at that moment
      and had that worker as its only holder, even when a committer cleans up before
      the router has stamped. */
  lemma NoDoubleFree(n: nat, m: nat, k: nat, es: seq<Event>, h: Holder, g: Holder)
    ensures var s := Run(Empty(n, m, k), es);
            !s.doubleFree && Held(s, h) <= s.live && (h != g ==> Held(s, h) !! Held(s, g))
  {
    EmptyIsFine(n, m, k);
    RunKeepsInv(Empty(n, m, k), es);
    assert BlocksOk(Run(Empty(n, m, k), es));
    hide Held, Run;
  }

  /** No block is lost: whatever is allocated is held by one worker, slot or entry that
      will free it. */
  lemma NoBlockIsLost(n: nat, m: nat, k: nat, es: seq<Event>, b: Block)
    ensures var s := Run(Empty(n, m, k), es); b in s.live <==> exists h :: b in Held(s, h)
  {
    EmptyIsFine(n, m, k);
    RunKeepsInv(Empty(n, m, k), es);
    var s := Run(Empty(n, m, k), es);
    hide Held, Run, Empty;
    if b in s.live {
      assert HasHolder(s, b);
    }
    if h :| b in Held(s, h) {
      assert Held(s, h) <= s.live;
    }
  }

  /** Until a committer has cleaned a slot of its SuperBatch, the slot holds the envelope
      it was published with; and two committers are never at the same SuperBatch. */
  lemma CommittersKeepTheirSlots(n: nat, m: nat, k: nat, es: seq<Event>, c: nat, d: nat, j: nat)
    ensures var s := Run(Empty(n, m, k), es);
            c < |s.committers| && s.committers[c].Busy? ==>
              && (j < |s.committers[c].list| ==>
                    && s.committers[c].list[j].slot < |s.slots|
                    && s.slots[s.committers[c].list[j].slot].env == s.committers[c].list[j].env
                    && s.slots[s.committers[c].list[j].slot].valid in {2, 3})
              && (d < |s.committers| && s.committers[d].Busy? && d != c ==> s.committers[c].sb != s.committers[d].sb)
  {
    EmptyIsFine(n, m, k);
    RunKeepsInv(Empty(n, m, k), es);
    var s := Run(Empty(n, m, k), es);
    hide Run, Empty;
    if c < |s.committers| && s.committers[c].Busy? {
      assert CommitterOk(s, c);
      assert CqOk(s, s.committers[c].x);
      if j < |s.committers[c].list| {
        assert SlotOk(s, s.committers[c].list[j].slot);
      }
      if d < |s.committers| && s.committers[d].Busy? && d != c {
        assert CommitterOk(s, d);
        assert s.committers[c].x != s.committers[d].x;
      }
    }
  }

  /** A reader that sees the stamped flag also sees the id of the owning SuperBatch. */
  lemma StampBeforeFlag(n: nat, m: nat, k: nat, es: seq<Event>, i: nat)
    ensures var s := Run(Empty(n, m, k), es);
            i < |s.slots| && s.slots[i].valid == 3 ==> s.slots[i].sb == s.slots[i].owner != 0
  {
    EmptyIsFine(n, m, k);
    RunKeepsInv(Empty(n, m, k), es);
    var s := Run(Empty(n, m, k), es);
    hide Run, Empty;
    if i < |s.slots| {
      assert SlotOk(s, i);
    }
  }
}
