/**
  Slots left behind by the clean-up of a SuperBatch (committer.rs, cleanup_after_superbatch):
  the committer first tries the stamped flag, if it saw its own id, and then the packed
  one. A router that stamps the slot between the two makes both attempts fail, and nobody
  is left who would free the slot. When the router is done stamping a SuperBatch before its
  committer starts to clean up, every slot is freed.
*/
module SlotLeftovers {
  import opened SlotAccounts
  import opened SlotProtocol
  import opened SlotSafety

  ghost predicate Refers(list: seq<Ref>, i: nat) {
    exists j :: 0 <= j < |list| && list[j].slot == i
  }

  predicate HasList(pc: CommitterPc) {
    pc.Busy? || pc.Cleaning? || pc.Freeing?
  }

  ghost predicate EntryWants(s: State, x: nat, i: nat, sb: nat) {
    x < |s.cq| && s.cq[x].valid == 1 && s.cq[x].sb == sb && Refers(s.cq[x].list, i)
  }

  ghost predicate WorkerWants(s: State, c: nat, i: nat, sb: nat) {
    c < |s.committers| && HasList(s.committers[c]) && s.committers[c].sb == sb && Refers(s.committers[c].list, i)
  }

  /** The SuperBatch that owns the slot is still to clean it. */
  ghost predicate Wanted(s: State, i: nat, sb: nat) {
    (exists x: nat :: EntryWants(s, x, i, sb)) || (exists c: nat :: WorkerWants(s, c, i, sb))
  }

  ghost predicate NoneLeft(s: State) {
    forall i :: 0 <= i < |s.slots| && s.slots[i].valid != 0 && s.slots[i].owner != 0 ==> Wanted(s, i, s.slots[i].owner)
  }

  /** The router has not finished stamping the SuperBatch. */
  predicate AtStamps(s: State, sb: nat) {
    (s.router.Filled? || s.router.Stamping?) && s.router.sb == sb
  }

  /** Published and not yet stamped slots are on the router's list. */
  ghost predicate ToStamp(s: State) {
    forall i :: 0 <= i < |s.slots| && s.slots[i].valid == 2 && s.slots[i].owner != 0 ==>
      AtStamps(s, s.slots[i].owner) && i in s.router.packed
  }

  /** A committer that cleans saw its own id on a stamped slot. */
  ghost predicate SawStamp(s: State, c: nat) {
    c < |s.committers| && s.committers[c].Cleaning? ==>
      var pc := s.committers[c];
      !pc.tried && pc.seenSb == pc.sb && pc.list != [] && pc.list[0].slot < |s.slots|
      && s.slots[pc.list[0].slot].valid == 3
  }

  ghost predicate StampsSeen(s: State) {
    forall c: nat :: SawStamp(s, c)
  }

  // ---- what the router still has to stamp ---------------------------------------

  lemma RouterToStamp(s: State, e: Event)
    requires Inv(s) && ToStamp(s)
    ensures ToStamp(RouterStep(s, e))
  {
    var t := RouterStep(s, e);
    forall i | 0 <= i < |t.slots| && t.slots[i].valid == 2 && t.slots[i].owner != 0
      ensures AtStamps(t, t.slots[i].owner) && i in t.router.packed
    {
      assert i < |s.slots| && SlotOk(s, i);
      hide Inv, SlotOk;
      RouterKeepsOne(s, e, i);
    }
  }

  /** A slot that is still to be stamped was so before, and stays on the list. */
  lemma RouterKeepsOne(s: State, e: Event, i: nat)
    requires i < |s.slots| == |RouterStep(s, e).slots| && (s.slots[i].valid <= 1 ==> s.slots[i].owner == 0)
    requires s.slots[i].valid == 2 && s.slots[i].owner != 0 ==> AtStamps(s, s.slots[i].owner) && i in s.router.packed
    requires var v := RouterStep(s, e).slots[i]; v.valid == 2 && v.owner != 0
    ensures var t := RouterStep(s, e); AtStamps(t, t.slots[i].owner) && i in t.router.packed
  {
  }

  lemma NextToStamp(s: State, e: Event)
    requires Inv(s) && ToStamp(s)
    ensures ToStamp(Next(s, e))
  {
    hide Inv, RouterStep, ClaimStep, CleanStep, PushStep, FillStep;
    if e.Push? || e.Fill? || e.CleanStamped? || e.CleanUnstamped? {
      SlotsToStamp(s, e);
    } else if e.ClaimRead? || e.ClaimGen? || e.ClaimValid? || e.ClaimUndo? {
      ClaimLeavesSlots(s, e);
    } else if e.CleanRead? || e.FreeSlot? || e.FreeCq? || e.Complete? || e.Vacate? || e.Forget? {
      CleanLeavesSlots(s, e);
    } else {
      hide ToStamp;
      RouterToStamp(s, e);
    }
  }

  lemma ClaimLeavesSlots(s: State, e: Event)
    requires e.ClaimRead? || e.ClaimGen? || e.ClaimValid? || e.ClaimUndo?
    ensures var t := ClaimStep(s, e); t.slots == s.slots && t.router == s.router
  {
  }

  lemma CleanLeavesSlots(s: State, e: Event)
    requires e.CleanRead? || e.FreeSlot? || e.FreeCq? || e.Complete? || e.Vacate? || e.Forget?
    ensures var t := CleanStep(s, e); t.slots == s.slots && t.router == s.router
  {
  }

  lemma SlotsToStamp(s: State, e: Event)
    requires ToStamp(s) && (e.Push? || e.Fill? || e.CleanStamped? || e.CleanUnstamped?)
    ensures ToStamp(Next(s, e))
  {
    var t := Next(s, e);
    if e.Fill? {
      if t != s {
        FillEffect(s, t, e.x);
        hide FillStep;
        FillToStamp(s, t, e.x);
      }
    } else if e.Push? {
      hide StagingShared, FillStep, CleanStep, RouterStep, ClaimStep;
    } else {
      hide PushStep, FillStep, RouterStep, ClaimStep;
      TakeToStamp(s, e);
    }
  }

  lemma TakeToStamp(s: State, e: Event)
    requires ToStamp(s) && (e.CleanStamped? || e.CleanUnstamped?)
    ensures ToStamp(CleanStep(s, e))
  {
  }

  lemma FillToStamp(s: State, t: State, x: nat)
    requires ToStamp(s) && s.router.Allocated? && FillFacts(s, t, x, s.router.packed)
    ensures ToStamp(t)
  {
  }

  // ---- steps that take nothing off a list -----------------------------------------

  /** No slot gets an owner, and no list loses a slot. */
  ghost predicate KeepsLists(s: State, t: State) {
    && |t.slots| == |s.slots| && |t.cq| == |s.cq| && |t.committers| == |s.committers|
    && (forall i :: 0 <= i < |s.slots| && t.slots[i].valid != 0 && t.slots[i].owner != 0 ==>
          s.slots[i].valid != 0 && s.slots[i].owner == t.slots[i].owner)
    && (forall x :: 0 <= x < |s.cq| && s.cq[x].valid == 1 ==>
          t.cq[x].valid == 1 && t.cq[x].sb == s.cq[x].sb && t.cq[x].list == s.cq[x].list)
    && (forall c :: 0 <= c < |s.committers| && HasList(s.committers[c]) && s.committers[c].list != [] ==>
          HasList(t.committers[c]) && t.committers[c].sb == s.committers[c].sb
          && t.committers[c].list == s.committers[c].list)
  }

  lemma StillWanted(s: State, t: State, i: nat, sb: nat)
    requires KeepsLists(s, t) && Wanted(s, i, sb)
    ensures Wanted(t, i, sb)
  {
    hide HasList;
    if x: nat :| EntryWants(s, x, i, sb) {
      assert EntryWants(t, x, i, sb);
    } else {
      var c: nat :| WorkerWants(s, c, i, sb);
      assert WorkerWants(t, c, i, sb);
    }
  }

  lemma NoneLeftStill(s: State, t: State)
    requires NoneLeft(s) && KeepsLists(s, t)
    ensures NoneLeft(t)
  {
    hide Wanted;
    forall i | 0 <= i < |t.slots| && t.slots[i].valid != 0 && t.slots[i].owner != 0
      ensures Wanted(t, i, t.slots[i].owner)
    {
      StillWanted(s, t, i, s.slots[i].owner);
    }
  }

  /** The committers keep what is on their lists. */
  ghost predicate SameWorkLists(s: State, t: State) {
    && |t.committers| == |s.committers|
    && forall c :: 0 <= c < |s.committers| && HasList(s.committers[c]) && s.committers[c].list != [] ==>
         HasList(t.committers[c]) && t.committers[c].sb == s.committers[c].sb
         && t.committers[c].list == s.committers[c].list
  }

  lemma StillKeepsLists(s: State, t: State)
    requires Still(s, t) && SameWorkLists(s, t)
    ensures KeepsLists(s, t)
  {
    hide HasList;
  }

  lemma RouterKeepsLists(s: State, e: Event)
    ensures KeepsLists(s, RouterStep(s, e))
  {
    hide RouterStep, KeepsLists, Still;
    RouterIsStill(s, e);
    StillKeepsLists(s, RouterStep(s, e));
  }

  lemma ClaimKeepsLists(s: State, e: Event)
    requires e.ClaimRead? || e.ClaimGen? || e.ClaimUndo?
    ensures KeepsLists(s, ClaimStep(s, e))
  {
    hide KeepsLists, Still;
    ClaimIsStill(s, e);
    StillKeepsLists(s, ClaimStep(s, e));
  }

  lemma CleanKeepsLists(s: State, e: Event)
    requires e.CleanRead? || e.FreeSlot? || e.FreeCq? || e.Complete? || e.Vacate? || e.Forget?
    ensures KeepsLists(s, CleanStep(s, e))
  {
    hide KeepsLists, Still;
    CleanIsStill(s, e);
    StillKeepsLists(s, CleanStep(s, e));
  }

  lemma PushKeepsLists(s: State, i: nat, blocks: set<Block>)
    ensures KeepsLists(s, PushStep(s, i, blocks))
  {
    hide StagingShared;
  }

  // ---- steps that move a list -------------------------------------------------------

  lemma ClaimMoves(s: State, c: nat)
    requires NoneLeft(s)
    ensures NoneLeft(ClaimStep(s, ClaimValid(c)))
  {
    var t := ClaimStep(s, ClaimValid(c));
    if t.claims == s.claims {
      NoneLeftStill(s, t);
    } else {
      forall i | 0 <= i < |t.slots| && t.slots[i].valid != 0 && t.slots[i].owner != 0
        ensures Wanted(t, i, t.slots[i].owner)
      {
        ClaimWants(s, t, c, i, s.slots[i].owner);
      }
    }
  }

  lemma ClaimWants(s: State, t: State, c: nat, i: nat, sb: nat)
    requires t == ClaimStep(s, ClaimValid(c)) && t.claims != s.claims && Wanted(s, i, sb)
    ensures Wanted(t, i, sb)
  {
    hide Refers;
    if x: nat :| EntryWants(s, x, i, sb) {
      if t.cq[x].valid == 1 {
        assert EntryWants(t, x, i, sb);
      } else {
        assert WorkerWants(t, c, i, sb);
      }
    } else {
      var d: nat :| WorkerWants(s, d, i, sb);
      assert WorkerWants(t, d, i, sb);
    }
  }

  lemma FillMoves(s: State, x: nat)
    requires NoneLeft(s)
    ensures NoneLeft(FillStep(s, x))
  {
    hide NoneLeft;
    var t := FillStep(s, x);
    if s.router.Allocated? && x < |s.cq| && s.cq[x].valid == 0 && !QueueShared(s) {
      hide FillStep, Listed, FillFacts;
      FillEffect(s, t, x);
      FillLists(s, t, x);
      FilledLeavesNone(s, t, x);
    }
  }

  lemma FilledLeavesNone(s: State, t: State, x: nat)
    requires NoneLeft(s) && s.router.Allocated? && FillFacts(s, t, x, s.router.packed) && Listed(s, t, x)
    ensures NoneLeft(t)
  {
    hide Wanted, Listed;
    forall i | 0 <= i < |t.slots| && t.slots[i].valid != 0 && t.slots[i].owner != 0
      ensures Wanted(t, i, t.slots[i].owner)
    {
      if i in s.router.packed {
        FilledWants(s, t, x, i);
      } else {
        FillWants(s, t, x, i, s.slots[i].owner);
      }
    }
  }

  /** The new entry lists the packed slots; the other entries and the workers stay. */
  ghost predicate Listed(s: State, t: State, x: nat) {
    && x < |s.cq| && |t.cq| == |s.cq| && s.router.Allocated? && s.cq[x].valid == 0
    && t.cq[x].valid == 1 && t.cq[x].sb == s.nextSb + 1 && |t.cq[x].list| == |s.router.packed|
    && (forall j :: 0 <= j < |s.router.packed| ==> t.cq[x].list[j].slot == s.router.packed[j])
    && (forall y :: 0 <= y < |s.cq| && y != x ==> t.cq[y] == s.cq[y])
    && t.committers == s.committers
  }

  lemma FillLists(s: State, t: State, x: nat)
    requires s.router.Allocated? && x < |s.cq| && s.cq[x].valid == 0 && !QueueShared(s) && t == FillStep(s, x)
    ensures Listed(s, t, x)
  {
    hide QueueShared, Publish, PubsOf;
  }

  lemma FilledWants(s: State, t: State, x: nat, i: nat)
    requires Listed(s, t, x) && i in s.router.packed
    ensures Wanted(t, i, s.nextSb + 1)
  {
    var j :| 0 <= j < |s.router.packed| && s.router.packed[j] == i;
    assert t.cq[x].list[j].slot == i;
    assert EntryWants(t, x, i, s.nextSb + 1);
  }

  lemma FillWants(s: State, t: State, x: nat, i: nat, sb: nat)
    requires Listed(s, t, x) && Wanted(s, i, sb)
    ensures Wanted(t, i, sb)
  {
    hide Refers;
    if y: nat :| EntryWants(s, y, i, sb) {
      assert EntryWants(t, y, i, sb);
    } else {
      var c: nat :| WorkerWants(s, c, i, sb);
      assert WorkerWants(t, c, i, sb);
    }
  }

  /** A clean-up that saw the stamp frees the slot. */
  lemma CleanMoves(s: State, c: nat)
    requires NoneLeft(s) && StampsSeen(s)
    ensures NoneLeft(CleanStep(s, CleanStamped(c)))
  {
    var t := CleanStep(s, CleanStamped(c));
    assert SawStamp(s, c);
    if c < |s.committers| && s.committers[c].Cleaning? {
      var i := s.committers[c].list[0].slot;
      forall j | 0 <= j < |t.slots| && t.slots[j].valid != 0 && t.slots[j].owner != 0
        ensures Wanted(t, j, t.slots[j].owner)
      {
        CleanWants(s, t, c, j, s.slots[j].owner);
      }
    }
  }

  lemma CleanWants(s: State, t: State, c: nat, j: nat, sb: nat)
    requires SawStamp(s, c) && c < |s.committers| && s.committers[c].Cleaning? && Wanted(s, j, sb)
    requires t == CleanStep(s, CleanStamped(c)) && j != s.committers[c].list[0].slot
    ensures Wanted(t, j, sb)
  {
    if x: nat :| EntryWants(s, x, j, sb) {
      assert EntryWants(t, x, j, sb);
    } else {
      var d: nat :| WorkerWants(s, d, j, sb);
      if d == c {
        RestRefers(s.committers[c].list, j);
      }
      assert WorkerWants(t, d, j, sb);
    }
  }

  lemma RestRefers(list: seq<Ref>, j: nat)
    requires Refers(list, j) && list != [] && list[0].slot != j
    ensures Refers(list[1..], j)
  {
    var h :| 0 <= h < |list| && list[h].slot == j;
    assert list[1..][h - 1].slot == j;
  }

  // ---- the committers ---------------------------------------------------------------

  /** The step is not a committer starting to clean a slot while the router is still at
      the stamps of its SuperBatch. */
  ghost predicate Patient(s: State, e: Event) {
    e.CleanRead? && e.c < |s.committers| && s.committers[e.c].Busy? ==> !AtStamps(s, s.committers[e.c].sb)
  }

  ghost predicate AllPatient(s: State, es: seq<Event>) {
    es == [] || (AllPatient(s, es[..|es| - 1]) && Patient(Run(s, es[..|es| - 1]), es[|es| - 1]))
  }

  /** A slot that is read by a patient committer carries the committer's id and flag. */
  lemma PatientSees(s: State, c: nat)
    requires Inv(s) && ToStamp(s) && Patient(s, CleanRead(c)) && c < |s.committers| && s.committers[c].Busy?
    ensures SawStamp(CleanStep(s, CleanRead(c)), c)
  {
    var pc := s.committers[c];
    assert CommitterOk(s, c) && CqOk(s, pc.x);
    if pc.list != [] {
      var i := pc.list[0].slot;
      assert SlotOk(s, i);
    }
  }

  /** Nobody else takes the slot or its stamp away. */
  lemma StampStays(s: State, e: Event, c: nat)
    requires Inv(s) && StampsSeen(s) && c < |s.committers| && s.committers[c].Cleaning?
    requires !((e.CleanStamped? || e.CleanUnstamped?) && e.c == c)
    ensures SawStamp(Next(s, e), c)
  {
    assert SawStamp(s, c);
    var i := s.committers[c].list[0].slot;
    assert CommitterOk(s, c) && CqOk(s, s.committers[c].x) && SlotOk(s, i);
    if e.CleanStamped? || e.CleanUnstamped? {
      OtherTakesOther(s, e, c);
    } else {
      hide Inv, StampsSeen, Next;
      StepLeaves(s, e);
    }
  }

  /** What a step leaves alone: the other committers, a committer that cleans, and stamps. */
  ghost predicate LeavesCleaners(s: State, t: State, e: Event) {
    && |t.committers| == |s.committers| && |t.slots| == |s.slots|
    && (forall i :: 0 <= i < |s.slots| && s.slots[i].valid == 3 ==> t.slots[i].valid == 3)
    && (forall c :: 0 <= c < |s.committers| ==>
          t.committers[c] == s.committers[c]
          || (!s.committers[c].Cleaning? && (t.committers[c].Cleaning? ==> e == CleanRead(c) && s.committers[c].Busy?)))
  }

  lemma RouterLeaves(s: State, e: Event)
    ensures LeavesCleaners(s, RouterStep(s, e), e)
  {
  }

  lemma ClaimLeaves(s: State, e: Event)
    requires e.ClaimRead? || e.ClaimGen? || e.ClaimValid? || e.ClaimUndo?
    ensures LeavesCleaners(s, ClaimStep(s, e), e)
  {
  }

  lemma CleanLeaves(s: State, e: Event)
    requires e.CleanRead? || e.FreeSlot? || e.FreeCq? || e.Complete? || e.Vacate? || e.Forget?
    ensures LeavesCleaners(s, CleanStep(s, e), e)
  {
  }

  lemma PushLeaves(s: State, e: Event)
    requires e.Push? || e.Fill?
    ensures LeavesCleaners(s, Next(s, e), e)
  {
    hide StagingShared, QueueShared, RefsOf, PubsOf;
  }

  lemma StepLeaves(s: State, e: Event)
    requires !e.CleanStamped? && !e.CleanUnstamped?
    ensures LeavesCleaners(s, Next(s, e), e)
  {
    hide LeavesCleaners, RouterStep, ClaimStep, CleanStep, PushStep, FillStep;
    if e.Push? || e.Fill? {
      PushLeaves(s, e);
    } else if e.ClaimRead? || e.ClaimGen? || e.ClaimValid? || e.ClaimUndo? {
      ClaimLeaves(s, e);
    } else if e.CleanRead? || e.FreeSlot? || e.FreeCq? || e.Complete? || e.Vacate? || e.Forget? {
      CleanLeaves(s, e);
    } else {
      RouterLeaves(s, e);
    }
  }

  lemma OtherTakesOther(s: State, e: Event, c: nat)
    requires Inv(s) && SawStamp(s, c) && c < |s.committers| && s.committers[c].Cleaning?
    requires (e.CleanStamped? || e.CleanUnstamped?) && e.c != c
    ensures SawStamp(Next(s, e), c)
  {
    if e.c < |s.committers| && s.committers[e.c].Cleaning? {
      OwnersDiffer(s, c, e.c);
    }
    hide Inv;
  }

  lemma OwnersDiffer(s: State, c: nat, d: nat)
    requires Inv(s) && c < |s.committers| && s.committers[c].Cleaning?
    requires d < |s.committers| && s.committers[d].Cleaning? && c != d
    ensures s.committers[c].list != [] && s.committers[d].list != []
    ensures s.committers[c].list[0].slot != s.committers[d].list[0].slot
  {
    assert CommitterOk(s, c) && CommitterOk(s, d);
    var x, y := s.committers[c].x, s.committers[d].x;
    assert CqOk(s, x) && CqOk(s, y) && x != y;
    assert s.cq[x].sb != s.cq[y].sb;
    hide Inv, CqOk;
  }

  lemma OneStampSeen(s: State, e: Event, c: nat)
    requires Inv(s) && ToStamp(s) && StampsSeen(s) && Patient(s, e)
    ensures SawStamp(Next(s, e), c)
  {
    if c < |s.committers| && s.committers[c].Cleaning? {
      if (e.CleanStamped? || e.CleanUnstamped?) && e.c == c {
        assert SawStamp(s, c);
        hide Inv, ToStamp, StampsSeen;
      } else {
        StampStays(s, e, c);
      }
    } else if e == CleanRead(c) && c < |s.committers| && s.committers[c].Busy? {
      PatientSees(s, c);
    } else {
      hide Inv, ToStamp, StampsSeen;
      NotYetCleaning(s, e, c);
    }
  }

  lemma NotYetCleaning(s: State, e: Event, c: nat)
    requires c < |s.committers| ==> !s.committers[c].Cleaning?
    requires !(e == CleanRead(c) && c < |s.committers| && s.committers[c].Busy?)
    ensures c < |Next(s, e).committers| ==> !Next(s, e).committers[c].Cleaning?
  {
    if e.CleanStamped? || e.CleanUnstamped? {
      hide RouterStep, ClaimStep, PushStep, FillStep;
    } else {
      hide Next;
      StepLeaves(s, e);
    }
  }

  // ---- whole runs ---------------------------------------------------------------------

  lemma NextLeavesNone(s: State, e: Event)
    requires Inv(s) && NoneLeft(s) && StampsSeen(s)
    ensures NoneLeft(Next(s, e))
  {
    hide Inv, NoneLeft, KeepsLists, RouterStep, ClaimStep, FillStep, PushStep;
    if e.Push? {
      PushKeepsLists(s, e.slot, e.blocks);
      NoneLeftStill(s, Next(s, e));
    } else if e.Fill? {
      FillMoves(s, e.x);
    } else if e.ClaimValid? {
      ClaimMoves(s, e.c);
    } else if e.CleanStamped? {
      CleanMoves(s, e.c);
    } else if e.CleanUnstamped? {
      assert SawStamp(s, e.c);
    } else {
      hide CleanStep, StampsSeen;
      OthersKeepLists(s, e);
      NoneLeftStill(s, Next(s, e));
    }
  }

  lemma OthersKeepLists(s: State, e: Event)
    requires !Moves(e)
    ensures KeepsLists(s, Next(s, e))
  {
    hide KeepsLists, RouterStep, ClaimStep, CleanStep;
    if e.ClaimRead? || e.ClaimGen? || e.ClaimUndo? {
      ClaimKeepsLists(s, e);
    } else if e.CleanRead? || e.FreeSlot? || e.FreeCq? || e.Complete? || e.Vacate? || e.Forget? {
      CleanKeepsLists(s, e);
    } else {
      RouterKeepsLists(s, e);
    }
  }

  lemma {:induction false} PatientRun(s: State, es: seq<Event>)
    requires Inv(s) && ToStamp(s) && NoneLeft(s) && StampsSeen(s) && AllPatient(s, es)
    ensures var t := Run(s, es); Inv(t) && ToStamp(t) && NoneLeft(t) && StampsSeen(t)
  {
    hide Inv, ToStamp, NoneLeft, Next, Patient, SawStamp;
    if es != [] {
      PatientRun(s, es[..|es| - 1]);
      var t, e := Run(s, es[..|es| - 1]), es[|es| - 1];
      NextKeepsInv(t, e);
      NextToStamp(t, e);
      NextLeavesNone(t, e);
      forall c: nat
        ensures SawStamp(Next(t, e), c)
      {
        OneStampSeen(t, e, c);
      }
    }
  }

  /** In every run in which committers start to clean up only when the router is done with
      the stamps of their SuperBatch, every published slot is freed or still on the list of
      the entry or the committer that will free it. */
  lemma NoSlotIsLeftBehind(n: nat, m: nat, k: nat, es: seq<Event>, i: nat)
    requires AllPatient(Empty(n, m, k), es)
    ensures var s := Run(Empty(n, m, k), es);
            i < |s.slots| && s.slots[i].valid != 0 && s.slots[i].owner != 0 ==> Wanted(s, i, s.slots[i].owner)
  {
    EmptyIsFine(n, m, k);
    assert ToStamp(Empty(n, m, k)) && NoneLeft(Empty(n, m, k)) && StampsSeen(Empty(n, m, k));
    hide Inv, ToStamp, StampsSeen, Empty, AllPatient;
    PatientRun(Empty(n, m, k), es);
  }

  // ---- a slot that is left behind -------------------------------------------------------

  /** The clean-up of a slot fails exactly when the slot carries the stamp at the second
      attempt: it came too late for the first and too early for the second. */
  lemma MissedIff(n: nat, m: nat, k: nat, es: seq<Event>, c: nat)
    requires var s := Run(Empty(n, m, k), es);
             c < |s.committers| && s.committers[c].Cleaning? && s.committers[c].tried
    ensures var s := Run(Empty(n, m, k), es);
            var list := s.committers[c].list;
            && list != [] && list[0].slot < |s.slots|
            && var t := Next(s, CleanUnstamped(c));
               && |t.slots| == |s.slots| && |t.committers| == |s.committers|
               && (t.slots[list[0].slot].valid != 0 <==> s.slots[list[0].slot].valid == 3)
               && (t.slots[list[0].slot].valid != 0 ==>
                     t.slots == s.slots && t.committers[c].Busy? && t.committers[c].list == list[1..])
  {
    hide Run, Empty;
    RunFromEmpty(n, m, k, es);
    var s := Run(Empty(n, m, k), es);
    var pc := s.committers[c];
    assert CommitterOk(s, c) && CqOk(s, pc.x) && SlotOk(s, pc.list[0].slot);
    hide Inv, Accounts, CqOk;
  }

  lemma OneMore(s: State, es: seq<Event>, e: Event)
    ensures Run(s, es + [e]) == Next(Run(s, es), e)
  {
    assert (es + [e])[..|es|] == es;
  }

  lemma TwoMore(s: State, es: seq<Event>, e: Event, f: Event)
    ensures Run(s, es + [e, f]) == Next(Next(Run(s, es), e), f)
  {
    hide Run, Next;
    assert es + [e, f] == es + [e] + [f];
    OneMore(s, es + [e], f);
    OneMore(s, es, e);
  }

  lemma Put<T>(x: T, y: T)
    ensures [x][0 := y] == [y]
  {
  }

  /** One slot with the block 7, one entry, the router and one committer. */
  function At(slot: Slot, q: Cq, live: set<Block>, router: RouterPc, pc: CommitterPc, envs: nat, sbs: nat,
              pubs: seq<Publication>, claims: seq<Claim>): State
  {
    State([slot], [q], live, router, [pc], envs, sbs, pubs, claims, false)
  }

  const NO_ENTRY := Cq(0, 0, 0, [], {}, false)
  const REFS := [Ref(0, 0)]
  const PUBS := [Publication(0, 1)]

  lemma Packs()
    ensures Run(Empty(1, 1, 1), [] + [Push(0, {7}), PackStart([0])] + [PackOne, PackEnd])
         == At(Slot(2, 0, 0, {7}, 0), NO_ENTRY, {7}, Packed([0]), CommitterIdle, 1, 0, [], [])
  {
    var s := Empty(1, 1, 1);
    TwoMore(s, [], Push(0, {7}), PackStart([0]));
    TwoMore(s, [] + [Push(0, {7}), PackStart([0])], PackOne, PackEnd);
    assert Run(s, []) == s;
    hide Run;
    assert s == At(Slot(0, 0, 0, {}, 0), NO_ENTRY, {}, RouterIdle, CommitterIdle, 0, 0, [], []);
    var free, full, packed := Slot(0, 0, 0, {}, 0), Slot(1, 0, 0, {7}, 0), Slot(2, 0, 0, {7}, 0);
    Put(free, full);
    Put(full, packed);
    assert {} + {7} == {7} && [0][1..] == [] && [] + [0] == [0];
    var a := At(full, NO_ENTRY, {7}, RouterIdle, CommitterIdle, 1, 0, [], []);
    assert Next(s, Push(0, {7})) == a;
    var b := a.(router := Packing([0], []));
    assert Next(a, PackStart([0])) == b;
    assert Next(b, PackOne) == At(packed, NO_ENTRY, {7}, Packing([], [0]), CommitterIdle, 1, 0, [], []);
  }

  lemma Fills(a: State)
    requires a == At(Slot(2, 0, 0, {7}, 0), NO_ENTRY, {7}, Packed([0]), CommitterIdle, 1, 0, [], [])
    ensures Next(Next(a, Alloc({})), Fill(0))
         == At(Slot(2, 0, 0, {7}, 1), Cq(1, 0, 1, REFS, {}, true), {7}, Filled(1, [0]), CommitterIdle, 1, 1, PUBS, [])
  {
    var b := a.(router := Allocated([0], {}));
    assert {7} + {} == {7};
    assert Next(a, Alloc({})) == b;
    assert RefsOf(b.slots, [0]) == REFS;
    assert Publish(b.slots, [0], 1) == [Slot(2, 0, 0, {7}, 1)] && [] + PubsOf(REFS, 1) == PUBS;
    Put(NO_ENTRY, Cq(1, 0, 1, REFS, {}, true));
    assert !QueueShared(b);
  }

  /** The committer claims the SuperBatch, and reads the slot while the router starts to
      stamp. */
  lemma Claims(a: State)
    requires a == At(Slot(2, 0, 0, {7}, 1), Cq(1, 0, 1, REFS, {}, true), {7}, Filled(1, [0]), CommitterIdle, 1, 1,
                     PUBS, [])
    ensures Next(Next(Next(a, ClaimRead(0, 0)), ClaimGen(0)), ClaimValid(0))
         == At(Slot(2, 0, 0, {7}, 1), Cq(2, 1, 1, REFS, {}, true), {7}, Filled(1, [0]), Busy(0, 1, REFS, {}), 1, 1,
               PUBS, [Claim(1, 0)])
  {
    var q := a.cq[0];
    Put<CommitterPc>(CommitterIdle, Saw(0));
    Put<CommitterPc>(Saw(0), Won(0));
    Put<CommitterPc>(Won(0), Busy(0, 1, REFS, {}));
    Put(q, q.(gen := 1));
    Put(q.(gen := 1), q.(gen := 1, valid := 2));
    assert [] + [Claim(1, 0)] == [Claim(1, 0)];
    var b := a.(committers := [Saw(0)]);
    assert Next(a, ClaimRead(0, 0)) == b;
    var d := b.(committers := [Won(0)], cq := [q.(gen := 1)]);
    assert Next(b, ClaimGen(0)) == d;
  }

  /** The committer reads the slot before its id is stored; then the router stamps it. */
  lemma Stamps(a: State)
    requires a == At(Slot(2, 0, 0, {7}, 1), Cq(2, 1, 1, REFS, {}, true), {7}, Filled(1, [0]), Busy(0, 1, REFS, {}),
                     1, 1, PUBS, [Claim(1, 0)])
    ensures Next(Next(Next(Next(a, CleanRead(0)), StampStart), StampStore), StampFlag)
         == At(Slot(3, 1, 0, {7}, 1), Cq(2, 1, 1, REFS, {}, true), {7}, Stamping(1, [], false),
               Cleaning(0, 1, REFS, {}, {7}, 0, false), 1, 1, PUBS, [Claim(1, 0)])
  {
    var c := Cleaning(0, 1, REFS, {}, {7}, 0, false);
    var slot := a.slots[0];
    Put(a.committers[0], c);
    Put(slot, slot.(sb := 1));
    Put(slot.(sb := 1), slot.(sb := 1, valid := 3));
    assert [0][1..] == [];
    var b := a.(committers := [c]);
    assert Next(a, CleanRead(0)) == b;
    var d := b.(router := Stamping(1, [0], false));
    assert Next(b, StampStart) == d;
    var f := d.(slots := [slot.(sb := 1)], router := Stamping(1, [0], true));
    assert Next(d, StampStore) == f;
  }

  /** Both attempts of the committer fail. */
  lemma Misses(a: State)
    requires a == At(Slot(3, 1, 0, {7}, 1), Cq(2, 1, 1, REFS, {}, true), {7}, Stamping(1, [], false),
                     Cleaning(0, 1, REFS, {}, {7}, 0, false), 1, 1, PUBS, [Claim(1, 0)])
    ensures Next(Next(a, CleanStamped(0)), CleanUnstamped(0))
         == At(Slot(3, 1, 0, {7}, 1), Cq(2, 1, 1, REFS, {}, true), {7}, Stamping(1, [], false), Busy(0, 1, [], {}),
               1, 1, PUBS, [Claim(1, 0)])
  {
    var c := a.committers[0];
    Put(c, c.(tried := true));
    Put<CommitterPc>(c.(tried := true), Busy(0, 1, [], {}));
    assert REFS[1..] == [];
    assert Next(a, CleanStamped(0)) == a.(committers := [c.(tried := true)]);
  }

  lemma Closes(a: State)
    requires a == At(Slot(3, 1, 0, {7}, 1), Cq(2, 1, 1, REFS, {}, true), {7}, Stamping(1, [], false),
                     Busy(0, 1, [], {}), 1, 1, PUBS, [Claim(1, 0)])
    ensures Next(Next(Next(Next(Next(a, StampEnd), FreeCq(0)), Complete(0)), Vacate(0)), Forget(0))
         == At(Slot(3, 1, 0, {7}, 1), Cq(0, 0, 1, REFS, {}, false), {7}, RouterIdle, CommitterIdle, 1, 1, PUBS,
               [Claim(1, 0)])
  {
    var q := a.cq[0];
    Put(q, q.(owns := false));
    Put(q.(owns := false), q.(owns := false, valid := 3));
    Put(q.(owns := false, valid := 3), q.(owns := false, valid := 0));
    Put(q.(owns := false, valid := 0), q.(owns := false, valid := 0, gen := 0));
    Put<CommitterPc>(a.committers[0], FreedCq(0));
    Put<CommitterPc>(FreedCq(0), Closing(0));
    Put<CommitterPc>(Closing(0), Closed(0));
    Put<CommitterPc>(Closed(0), CommitterIdle);
    assert {7} - {} == {7};
    var b := a.(router := RouterIdle);
    assert Next(a, StampEnd) == b;
    var d := b.(cq := [q.(owns := false)], committers := [FreedCq(0)]);
    assert Next(b, FreeCq(0)) == d;
    var f := d.(cq := [q.(owns := false, valid := 3)], committers := [Closing(0)]);
    assert Next(d, Complete(0)) == f;
    assert Next(f, Vacate(0)) == f.(cq := [q.(owns := false, valid := 0)], committers := [Closed(0)]);
  }

  function StampRace(): seq<Event> {
    [] + [Push(0, {7}), PackStart([0])] + [PackOne, PackEnd] + [Alloc({}), Fill(0)] + [ClaimRead(0, 0), ClaimGen(0)]
    + [ClaimValid(0), CleanRead(0)] + [StampStart, StampStore] + [StampFlag, CleanStamped(0)]
    + [CleanUnstamped(0), StampEnd] + [FreeCq(0), Complete(0)] + [Vacate(0), Forget(0)]
  }

  /** So the promise does not hold without the condition: in this run of one router and one
      committer all work is done and everybody is idle, but the slot is not freed, its
      block stays allocated, and nobody refers to it. */
  lemma AStampCanCrossACleanUp()
    ensures var s := Run(Empty(1, 1, 1), StampRace());
            && s.router.RouterIdle? && s.committers == [CommitterIdle] && |s.cq| == 1 && s.cq[0].valid == 0
            && |s.slots| == 1 && s.slots[0].valid == 3 && s.slots[0].owner == 1 && s.live == {7}
            && !Wanted(s, 0, 1)
  {
    hide Run, Next, Empty, At;
    var s := Empty(1, 1, 1);
    var e1 := [] + [Push(0, {7}), PackStart([0])] + [PackOne, PackEnd];
    var e2 := e1 + [Alloc({}), Fill(0)];
    var e3 := e2 + [ClaimRead(0, 0), ClaimGen(0)];
    var e4 := e3 + [ClaimValid(0), CleanRead(0)];
    var e5 := e4 + [StampStart, StampStore];
    var e6 := e5 + [StampFlag, CleanStamped(0)];
    var e7 := e6 + [CleanUnstamped(0), StampEnd];
    var e8 := e7 + [FreeCq(0), Complete(0)];
    TwoMore(s, e1, Alloc({}), Fill(0));
    TwoMore(s, e2, ClaimRead(0, 0), ClaimGen(0));
    TwoMore(s, e3, ClaimValid(0), CleanRead(0));
    TwoMore(s, e4, StampStart, StampStore);
    TwoMore(s, e5, StampFlag, CleanStamped(0));
    TwoMore(s, e6, CleanUnstamped(0), StampEnd);
    TwoMore(s, e7, FreeCq(0), Complete(0));
    TwoMore(s, e8, Vacate(0), Forget(0));
    Packs();
    Fills(Run(s, e1));
    Claims(Run(s, e2));
    Stamps(Next(Run(s, e3), ClaimValid(0)));
    Misses(Next(Run(s, e5), StampFlag));
    Closes(Next(Run(s, e6), CleanUnstamped(0)));
    NobodyWants(Run(s, StampRace()));
  }

  lemma NobodyWants(s: State)
    requires s == At(Slot(3, 1, 0, {7}, 1), Cq(0, 0, 1, REFS, {}, false), {7}, RouterIdle, CommitterIdle, 1, 1, PUBS,
                     [Claim(1, 0)])
    ensures s.router.RouterIdle? && s.committers == [CommitterIdle] && |s.cq| == 1 && s.cq[0].valid == 0
    ensures |s.slots| == 1 && s.slots[0].valid == 3 && s.slots[0].owner == 1 && s.live == {7} && !Wanted(s, 0, 1)
  {
  }
}
