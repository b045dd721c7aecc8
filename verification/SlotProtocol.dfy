/**
  The two-queue slot protocol (staging.rs, router.rs, committer.rs): enqueuers publish
  envelopes in staging slots, one router packs pending slots into SuperBatches on the
  committer queue and stamps the slots afterwards, and many committers claim, process
  and clean up SuperBatches. Each atomic access is one step. A SHARED table lock is a
  program counter that blocks the EXCLUSIVE steps: pushing a staging entry, and filling
  a committer-queue entry. Ejection, worker death and sweeps are not modelled.
*/
module SlotProtocol {

  type Block = nat
  type Env = nat

  /** `owner` is history: the SuperBatch the slot was published in, 0 if none. */
  datatype Slot = Slot(valid: nat, sb: nat, env: Env, blocks: set<Block>, owner: nat)

  /** A reference from a SuperBatch to a staging slot; `env` is history: the envelope
      the slot held when the SuperBatch was filled. */
  datatype Ref = Ref(slot: nat, env: Env)

  /** `owns` is history: whether the entry's own arena blocks are still allocated. */
  datatype Cq = Cq(valid: nat, gen: nat, sb: nat, list: seq<Ref>, blocks: set<Block>, owns: bool)

  datatype RouterPc =
    | RouterIdle
    | Packing(chunk: seq<nat>, packed: seq<nat>)
    | Packed(packed: seq<nat>)
    | Allocated(packed: seq<nat>, blocks: set<Block>)
    | RollingBack(packed: seq<nat>, blocks: set<Block>)
    | Filled(sb: nat, packed: seq<nat>)
    | Stamping(sb: nat, packed: seq<nat>, stored: bool)

  datatype CommitterPc =
    | CommitterIdle
    | Saw(x: nat)
    | Won(x: nat)
    | Undo(x: nat)
    | Busy(x: nat, sb: nat, list: seq<Ref>, blocks: set<Block>)
    | Cleaning(x: nat, sb: nat, list: seq<Ref>, blocks: set<Block>, seen: set<Block>, seenSb: nat, tried: bool)
    | Freeing(x: nat, sb: nat, list: seq<Ref>, blocks: set<Block>, hold: set<Block>)
    | FreedCq(x: nat)
    | Closing(x: nat)
    | Closed(x: nat)

  datatype Publication = Publication(env: Env, sb: nat)
  datatype Claim = Claim(sb: nat, committer: nat)

  /** `pubs`, `claims` and `doubleFree` are history: which envelope went into which
      SuperBatch, who claimed which SuperBatch, and whether a block was freed that was
      not allocated. */
  datatype State = State(
    slots: seq<Slot>, cq: seq<Cq>, live: set<Block>, router: RouterPc, committers: seq<CommitterPc>,
    nextEnv: Env, nextSb: nat, pubs: seq<Publication>, claims: seq<Claim>, doubleFree: bool)

  datatype Event =
    | Push(slot: nat, blocks: set<Block>)
    | PackStart(chunk: seq<nat>)
    | PackOne
    | PackEnd
    | Alloc(blocks: set<Block>)
    | AllocFail
    | Fill(x: nat)
    | FillFail
    | RollOne
    | RollEnd
    | StampStart
    | StampStore
    | StampFlag
    | StampEnd
    | ClaimRead(c: nat, x: nat)
    | ClaimGen(c: nat)
    | ClaimValid(c: nat)
    | ClaimUndo(c: nat)
    | CleanRead(c: nat)
    | CleanStamped(c: nat)
    | CleanUnstamped(c: nat)
    | FreeSlot(c: nat)
    | FreeCq(c: nat)
    | Complete(c: nat)
    | Vacate(c: nat)
    | Forget(c: nat)

  // ---- Locks ----------------------------------------------------------------

  predicate StagingShared(s: State) {
    || s.router.Packing? || s.router.RollingBack? || s.router.Stamping?
    || exists c :: 0 <= c < |s.committers| && s.committers[c].Cleaning?
  }

  predicate HoldsQueue(pc: CommitterPc) {
    pc.Saw? || pc.Won? || pc.Undo? || pc.Closing? || pc.Closed?
  }

  predicate QueueShared(s: State) {
    exists c :: 0 <= c < |s.committers| && HoldsQueue(s.committers[c])
  }

  // ---- Steps ----------------------------------------------------------------

  function SetSlot(s: State, i: nat, v: Slot): State
    requires i < |s.slots|
  {
    s.(slots := s.slots[i := v])
  }

  function SetCq(s: State, x: nat, v: Cq): State
    requires x < |s.cq|
  {
    s.(cq := s.cq[x := v])
  }

  function SetCommitter(s: State, c: nat, pc: CommitterPc): State
    requires c < |s.committers|
  {
    s.(committers := s.committers[c := pc])
  }

  function FreeBlocks(s: State, blocks: set<Block>): State {
    s.(live := s.live - blocks, doubleFree := s.doubleFree || !(blocks <= s.live))
  }

  /** `push_entry` under the exclusive lock, with the entry's freshly allocated blocks. */
  function PushStep(s: State, i: nat, blocks: set<Block>): State {
    if i < |s.slots| && s.slots[i].valid == 0 && !StagingShared(s) && blocks !! s.live then
      SetSlot(s, i, Slot(1, 0, s.nextEnv, blocks, 0)).(nextEnv := s.nextEnv + 1, live := s.live + blocks)
    else s
  }

  function PackStep(s: State): State {
    match s.router
    case Packing(chunk, packed) =>
      if chunk == [] then s.(router := if packed == [] then RouterIdle else Packed(packed))
      else
        var i := chunk[0];
        if i < |s.slots| && s.slots[i].valid == 1 then
          SetSlot(s, i, s.slots[i].(valid := 2)).(router := Packing(chunk[1..], packed + [i]))
        else s.(router := Packing(chunk[1..], packed))
    case _ => s
  }

  function RefsOf(slots: seq<Slot>, packed: seq<nat>): (r: seq<Ref>)
    ensures |r| == |packed|
  {
    seq(|packed|, j requires 0 <= j < |packed| =>
      Ref(packed[j], if packed[j] < |slots| then slots[packed[j]].env else 0))
  }

  function Publish(slots: seq<Slot>, packed: seq<nat>, sb: nat): (r: seq<Slot>)
    ensures |r| == |slots|
  {
    seq(|slots|, i requires 0 <= i < |slots| => if i in packed then slots[i].(owner := sb) else slots[i])
  }

  function PubsOf(refs: seq<Ref>, sb: nat): (r: seq<Publication>)
    ensures |r| == |refs|
  {
    seq(|refs|, j requires 0 <= j < |refs| => Publication(refs[j].env, sb))
  }

  /** The router fills a free committer-queue entry under the exclusive lock. */
  function FillStep(s: State, x: nat): State {
    if s.router.Allocated? && x < |s.cq| && s.cq[x].valid == 0 && !QueueShared(s) then
      var sb := s.nextSb + 1;
      var refs := RefsOf(s.slots, s.router.packed);
      SetCq(s, x, Cq(1, 0, sb, refs, s.router.blocks, true))
        .(slots := Publish(s.slots, s.router.packed, sb), router := Filled(sb, s.router.packed),
          nextSb := sb, pubs := s.pubs + PubsOf(refs, sb))
    else s
  }

  function RollStep(s: State): State {
    match s.router
    case RollingBack(packed, blocks) =>
      if packed == [] then FreeBlocks(s, blocks).(router := RouterIdle)
      else
        var i := packed[0];
        var t := s.(router := RollingBack(packed[1..], blocks));
        if i < |s.slots| && s.slots[i].valid == 2 then SetSlot(t, i, s.slots[i].(valid := 1)) else t
    case _ => s
  }

  /** Store the SuperBatch id, then flip the flag from packed to stamped. */
  function StampStep(s: State): State {
    match s.router
    case Filled(sb, packed) => s.(router := Stamping(sb, packed, false))
    case Stamping(sb, packed, stored) =>
      if packed == [] then s.(router := RouterIdle)
      else
        var i := packed[0];
        if i >= |s.slots| then s
        else if !stored then SetSlot(s, i, s.slots[i].(sb := sb)).(router := Stamping(sb, packed, true))
        else
          var t := s.(router := Stamping(sb, packed[1..], false));
          if s.slots[i].valid == 2 then SetSlot(t, i, s.slots[i].(valid := 3)) else t
    case _ => s
  }

  function RouterStep(s: State, e: Event): State {
    match e
    case PackStart(chunk) => if s.router.RouterIdle? then s.(router := Packing(chunk, [])) else s
    case PackOne => if s.router.Packing? && s.router.chunk != [] then PackStep(s) else s
    case PackEnd => if s.router.Packing? && s.router.chunk == [] then PackStep(s) else s
    case Alloc(blocks) =>
      if s.router.Packed? && blocks !! s.live then
        s.(router := Allocated(s.router.packed, blocks), live := s.live + blocks)
      else s
    case AllocFail => if s.router.Packed? then s.(router := RollingBack(s.router.packed, {})) else s
    case FillFail =>
      if s.router.Allocated? then s.(router := RollingBack(s.router.packed, s.router.blocks)) else s
    case RollOne => if s.router.RollingBack? && s.router.packed != [] then RollStep(s) else s
    case RollEnd => if s.router.RollingBack? && s.router.packed == [] then RollStep(s) else s
    case StampStart => if s.router.Filled? then StampStep(s) else s
    case StampStore => if s.router.Stamping? && s.router.packed != [] && !s.router.stored then StampStep(s) else s
    case StampFlag => if s.router.Stamping? && s.router.packed != [] && s.router.stored then StampStep(s) else s
    case StampEnd => if s.router.Stamping? && s.router.packed == [] then StampStep(s) else s
    case _ => s
  }

  /** `claim_next_committer_entry`: see a pending entry, win its generation, then flip
      its flag, or give the generation back. */
  function ClaimStep(s: State, e: Event): State
    requires e.ClaimRead? || e.ClaimGen? || e.ClaimValid? || e.ClaimUndo?
  {
    if e.c >= |s.committers| then s
    else
      match (e, s.committers[e.c])
      case (ClaimRead(c, x), CommitterIdle) =>
        if x < |s.cq| && s.cq[x].valid == 1 then SetCommitter(s, c, Saw(x)) else s
      case (ClaimGen(c), Saw(x)) =>
        if x < |s.cq| && s.cq[x].gen == 0 then SetCommitter(SetCq(s, x, s.cq[x].(gen := c + 1)), c, Won(x))
        else SetCommitter(s, c, CommitterIdle)
      case (ClaimValid(c), Won(x)) =>
        if x < |s.cq| && s.cq[x].valid == 1 then
          SetCommitter(SetCq(s, x, s.cq[x].(valid := 2)), c, Busy(x, s.cq[x].sb, s.cq[x].list, s.cq[x].blocks))
            .(claims := s.claims + [Claim(s.cq[x].sb, c)])
        else SetCommitter(s, c, Undo(x))
      case (ClaimUndo(c), Undo(x)) =>
        if x < |s.cq| then SetCommitter(SetCq(s, x, s.cq[x].(gen := 0)), c, CommitterIdle) else s
      case _ => s
  }

  /** The compare-and-swap that takes a slot from `from` to free, and its blocks with it. */
  function TakeSlot(s: State, c: nat, pc: CommitterPc, from: nat, otherwise: CommitterPc): State
    requires c < |s.committers| && pc.Cleaning? && pc.list != []
  {
    var i := pc.list[0].slot;
    if i < |s.slots| && s.slots[i].valid == from then
      SetCommitter(SetSlot(s, i, s.slots[i].(valid := 0, owner := 0)), c,
                   Freeing(pc.x, pc.sb, pc.list[1..], pc.blocks, pc.seen))
    else SetCommitter(s, c, otherwise)
  }

  /** `cleanup_after_superbatch`, slot by slot and then the entry itself. */
  function CleanStep(s: State, e: Event): State
    requires e.CleanRead? || e.CleanStamped? || e.CleanUnstamped? || e.FreeSlot? || e.FreeCq?
          || e.Complete? || e.Vacate? || e.Forget?
  {
    if e.c >= |s.committers| then s
    else
      match (e, s.committers[e.c])
      case (CleanRead(c), Busy(x, sb, list, blocks)) =>
        if list != [] && list[0].slot < |s.slots| then
          var slot := s.slots[list[0].slot];
          SetCommitter(s, c, Cleaning(x, sb, list, blocks, slot.blocks, slot.sb, false))
        else s
      case (CleanStamped(c), Cleaning(x, sb, list, blocks, seen, seenSb, false)) =>
        var pc := s.committers[c];
        if list == [] then s
        else if seenSb == sb then TakeSlot(s, c, pc, 3, pc.(tried := true))
        else SetCommitter(s, c, pc.(tried := true))
      case (CleanUnstamped(c), Cleaning(x, sb, list, blocks, seen, seenSb, true)) =>
        if list == [] then s else TakeSlot(s, c, s.committers[c], 2, Busy(x, sb, list[1..], blocks))
      case (FreeSlot(c), Freeing(x, sb, list, blocks, hold)) =>
        SetCommitter(FreeBlocks(s, hold), c, Busy(x, sb, list, blocks))
      case (FreeCq(c), Busy(x, sb, list, blocks)) =>
        if list == [] && x < |s.cq| then
          SetCommitter(FreeBlocks(SetCq(s, x, s.cq[x].(owns := false)), blocks), c, FreedCq(x))
        else s
      case (Complete(c), FreedCq(x)) =>
        if x < |s.cq| && s.cq[x].valid == 2 then SetCommitter(SetCq(s, x, s.cq[x].(valid := 3)), c, Closing(x))
        else s
      case (Vacate(c), Closing(x)) =>
        if x < |s.cq| && s.cq[x].valid == 3 then SetCommitter(SetCq(s, x, s.cq[x].(valid := 0)), c, Closed(x))
        else s
      case (Forget(c), Closed(x)) =>
        if x < |s.cq| then SetCommitter(SetCq(s, x, s.cq[x].(gen := 0)), c, CommitterIdle) else s
      case _ => s
  }

  function Next(s: State, e: Event): State {
    match e
    case Push(i, blocks) => PushStep(s, i, blocks)
    case Fill(x) => FillStep(s, x)
    case ClaimRead(_, _) => ClaimStep(s, e)
    case ClaimGen(_) => ClaimStep(s, e)
    case ClaimValid(_) => ClaimStep(s, e)
    case ClaimUndo(_) => ClaimStep(s, e)
    case CleanRead(_) => CleanStep(s, e)
    case CleanStamped(_) => CleanStep(s, e)
    case CleanUnstamped(_) => CleanStep(s, e)
    case FreeSlot(_) => CleanStep(s, e)
    case FreeCq(_) => CleanStep(s, e)
    case Complete(_) => CleanStep(s, e)
    case Vacate(_) => CleanStep(s, e)
    case Forget(_) => CleanStep(s, e)
    case _ => RouterStep(s, e)
  }

  function Run(s: State, es: seq<Event>): State {
    if es == [] then s else Next(Run(s, es[..|es| - 1]), es[|es| - 1])
  }
}
