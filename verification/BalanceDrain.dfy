/**
  The drain of the balance arena (lib.rs): committing backends update a cell's
  packed (balance, qty) pair, take a sequence number and raise `last_seq`, while
  drain ticks copy the cell to its rollup row and raise `drained_seq`. Every atomic
  access is one step, and steps of any number of writers and drain ticks interleave
  freely. One cell is modelled; traffic on other cells only moves `APPLY_SEQ`.
*/
module BalanceDrain {
  import opened BalancePair
  import opened Int64

  /** A swap that took effect: who made it and what it added. */
  datatype Entry = Entry(writer: nat, delta: Pair)

  datatype WriterPc =
    | Resting
    | Loaded(delta: Pair, cur: Pair)
    | Swapped(entry: nat)
    | Sequenced(entry: nat, seqNo: nat)

  datatype DrainPc =
    | Waiting
    | SawLast(last: nat)
    | Dirty(last: nat)
    | Copied(last: nat, bal: Pair, upTo: nat)
    | Queued(last: nat, bal: Pair, upTo: nat)
    | Upserted(last: nat)
    | Stamping(last: nat, cur: nat)

  /** `upTo` records how many of the cell's swaps the row's balance contains. */
  datatype Row = NoRow | Row(bal: Pair, lastSeq: nat, upTo: nat)

  /** `base`, `log` and `seqs` are history: the balance the cell was inserted over,
      the swaps in the order they took effect, and the number each one took. */
  datatype State = State(
    bal: Pair, lastSeq: nat, drainedSeq: nat, applySeq: nat, row: Row,
    writers: map<nat, WriterPc>, drains: map<nat, DrainPc>,
    base: Pair, log: seq<Entry>, seqs: map<nat, nat>)

  datatype Event =
    | Load(w: nat, delta: Pair)
    | Swap(w: nat)
    | TakeSeq(w: nat)
    | RaiseLast(w: nat)
    | OtherCells(applySeq: nat)
    | DrainLoadLast(d: nat)
    | DrainCompare(d: nat)
    | DrainCopy(d: nat)
    | DrainRecheck(d: nat)
    | DrainUpsert(d: nat, ok: bool)
    | StampLoad(d: nat)
    | StampSwap(d: nat)

  function Writer(s: State, w: nat): WriterPc {
    if w in s.writers then s.writers[w] else Resting
  }

  function Drain(s: State, d: nat): DrainPc {
    if d in s.drains then s.drains[d] else Waiting
  }

  function SetWriter(s: State, w: nat, pc: WriterPc): State {
    s.(writers := s.writers[w := pc])
  }

  function SetDrain(s: State, d: nat, pc: DrainPc): State {
    s.(drains := s.drains[d := pc])
  }

  /** The balance of the cell after a prefix of its swaps. */
  function Total(base: Pair, log: seq<Entry>): Pair {
    if log == [] then base else AddPair(Total(base, log[..|log| - 1]), log[|log| - 1].delta)
  }

  /** `insert_new_seeded`: the row's values are the base, the row's stamp becomes
      `drained_seq`, and `APPLY_SEQ` is first raised to that stamp. */
  function Inserted(seed: Row, applySeq: nat, w: nat, delta: Pair): State {
    var base := if seed.Row? then seed.bal else ZERO;
    var stamp := if seed.Row? then seed.lastSeq else 0;
    var seqNo := Max(applySeq, stamp) + 1;
    State(AddPair(base, delta), seqNo, stamp, seqNo, if seed.Row? then seed.(upTo := 0) else NoRow,
          map[], map[], base, [Entry(w, delta)], map[0 := seqNo])
  }

  function WriterStep(s: State, e: Event): State
    requires e.Load? || e.Swap? || e.TakeSeq? || e.RaiseLast?
  {
    match (e, Writer(s, e.w))
    case (Load(w, delta), Resting) => SetWriter(s, w, Loaded(delta, s.bal))
    case (Swap(w), Loaded(delta, cur)) =>
      if s.bal == cur then
        SetWriter(s, w, Swapped(|s.log|)).(bal := AddPair(cur, delta), log := s.log + [Entry(w, delta)])
      else SetWriter(s, w, Loaded(delta, s.bal))
    case (TakeSeq(w), Swapped(i)) =>
      SetWriter(s, w, Sequenced(i, s.applySeq + 1)).(applySeq := s.applySeq + 1, seqs := s.seqs[i := s.applySeq + 1])
    case (RaiseLast(w), Sequenced(_, seqNo)) =>
      SetWriter(s, w, Resting).(lastSeq := Max(s.lastSeq, seqNo))
    case _ => s
  }

  /** The upsert replaces the row only when the stored stamp is older. */
  function Upsert(row: Row, bal: Pair, last: nat, upTo: nat): Row {
    if row.NoRow? || row.lastSeq < last then Row(bal, last, upTo) else row
  }

  function DrainStep(s: State, e: Event): State
    requires !e.Load? && !e.Swap? && !e.TakeSeq? && !e.RaiseLast? && !e.OtherCells?
  {
    match (e, Drain(s, e.d))
    case (DrainLoadLast(d), Waiting) => SetDrain(s, d, SawLast(s.lastSeq))
    case (DrainCompare(d), SawLast(last)) =>
      SetDrain(s, d, if last <= s.drainedSeq then Waiting else Dirty(last))
    case (DrainCopy(d), Dirty(last)) => SetDrain(s, d, Copied(last, s.bal, |s.log|))
    case (DrainRecheck(d), Copied(last, bal, upTo)) =>
      SetDrain(s, d, if s.lastSeq == last then Queued(last, bal, upTo) else Waiting)
    case (DrainUpsert(d, ok), Queued(last, bal, upTo)) =>
      if ok then SetDrain(s, d, Upserted(last)).(row := Upsert(s.row, bal, last, upTo))
      else SetDrain(s, d, Waiting)
    case (StampLoad(d), Upserted(last)) => SetDrain(s, d, Stamping(last, s.drainedSeq))
    case (StampSwap(d), Stamping(last, cur)) =>
      if last <= cur then SetDrain(s, d, Waiting)
      else if s.drainedSeq == cur then SetDrain(s, d, Waiting).(drainedSeq := last)
      else SetDrain(s, d, Stamping(last, s.drainedSeq))
    case _ => s
  }

  function Next(s: State, e: Event): State {
    if e.OtherCells? then s.(applySeq := Max(s.applySeq, e.applySeq))
    else if e.Load? || e.Swap? || e.TakeSeq? || e.RaiseLast? then WriterStep(s, e)
    else DrainStep(s, e)
  }

  function Run(s: State, es: seq<Event>): State {
    if es == [] then s else Next(Run(s, es[..|es| - 1]), es[|es| - 1])
  }

  // ---- The invariant --------------------------------------------------------

  /** A copy of the first `upTo` swaps may be stamped `stamp`: every later swap
      has, or will get, a larger number. */
  ghost predicate Covers(s: State, bal: Pair, stamp: nat, upTo: nat) {
    && upTo <= |s.log| && bal == Total(s.base, s.log[..upTo]) && stamp <= s.applySeq
    && forall i :: i in s.seqs && upTo <= i ==> stamp < s.seqs[i]
  }

  /** A swap without a number, or whose number has not reached `last_seq`, still
      has its writer in the middle of the update. */
  ghost predicate Tracked(s: State) {
    && (forall i :: i in s.seqs ==> i < |s.log| && s.seqs[i] <= s.applySeq)
    && (forall i :: 0 <= i < |s.log| && i !in s.seqs ==> Writer(s, s.log[i].writer) == Swapped(i))
    && (forall i :: 0 <= i < |s.log| && i in s.seqs && s.lastSeq < s.seqs[i] ==>
          Writer(s, s.log[i].writer) == Sequenced(i, s.seqs[i]))
  }

  ghost predicate WriterOk(s: State, w: nat) {
    match Writer(s, w)
    case Swapped(i) => i < |s.log| && i !in s.seqs && s.log[i].writer == w
    case Sequenced(i, n) => i in s.seqs && s.seqs[i] == n
    case _ => true
  }

  ghost predicate DrainOk(s: State, d: nat) {
    match Drain(s, d)
    case SawLast(last) => last <= s.applySeq
    case Dirty(last) => last <= s.applySeq
    case Copied(last, bal, upTo) => Covers(s, bal, last, upTo)
    case Queued(last, bal, upTo) => Covers(s, bal, last, upTo)
    case Upserted(last) => s.row.Row? && last <= s.row.lastSeq
    case Stamping(last, cur) => s.row.Row? && last <= s.row.lastSeq
    case Waiting => true
  }

  ghost predicate RowOk(s: State) {
    && (s.row.Row? ==> Covers(s, s.row.bal, s.row.lastSeq, s.row.upTo))
    && s.drainedSeq <= (if s.row.Row? then s.row.lastSeq else 0)
  }

  ghost predicate Inv(s: State) {
    && s.bal == Total(s.base, s.log) && s.lastSeq <= s.applySeq && 0 < s.lastSeq
    && Tracked(s) && RowOk(s)
    && (forall w :: w in s.writers ==> WriterOk(s, w))
    && (forall d :: d in s.drains ==> DrainOk(s, d))
  }

  lemma InsertedIsFine(seed: Row, applySeq: nat, w: nat, delta: Pair)
    ensures Inv(Inserted(seed, applySeq, w, delta))
  {
    var s := Inserted(seed, applySeq, w, delta);
    assert s.log[..0] == [];
    assert Total(s.base, s.log[..0]) == s.base;
  }

  lemma LoadKeeps(s: State, e: Event)
    requires Inv(s) && e.Load?
    ensures Inv(Next(s, e))
  {
    hide Total, AddPair;
  }

  lemma RaiseKeeps(s: State, e: Event)
    requires Inv(s) && e.RaiseLast?
    ensures Inv(Next(s, e))
  {
    hide Total, AddPair;
  }

  lemma SwappedCovers(s: State, t: State, bal: Pair, stamp: nat, upTo: nat)
    requires Covers(s, bal, stamp, upTo) && Tracked(s)
    requires t.base == s.base && s.log <= t.log && t.seqs == s.seqs && t.applySeq == s.applySeq
    ensures Covers(t, bal, stamp, upTo)
  {
    assert t.log[..upTo] == s.log[..upTo];
  }

  lemma SwappedDrains(s: State, t: State, d: nat)
    requires DrainOk(s, d) && Tracked(s)
    requires t.base == s.base && s.log <= t.log && t.seqs == s.seqs && t.applySeq == s.applySeq
    requires t.row == s.row && t.drains == s.drains
    ensures DrainOk(t, d)
  {
    hide Covers, Tracked;
    match Drain(s, d) {
      case Copied(last, bal, upTo) => SwappedCovers(s, t, bal, last, upTo);
      case Queued(last, bal, upTo) => SwappedCovers(s, t, bal, last, upTo);
      case _ =>
    }
  }

  lemma SwapTracks(s: State, w: nat)
    requires Tracked(s) && WriterOk(s, w) && (forall v :: v in s.writers ==> WriterOk(s, v))
    ensures var t := Next(s, Swap(w)); Tracked(t) && forall v :: v in t.writers ==> WriterOk(t, v)
  {
    hide AddPair;
  }

  /** What a swap, successful or not, leaves alone, and what it adds. */
  lemma SwapEffect(s: State, w: nat)
    ensures var t := Next(s, Swap(w));
            && t.base == s.base && t.seqs == s.seqs && t.applySeq == s.applySeq && t.row == s.row
            && t.drains == s.drains
            && t.lastSeq == s.lastSeq && t.drainedSeq == s.drainedSeq && s.log <= t.log
            && (if t.log == s.log then t.bal == s.bal
                else Writer(s, w).Loaded? && t.log == s.log + [Entry(w, Writer(s, w).delta)]
                     && t.bal == AddPair(s.bal, Writer(s, w).delta))
  {
    hide AddPair;
  }

  lemma SwapKeeps(s: State, w: nat)
    requires Inv(s)
    ensures Inv(Next(s, Swap(w)))
  {
    hide Total, AddPair, Covers, Tracked, WriterOk, DrainOk;
    WriterIsOk(s, w);
    SwapTracks(s, w);
    SwapEffect(s, w);
    hide Next, Writer;
    var t := Next(s, Swap(w));
    if t.log != s.log {
      TotalNext(s.base, s.log, t.log[|s.log|]);
    }
    forall d | d in t.drains
      ensures DrainOk(t, d)
    {
      SwappedDrains(s, t, d);
    }
    if s.row.Row? {
      SwappedCovers(s, t, s.row.bal, s.row.lastSeq, s.row.upTo);
    }
  }

  lemma WriterIsOk(s: State, w: nat)
    requires forall v :: v in s.writers ==> WriterOk(s, v)
    ensures WriterOk(s, w)
  {
  }

  lemma TotalNext(base: Pair, log: seq<Entry>, e: Entry)
    ensures Total(base, log + [e]) == AddPair(Total(base, log), e.delta)
  {
    assert (log + [e])[..|log|] == log;
  }

  /** A number taken now is larger than every stamp there is. */
  lemma NumberedCovers(s: State, t: State, i: nat, bal: Pair, stamp: nat, upTo: nat)
    requires Covers(s, bal, stamp, upTo)
    requires t.base == s.base && t.log == s.log && t.applySeq == s.applySeq + 1 && t.seqs == s.seqs[i := t.applySeq]
    ensures Covers(t, bal, stamp, upTo)
  {
    hide Total;
  }

  lemma NumberedDrains(s: State, t: State, i: nat, d: nat)
    requires DrainOk(s, d)
    requires t.base == s.base && t.log == s.log && t.applySeq == s.applySeq + 1 && t.seqs == s.seqs[i := t.applySeq]
    requires t.row == s.row && t.drains == s.drains
    ensures DrainOk(t, d)
  {
    hide Covers;
    match Drain(s, d) {
      case Copied(last, bal, upTo) => NumberedCovers(s, t, i, bal, last, upTo);
      case Queued(last, bal, upTo) => NumberedCovers(s, t, i, bal, last, upTo);
      case _ =>
    }
  }

  lemma NumberedTracks(s: State, w: nat)
    requires Tracked(s) && WriterOk(s, w) && (forall v :: v in s.writers ==> WriterOk(s, v)) && s.lastSeq <= s.applySeq
    ensures var t := Next(s, TakeSeq(w)); Tracked(t) && forall v :: v in t.writers ==> WriterOk(t, v)
  {
  }

  lemma TakeSeqKeeps(s: State, w: nat)
    requires Inv(s)
    ensures Inv(Next(s, TakeSeq(w)))
  {
    hide Total, Covers, Tracked, WriterOk, DrainOk;
    WriterIsOk(s, w);
    NumberedTracks(s, w);
    var t := Next(s, TakeSeq(w));
    if Writer(s, w).Swapped? {
      var i := Writer(s, w).entry;
      forall d | d in t.drains
        ensures DrainOk(t, d)
      {
        NumberedDrains(s, t, i, d);
      }
      if s.row.Row? {
        NumberedCovers(s, t, i, s.row.bal, s.row.lastSeq, s.row.upTo);
      }
    }
  }

  lemma OtherCellsKeep(s: State, e: Event)
    requires Inv(s) && e.OtherCells?
    ensures Inv(Next(s, e))
  {
  }

  lemma SetDrainKeeps(s: State, d: nat, pc: DrainPc)
    requires Inv(s) && DrainOk(SetDrain(s, d, pc), d)
    ensures Inv(SetDrain(s, d, pc))
  {
    hide Total;
  }

  lemma UpsertKeeps(s: State, bal: Pair, last: nat, upTo: nat)
    requires Inv(s) && Covers(s, bal, last, upTo)
    ensures var t := s.(row := Upsert(s.row, bal, last, upTo)); Inv(t) && last <= t.row.lastSeq
  {
    hide Total;
  }

  lemma StampKeeps(s: State, last: nat)
    requires Inv(s) && s.row.Row? && last <= s.row.lastSeq
    ensures Inv(s.(drainedSeq := last))
  {
    hide Total;
  }

  lemma CopyCovers(s: State, last: nat)
    requires Inv(s) && last <= s.applySeq
    ensures Covers(s, s.bal, last, |s.log|)
  {
    assert s.log[..|s.log|] == s.log;
  }

  lemma DrainIsOk(s: State, d: nat)
    requires Inv(s)
    ensures DrainOk(s, d) && s.lastSeq <= s.applySeq
  {
  }

  lemma LookKeeps(s: State, e: Event)
    requires Inv(s) && (e.DrainLoadLast? || e.DrainCompare? || e.StampLoad?)
    ensures Inv(Next(s, e))
  {
    DrainIsOk(s, e.d);
    var t := Next(s, e);
    hide Inv;
    if t != s {
      SetDrainKeeps(s, e.d, t.drains[e.d]);
    }
  }

  lemma CopyKeeps(s: State, d: nat)
    requires Inv(s)
    ensures Inv(Next(s, DrainCopy(d)))
  {
    DrainIsOk(s, d);
    hide Inv, Covers;
    if Drain(s, d).Dirty? {
      var pc := Copied(Drain(s, d).last, s.bal, |s.log|);
      CopyCovers(s, Drain(s, d).last);
      CoversFrame(s, SetDrain(s, d, pc), s.bal, pc.last, |s.log|);
      SetDrainKeeps(s, d, pc);
    }
  }

  lemma RecheckKeeps(s: State, d: nat)
    requires Inv(s)
    ensures Inv(Next(s, DrainRecheck(d)))
  {
    DrainIsOk(s, d);
    hide Inv, Covers;
    if Drain(s, d).Copied? {
      var pc := Drain(s, d);
      var t := Next(s, DrainRecheck(d));
      CoversFrame(s, t, pc.bal, pc.last, pc.upTo);
      SetDrainKeeps(s, d, t.drains[d]);
    }
  }

  lemma UpsertStepKeeps(s: State, d: nat, ok: bool)
    requires Inv(s)
    ensures Inv(Next(s, DrainUpsert(d, ok)))
  {
    DrainIsOk(s, d);
    hide Inv, Covers, Upsert;
    if Drain(s, d).Queued? {
      var pc := Drain(s, d);
      if ok {
        UpsertKeeps(s, pc.bal, pc.last, pc.upTo);
        SetDrainKeeps(s.(row := Upsert(s.row, pc.bal, pc.last, pc.upTo)), d, Upserted(pc.last));
      } else {
        SetDrainKeeps(s, d, Waiting);
      }
    }
  }

  lemma StampSwapKeeps(s: State, d: nat)
    requires Inv(s)
    ensures Inv(Next(s, StampSwap(d)))
  {
    DrainIsOk(s, d);
    hide Inv;
    if Drain(s, d).Stamping? {
      var pc := Drain(s, d);
      var t := Next(s, StampSwap(d));
      SetDrainKeeps(s, d, t.drains[d]);
      if pc.cur < pc.last && s.drainedSeq == pc.cur {
        StampKeeps(SetDrain(s, d, Waiting), pc.last);
      }
    }
  }

  lemma DrainKeeps(s: State, e: Event)
    requires Inv(s) && !e.Load? && !e.Swap? && !e.TakeSeq? && !e.RaiseLast? && !e.OtherCells?
    ensures Inv(Next(s, e))
  {
    hide Inv, Next;
    match e {
      case DrainLoadLast(_) => LookKeeps(s, e);
      case DrainCompare(_) => LookKeeps(s, e);
      case DrainCopy(d) => CopyKeeps(s, d);
      case DrainRecheck(d) => RecheckKeeps(s, d);
      case DrainUpsert(d, ok) => UpsertStepKeeps(s, d, ok);
      case StampLoad(_) => LookKeeps(s, e);
      case StampSwap(d) => StampSwapKeeps(s, d);
    }
  }

  lemma CoversFrame(s: State, t: State, bal: Pair, stamp: nat, upTo: nat)
    requires Covers(s, bal, stamp, upTo)
    requires t.base == s.base && t.log == s.log && t.seqs == s.seqs && t.applySeq == s.applySeq
    ensures Covers(t, bal, stamp, upTo)
  {
  }

  lemma NextKeepsInv(s: State, e: Event)
    requires Inv(s)
    ensures Inv(Next(s, e))
  {
    hide Inv, Next;
    match e {
      case Load(_, _) => LoadKeeps(s, e);
      case RaiseLast(_) => RaiseKeeps(s, e);
      case Swap(w) => SwapKeeps(s, w);
      case TakeSeq(w) => TakeSeqKeeps(s, w);
      case OtherCells(_) => OtherCellsKeep(s, e);
      case _ => DrainKeeps(s, e);
    }
  }

  lemma {:induction false} RunKeepsInv(s: State, es: seq<Event>)
    requires Inv(s)
    ensures Inv(Run(s, es))
  {
    hide Inv, Next;
    if es != [] {
      RunKeepsInv(s, es[..|es| - 1]);
      NextKeepsInv(Run(s, es[..|es| - 1]), es[|es| - 1]);
    }
  }

  // ---- What the drain promises ----------------------------------------------

  /** No writer is between its swap and the raise of `last_seq`. */
  ghost predicate Quiet(s: State) {
    forall w :: w in s.writers ==> s.writers[w].Resting? || s.writers[w].Loaded?
  }

  /** In every run since the cell was inserted, a row stamped n holds exactly the
      base and a prefix of the swaps, and every swap numbered n or less is in it. */
  lemma RowIncludesItsStamp(seed: Row, applySeq: nat, w: nat, delta: Pair, es: seq<Event>, i: nat)
    ensures var s := Run(Inserted(seed, applySeq, w, delta), es);
            s.row.Row? ==>
              && s.row.upTo <= |s.log| && s.row.bal == Total(s.base, s.log[..s.row.upTo])
              && (i in s.seqs && s.seqs[i] <= s.row.lastSeq ==> i < s.row.upTo)
  {
    InsertedIsFine(seed, applySeq, w, delta);
    RunKeepsInv(Inserted(seed, applySeq, w, delta), es);
  }

  lemma CleanMeansEqual(s: State)
    requires Inv(s) && Quiet(s) && s.lastSeq <= s.drainedSeq
    ensures s.row.Row? && s.row.bal == s.bal
  {
    if s.log != [] {
      QuietIsNumbered(s, |s.log| - 1);
    }
    assert s.log[..|s.log|] == s.log;
  }

  lemma QuietIsNumbered(s: State, i: nat)
    requires Inv(s) && Quiet(s) && i < |s.log|
    ensures i in s.seqs && s.seqs[i] <= s.lastSeq
  {
    assert s.log[i].writer in s.writers ==> WriterOk(s, s.log[i].writer);
  }

  /** Once no writer is mid-update and the cell reads as clean, row and cell agree. */
  lemma CleanRowEqualsCell(seed: Row, applySeq: nat, w: nat, delta: Pair, es: seq<Event>)
    ensures var s := Run(Inserted(seed, applySeq, w, delta), es);
            Quiet(s) && s.lastSeq <= s.drainedSeq ==> s.row.Row? && s.row.bal == s.bal
  {
    InsertedIsFine(seed, applySeq, w, delta);
    RunKeepsInv(Inserted(seed, applySeq, w, delta), es);
    var s := Run(Inserted(seed, applySeq, w, delta), es);
    hide Inv, Run, Inserted;
    if Quiet(s) && s.lastSeq <= s.drainedSeq {
      CleanMeansEqual(s);
    }
  }

  /** One tick of drain `d`, from the first load to the stamp. */
  function Tick(d: nat): seq<Event> {
    [DrainLoadLast(d), DrainCompare(d), DrainCopy(d), DrainRecheck(d), DrainUpsert(d, true), StampLoad(d), StampSwap(d)]
  }

  lemma RunStep(s: State, es: seq<Event>, e: Event)
    ensures Run(s, es + [e]) == Next(Run(s, es), e)
  {
    assert (es + [e])[..|es|] == es;
  }

  /** The tick's first half: nothing to do, or a copy of the cell is queued. */
  function Front(s: State, d: nat): State {
    Next(Next(Next(Next(s, DrainLoadLast(d)), DrainCompare(d)), DrainCopy(d)), DrainRecheck(d))
  }

  function Back(s: State, d: nat): State {
    Next(Next(Next(s, DrainUpsert(d, true)), StampLoad(d)), StampSwap(d))
  }

  lemma FrontEffect(s: State, d: nat)
    requires Drain(s, d).Waiting?
    ensures var pc := if s.lastSeq <= s.drainedSeq then Waiting else Queued(s.lastSeq, s.bal, |s.log|);
            Front(s, d) == SetDrain(s, d, pc)
  {
    LookEffect(s, d);
    var pc := if s.lastSeq <= s.drainedSeq then Waiting else Dirty(s.lastSeq);
    CopyEffect(SetDrain(s, d, pc), d);
    hide Next;
    assert SetDrain(SetDrain(s, d, pc), d, Queued(s.lastSeq, s.bal, |s.log|))
        == SetDrain(s, d, Queued(s.lastSeq, s.bal, |s.log|));
  }

  lemma LookEffect(s: State, d: nat)
    requires Drain(s, d).Waiting?
    ensures var pc := if s.lastSeq <= s.drainedSeq then Waiting else Dirty(s.lastSeq);
            Next(Next(s, DrainLoadLast(d)), DrainCompare(d)) == SetDrain(s, d, pc)
  {
    assert s.drains[d := SawLast(s.lastSeq)][d := Waiting] == s.drains[d := Waiting];
    assert s.drains[d := SawLast(s.lastSeq)][d := Dirty(s.lastSeq)] == s.drains[d := Dirty(s.lastSeq)];
  }

  lemma CopyEffect(s: State, d: nat)
    requires Drain(s, d).Waiting? || Drain(s, d) == Dirty(s.lastSeq)
    ensures var t := Next(Next(s, DrainCopy(d)), DrainRecheck(d));
            t == if Drain(s, d).Waiting? then s else SetDrain(s, d, Queued(s.lastSeq, s.bal, |s.log|))
  {
    var c, q := Copied(s.lastSeq, s.bal, |s.log|), Queued(s.lastSeq, s.bal, |s.log|);
    assert s.drains[d := c][d := q] == s.drains[d := q];
  }

  lemma BackEffect(s: State, d: nat)
    ensures var t := Back(s, d);
            && t.writers == s.writers && t.bal == s.bal && t.lastSeq == s.lastSeq
            && (Drain(s, d).Waiting? ==> t.drainedSeq == s.drainedSeq)
            && (Drain(s, d).Queued? ==> t.drainedSeq == Max(s.drainedSeq, Drain(s, d).last))
  {
    UpsertEffect(s, d);
    StampEffect(Next(s, DrainUpsert(d, true)), d);
    hide Next, Drain;
  }

  lemma UpsertEffect(s: State, d: nat)
    ensures var t := Next(s, DrainUpsert(d, true));
            && t.writers == s.writers && t.bal == s.bal && t.lastSeq == s.lastSeq && t.drainedSeq == s.drainedSeq
            && (Drain(s, d).Waiting? ==> t == s)
            && (Drain(s, d).Queued? ==> Drain(t, d) == Upserted(Drain(s, d).last))
  {
    hide Upsert;
  }

  lemma StampEffect(s: State, d: nat)
    ensures var t := Next(Next(s, StampLoad(d)), StampSwap(d));
            && t.writers == s.writers && t.bal == s.bal && t.lastSeq == s.lastSeq
            && (Drain(s, d).Waiting? ==> t == s)
            && (Drain(s, d).Upserted? ==> t.drainedSeq == Max(s.drainedSeq, Drain(s, d).last))
  {
  }

  lemma RunTick(s: State, d: nat)
    ensures Run(s, Tick(d)) == Back(Front(s, d), d)
  {
    hide Next;
    var es := Tick(d);
    assert es[..0] == [];
    for k := 0 to 7
      invariant forall j :: 0 <= j < k ==> Run(s, es[..j + 1]) == Next(Run(s, es[..j]), es[j])
    {
      RunStep(s, es[..k], es[k]);
      assert es[..k] + [es[k]] == es[..k + 1];
    }
    assert es[..7] == es;
    hide Run;
    assert forall j :: 0 <= j < 7 ==> Run(s, es[..j + 1]) == Next(Run(s, es[..j]), es[j]);
    assert Run(s, es[..3 + 1]) == Front(s, d) by {
      assert Run(s, es[..0 + 1]) == Next(s, es[0]);
      assert Run(s, es[..1 + 1]) == Next(Run(s, es[..1]), es[1]);
      assert Run(s, es[..2 + 1]) == Next(Run(s, es[..2]), es[2]);
    }
    assert Run(s, es[..4 + 1]) == Next(Run(s, es[..4]), es[4]);
    assert Run(s, es[..5 + 1]) == Next(Run(s, es[..5]), es[5]);
    assert Run(s, es[..6 + 1]) == Next(Run(s, es[..6]), es[6]);
  }

  lemma TickEffect(s: State, d: nat)
    requires Drain(s, d).Waiting?
    ensures var t := Run(s, Tick(d));
            && t.writers == s.writers && t.bal == s.bal && t.lastSeq == s.lastSeq
            && t.drainedSeq == Max(s.drainedSeq, s.lastSeq)
  {
    RunTick(s, d);
    FrontEffect(s, d);
    BackEffect(Front(s, d), d);
    hide Front, Back, Run, Tick;
  }

  /** A tick that meets no writer and no other drain step makes the row catch up. */
  lemma QuietTickCatchesUp(s: State, d: nat)
    requires Inv(s) && Quiet(s) && Drain(s, d).Waiting?
    ensures var t := Run(s, Tick(d));
            t.bal == s.bal && t.lastSeq <= t.drainedSeq && t.row.Row? && t.row.bal == t.bal
  {
    RunKeepsInv(s, Tick(d));
    TickEffect(s, d);
    var t := Run(s, Tick(d));
    hide Inv, Run, Tick;
    CleanMeansEqual(t);
  }

  function SumDeltas(log: seq<Entry>): Pair {
    if log == [] then ZERO else Plus(SumDeltas(log[..|log| - 1]), log[|log| - 1].delta)
  }

  /** The balance is the base plus the exact sum of the deltas, cut to 64 bits once,
      so the order in which the swaps landed does not matter. */
  lemma {:induction false} TotalIsSum(base: Pair, log: seq<Entry>)
    requires Fits(base)
    ensures Total(base, log) == WrapPair(Plus(base, SumDeltas(log)))
  {
    if log != [] {
      var init, d := log[..|log| - 1], log[|log| - 1].delta;
      TotalIsSum(base, init);
      WrapPlus(Plus(base, SumDeltas(init)), d);
      hide WrapPair;
    }
  }
}
