/**
  The rollup row of a balance cell only moves forward (poc/ledger-extension/src/lib.rs):
  however many drain ticks run at once, no upsert takes a delta out of the row again. The
  ticks copy the cell at different times and write in any order; what keeps them apart is
  that a tick drops its copy unless `last_seq` is still the one it started with.
*/
module BalanceRows {
  import opened BalanceDrain
  import opened BalancePair

  /** A copy that counts for `last` may be written over one that contains `upTo` swaps and
      counts for `stamp`. */
  ghost predicate After(last: nat, copied: nat, stamp: nat, upTo: nat) {
    stamp < last ==> upTo <= copied
  }

  ghost predicate AfterRow(s: State, last: nat, copied: nat) {
    s.row.Row? ==> After(last, copied, s.row.lastSeq, s.row.upTo)
  }

  ghost predicate AfterQueued(s: State, last: nat, copied: nat) {
    forall d :: d in s.drains && s.drains[d].Queued? ==> After(last, copied, s.drains[d].last, s.drains[d].upTo)
  }

  /** Queued copies are in the order of their numbers, and so is a copy still to be
      rechecked if `last_seq` has not moved since. */
  ghost predicate Ranked(s: State, d: nat)
    requires d in s.drains
  {
    match s.drains[d]
    case SawLast(last) => last <= s.lastSeq
    case Dirty(last) => last <= s.lastSeq
    case Copied(last, _, upTo) =>
      last <= s.lastSeq && (last == s.lastSeq ==> AfterRow(s, last, upTo) && AfterQueued(s, last, upTo))
    case Queued(last, _, upTo) => last <= s.lastSeq && AfterRow(s, last, upTo) && AfterQueued(s, last, upTo)
    case _ => true
  }

  ghost predicate AllRanked(s: State) {
    forall d :: d in s.drains ==> Ranked(s, d)
  }

  lemma WriterRanks(s: State, e: Event)
    requires AllRanked(s) && (e.Load? || e.Swap? || e.TakeSeq? || e.RaiseLast?)
    ensures AllRanked(Next(s, e))
  {
    var t := Next(s, e);
    assert t.drains == s.drains && t.row == s.row && s.lastSeq <= t.lastSeq;
    hide Next, After;
    forall d | d in t.drains
      ensures Ranked(t, d)
    {
      assert Ranked(s, d);
    }
  }

  /** A tick that neither queues nor writes. */
  lemma QuietRanks(s: State, t: State, d: nat)
    requires AllRanked(s) && t.row == s.row && t.lastSeq == s.lastSeq && d in t.drains
    requires t.drains == s.drains[d := t.drains[d]] && !t.drains[d].Queued? && Ranked(t, d)
    ensures AllRanked(t)
  {
    hide After;
    forall c | c in t.drains
      ensures Ranked(t, c)
    {
      if c != d {
        assert Ranked(s, c);
      }
    }
  }

  lemma CopyRanks(s: State, d: nat)
    requires Inv(s) && AllRanked(s) && d in s.drains && s.drains[d].Dirty?
    ensures AllRanked(Next(s, DrainCopy(d)))
  {
    var t := Next(s, DrainCopy(d));
    assert Ranked(s, d);
    assert forall c :: c in s.drains && s.drains[c].Queued? ==> DrainOk(s, c) && s.drains[c].upTo <= |s.log|;
    assert s.row.Row? ==> s.row.upTo <= |s.log|;
    hide Inv, Next;
    QuietRanks(s, t, d);
  }

  lemma RecheckRanks(s: State, d: nat)
    requires AllRanked(s) && d in s.drains && s.drains[d].Copied?
    ensures AllRanked(Next(s, DrainRecheck(d)))
  {
    var t := Next(s, DrainRecheck(d));
    assert Ranked(s, d);
    if s.drains[d].last == s.lastSeq {
      forall c | c in t.drains
        ensures Ranked(t, c)
      {
        if c != d {
          assert Ranked(s, c);
        }
      }
    } else {
      hide Next;
      QuietRanks(s, t, d);
    }
  }

  lemma UpsertRanks(s: State, d: nat, ok: bool)
    requires AllRanked(s) && d in s.drains && s.drains[d].Queued?
    ensures AllRanked(Next(s, DrainUpsert(d, ok)))
  {
    var t := Next(s, DrainUpsert(d, ok));
    forall c | c in t.drains
      ensures Ranked(t, c)
    {
      if c != d {
        assert Ranked(s, c);
      }
    }
  }

  /** Loading, comparing and stamping. */
  lemma OtherTickRanks(s: State, e: Event)
    requires AllRanked(s) && (e.DrainLoadLast? || e.DrainCompare? || e.StampLoad? || e.StampSwap?)
    ensures AllRanked(Next(s, e))
  {
    var t := Next(s, e);
    if e.d in s.drains {
      assert Ranked(s, e.d);
    }
    hide AllRanked;
    if t != s {
      QuietRanks(s, t, e.d);
    }
  }

  lemma DrainRanks(s: State, e: Event)
    requires Inv(s) && AllRanked(s) && !e.Load? && !e.Swap? && !e.TakeSeq? && !e.RaiseLast? && !e.OtherCells?
    ensures AllRanked(Next(s, e))
  {
    hide Inv, AllRanked, Next;
    if e.DrainLoadLast? || e.DrainCompare? || e.StampLoad? || e.StampSwap? {
      OtherTickRanks(s, e);
    } else if e.DrainCopy? && Drain(s, e.d).Dirty? {
      CopyRanks(s, e.d);
    } else if e.DrainRecheck? && Drain(s, e.d).Copied? {
      RecheckRanks(s, e.d);
    } else if e.DrainUpsert? && Drain(s, e.d).Queued? {
      UpsertRanks(s, e.d, e.ok);
    } else {
      NotTheTurn(s, e);
    }
  }

  lemma NotTheTurn(s: State, e: Event)
    requires e.DrainCopy? || e.DrainRecheck? || e.DrainUpsert?
    requires e.DrainCopy? ==> !Drain(s, e.d).Dirty?
    requires e.DrainRecheck? ==> !Drain(s, e.d).Copied?
    requires e.DrainUpsert? ==> !Drain(s, e.d).Queued?
    ensures Next(s, e) == s
  {
  }

  lemma NextRanks(s: State, e: Event)
    requires Inv(s) && AllRanked(s)
    ensures AllRanked(Next(s, e))
  {
    if e.OtherCells? {
      var t := Next(s, e);
      assert t.drains == s.drains && t.row == s.row && t.lastSeq == s.lastSeq;
      hide Next, Inv, After;
      assert forall d :: d in s.drains ==> Ranked(s, d) && Ranked(t, d);
    } else {
      hide Inv, AllRanked, Next;
      if e.Load? || e.Swap? || e.TakeSeq? || e.RaiseLast? {
        WriterRanks(s, e);
      } else {
        DrainRanks(s, e);
      }
    }
  }

  lemma {:induction false} RunRanks(s: State, es: seq<Event>)
    requires Inv(s) && AllRanked(s)
    ensures Inv(Run(s, es)) && AllRanked(Run(s, es))
  {
    hide Inv, AllRanked, Next;
    if es != [] {
      RunRanks(s, es[..|es| - 1]);
      NextKeepsInv(Run(s, es[..|es| - 1]), es[|es| - 1]);
      NextRanks(Run(s, es[..|es| - 1]), es[|es| - 1]);
    }
  }

  lemma WriteGoesForward(s: State, d: nat, ok: bool)
    requires AllRanked(s) && s.row.Row?
    ensures var t := Next(s, DrainUpsert(d, ok));
            t.row.Row? && s.row.upTo <= t.row.upTo && s.row.lastSeq <= t.row.lastSeq
  {
    if d in s.drains {
      assert Ranked(s, d);
    }
  }

  lemma OnlyUpsertsWrite(s: State, e: Event)
    requires !e.DrainUpsert?
    ensures Next(s, e).row == s.row
  {
  }

  /** In every run of writers and drain ticks, each step leaves the row with at least the
      swaps and the number it had. */
  lemma RowNeverGoesBack(seed: Row, applySeq: nat, w: nat, delta: Pair, es: seq<Event>, e: Event)
    ensures var s := Run(Inserted(seed, applySeq, w, delta), es);
            s.row.Row? ==>
              && Next(s, e).row.Row? && s.row.upTo <= Next(s, e).row.upTo
              && s.row.lastSeq <= Next(s, e).row.lastSeq
  {
    assert AllRanked(Inserted(seed, applySeq, w, delta));
    hide Run, Inv, Next, Inserted, AllRanked;
    InsertedIsFine(seed, applySeq, w, delta);
    RunRanks(Inserted(seed, applySeq, w, delta), es);
    var s := Run(Inserted(seed, applySeq, w, delta), es);
    if s.row.Row? {
      if e.DrainUpsert? {
        WriteGoesForward(s, e.d, e.ok);
      } else {
        OnlyUpsertsWrite(s, e);
      }
    }
  }
}
