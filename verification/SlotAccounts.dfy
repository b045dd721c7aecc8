/**
  No envelope is lost on its way through the slot protocol: from its staging slot it goes
  into a SuperBatch, the SuperBatch waits on the committer queue, and the committer that
  claims it gets all of it and nothing else.
*/
module SlotAccounts {
  import opened SlotProtocol
  import opened SlotSafety

  ghost predicate InSlot(s: State, env: Env) {
    exists i :: 0 <= i < |s.slots| && s.slots[i].valid != 0 && s.slots[i].env == env
  }

  ghost predicate WasPublished(s: State, env: Env) {
    exists p :: 0 <= p < |s.pubs| && s.pubs[p].env == env
  }

  ghost predicate Lists(list: seq<Ref>, env: Env) {
    exists j :: 0 <= j < |list| && list[j].env == env
  }

  /** A pending entry of the committer queue carries the envelope. */
  ghost predicate Waiting(s: State, env: Env, sb: nat) {
    exists x :: 0 <= x < |s.cq| && s.cq[x].valid == 1 && s.cq[x].sb == sb && Lists(s.cq[x].list, env)
  }

  ghost predicate WasClaimed(s: State, sb: nat) {
    exists q :: 0 <= q < |s.claims| && s.claims[q].sb == sb
  }

  /** A slot with an owner was published with it. */
  ghost predicate OwnersKnown(s: State) {
    forall i :: 0 <= i < |s.slots| && s.slots[i].valid != 0 && s.slots[i].owner != 0 ==>
      Publication(s.slots[i].env, s.slots[i].owner) in s.pubs
  }

  ghost predicate EnvelopesKnown(s: State) {
    forall env: nat :: env < s.nextEnv ==> InSlot(s, env) || WasPublished(s, env)
  }

  ghost predicate PublicationsKnown(s: State) {
    forall p :: 0 <= p < |s.pubs| ==> WasClaimed(s, s.pubs[p].sb) || Waiting(s, s.pubs[p].env, s.pubs[p].sb)
  }

  ghost predicate Accounts(s: State) {
    OwnersKnown(s) && EnvelopesKnown(s) && PublicationsKnown(s)
  }

  // ---- steps that move nothing ------------------------------------------------

  /** Slots keep what they hold and pending entries stay as they are. */
  ghost predicate Still(s: State, t: State) {
    && t.nextEnv == s.nextEnv && t.pubs == s.pubs && t.claims == s.claims
    && |t.slots| == |s.slots| && |t.cq| == |s.cq|
    && (forall i :: 0 <= i < |s.slots| ==>
          (t.slots[i].valid != 0 <==> s.slots[i].valid != 0)
          && t.slots[i].env == s.slots[i].env && t.slots[i].owner == s.slots[i].owner)
    && (forall x :: 0 <= x < |s.cq| && s.cq[x].valid == 1 ==>
          t.cq[x].valid == 1 && t.cq[x].sb == s.cq[x].sb && t.cq[x].list == s.cq[x].list)
  }

  lemma StillEnvelopes(s: State, t: State)
    requires EnvelopesKnown(s) && Still(s, t)
    ensures EnvelopesKnown(t)
  {
    forall env: nat | env < t.nextEnv
      ensures InSlot(t, env) || WasPublished(t, env)
    {
      if InSlot(s, env) {
        var i :| 0 <= i < |s.slots| && s.slots[i].valid != 0 && s.slots[i].env == env;
        assert t.slots[i].valid != 0 && t.slots[i].env == env;
      } else {
        assert WasPublished(s, env);
      }
    }
  }

  lemma StillWaiting(s: State, t: State, env: Env, sb: nat)
    requires Waiting(s, env, sb) && |t.cq| == |s.cq|
    requires forall x :: 0 <= x < |s.cq| && s.cq[x].valid == 1 ==>
               t.cq[x].valid == 1 && t.cq[x].sb == s.cq[x].sb && t.cq[x].list == s.cq[x].list
    ensures Waiting(t, env, sb)
  {
    hide Lists;
    var x :| 0 <= x < |s.cq| && s.cq[x].valid == 1 && s.cq[x].sb == sb && Lists(s.cq[x].list, env);
    assert t.cq[x].valid == 1;
  }

  lemma StillAccounts(s: State, t: State)
    requires Accounts(s) && Still(s, t)
    ensures Accounts(t)
  {
    StillEnvelopes(s, t);
    hide EnvelopesKnown, Waiting;
    forall p | 0 <= p < |t.pubs|
      ensures WasClaimed(t, t.pubs[p].sb) || Waiting(t, t.pubs[p].env, t.pubs[p].sb)
    {
      if !WasClaimed(s, s.pubs[p].sb) {
        StillWaiting(s, t, s.pubs[p].env, s.pubs[p].sb);
      }
    }
  }

  lemma RouterIsStill(s: State, e: Event)
    ensures Still(s, RouterStep(s, e)) && RouterStep(s, e).committers == s.committers
  {
  }

  lemma ClaimIsStill(s: State, e: Event)
    requires e.ClaimRead? || e.ClaimGen? || e.ClaimUndo?
    ensures Still(s, ClaimStep(s, e))
  {
  }

  lemma CleanIsStill(s: State, e: Event)
    requires e.CleanRead? || e.FreeSlot? || e.FreeCq? || e.Complete? || e.Vacate? || e.Forget?
    ensures Still(s, CleanStep(s, e))
  {
  }

  // ---- steps that move an envelope ----------------------------------------------

  lemma PushAccounts(s: State, i: nat, blocks: set<Block>)
    requires Inv(s) && Accounts(s)
    ensures Accounts(PushStep(s, i, blocks))
  {
    var t := PushStep(s, i, blocks);
    hide Inv, StagingShared;
    if t != s {
      forall env: nat | env < t.nextEnv
        ensures InSlot(t, env) || WasPublished(t, env)
      {
        if env == s.nextEnv {
          assert t.slots[i].valid != 0 && t.slots[i].env == env;
        } else if InSlot(s, env) {
          var j :| 0 <= j < |s.slots| && s.slots[j].valid != 0 && s.slots[j].env == env;
          assert t.slots[j] == s.slots[j];
        } else {
          assert WasPublished(s, env);
        }
      }
      forall p | 0 <= p < |t.pubs|
        ensures WasClaimed(t, t.pubs[p].sb) || Waiting(t, t.pubs[p].env, t.pubs[p].sb)
      {
        if !WasClaimed(s, s.pubs[p].sb) {
          StillWaiting(s, t, s.pubs[p].env, s.pubs[p].sb);
        }
      }
    }
  }

  lemma ClaimAccounts(s: State, c: nat)
    requires Accounts(s)
    ensures Accounts(ClaimStep(s, ClaimValid(c)))
  {
    var t := ClaimStep(s, ClaimValid(c));
    if t.claims == s.claims {
      assert Still(s, t);
      hide Accounts, Still;
      StillAccounts(s, t);
    } else {
      var sb := t.claims[|s.claims|].sb;
      hide EnvelopesKnown, Lists;
      assert EnvelopesKnown(t) by {
        SameEnvelopes(s, t);
      }
      forall p | 0 <= p < |t.pubs|
        ensures WasClaimed(t, t.pubs[p].sb) || Waiting(t, t.pubs[p].env, t.pubs[p].sb)
      {
        ClaimPublication(s, t, c, p);
      }
    }
  }

  lemma SameEnvelopes(s: State, t: State)
    requires EnvelopesKnown(s) && t.slots == s.slots && t.pubs == s.pubs && t.nextEnv == s.nextEnv
    ensures EnvelopesKnown(t)
  {
    forall env: nat | env < t.nextEnv
      ensures InSlot(t, env) || WasPublished(t, env)
    {
      assert InSlot(s, env) || WasPublished(s, env);
    }
  }

  lemma ClaimPublication(s: State, t: State, c: nat, p: nat)
    requires t == ClaimStep(s, ClaimValid(c)) && t.claims != s.claims && PublicationsKnown(s) && p < |t.pubs|
    ensures WasClaimed(t, t.pubs[p].sb) || Waiting(t, t.pubs[p].env, t.pubs[p].sb)
  {
    hide Lists;
    var sb, env := s.pubs[p].sb, s.pubs[p].env;
    assert WasClaimed(s, sb) || Waiting(s, env, sb);
    if WasClaimed(s, sb) {
      var q :| 0 <= q < |s.claims| && s.claims[q].sb == sb;
      assert t.claims[q].sb == sb;
    } else {
      var x :| 0 <= x < |s.cq| && s.cq[x].valid == 1 && s.cq[x].sb == sb && Lists(s.cq[x].list, env);
      if t.cq[x].valid == 1 {
        assert t.cq[x] == s.cq[x];
      } else {
        assert t.claims[|s.claims|].sb == sb;
      }
    }
  }

  lemma TakeAccounts(s: State, t: State, i: nat)
    requires Accounts(s) && i < |s.slots| && s.slots[i].valid != 0 && s.slots[i].owner != 0
    requires t == s.(slots := s.slots[i := s.slots[i].(valid := 0, owner := 0)], committers := t.committers)
    ensures Accounts(t)
  {
    assert Publication(s.slots[i].env, s.slots[i].owner) in s.pubs;
    forall env: nat | env < t.nextEnv
      ensures InSlot(t, env) || WasPublished(t, env)
    {
      if InSlot(s, env) {
        var j :| 0 <= j < |s.slots| && s.slots[j].valid != 0 && s.slots[j].env == env;
        if j == i {
          var p :| 0 <= p < |s.pubs| && s.pubs[p] == Publication(env, s.slots[i].owner);
          assert t.pubs[p].env == env;
        } else {
          assert t.slots[j] == s.slots[j];
        }
      } else {
        assert WasPublished(s, env);
      }
    }
    hide Lists;
    forall p | 0 <= p < |t.pubs|
      ensures WasClaimed(t, t.pubs[p].sb) || Waiting(t, t.pubs[p].env, t.pubs[p].sb)
    {
      if !WasClaimed(s, s.pubs[p].sb) {
        StillWaiting(s, t, s.pubs[p].env, s.pubs[p].sb);
      }
    }
  }

  lemma CleanAccounts(s: State, e: Event)
    requires Inv(s) && Accounts(s) && (e.CleanStamped? || e.CleanUnstamped?)
    ensures Accounts(CleanStep(s, e))
  {
    var t := CleanStep(s, e);
    if t.slots == s.slots {
      assert Still(s, t);
      hide *;
      StillAccounts(s, t);
    } else {
      assert CommitterOk(s, e.c) && CqOk(s, s.committers[e.c].x);
      var i := s.committers[e.c].list[0].slot;
      hide Accounts;
      TakeAccounts(s, t, i);
    }
  }

  /** What filling entry `x` adds: a pending entry listing what is published with it. */
  ghost predicate Publishes(s: State, t: State, x: nat) {
    && x < |s.cq| && |t.cq| == |s.cq| && s.cq[x].valid == 0 && s.router.Allocated?
    && t.cq[x].valid == 1 && t.cq[x].sb == s.nextSb + 1 && |t.cq[x].list| == |s.router.packed|
    && (forall y :: 0 <= y < |s.cq| && y != x ==> t.cq[y] == s.cq[y])
    && |t.pubs| == |s.pubs| + |s.router.packed|
    && (forall j :: 0 <= j < |s.router.packed| ==>
          t.pubs[|s.pubs| + j] == Publication(t.cq[x].list[j].env, s.nextSb + 1))
  }

  lemma FillAdds(s: State, t: State, x: nat)
    requires s.router.Allocated? && x < |s.cq| && s.cq[x].valid == 0 && !QueueShared(s) && t == FillStep(s, x)
    ensures Publishes(s, t, x)
  {
    hide QueueShared, Publish;
  }

  lemma FillPublications(s: State, t: State, x: nat)
    requires PublicationsKnown(s) && Publishes(s, t, x) && t.claims == s.claims
    requires forall p :: 0 <= p < |s.pubs| ==> t.pubs[p] == s.pubs[p]
    ensures PublicationsKnown(t)
  {
    forall p | 0 <= p < |t.pubs|
      ensures WasClaimed(t, t.pubs[p].sb) || Waiting(t, t.pubs[p].env, t.pubs[p].sb)
    {
      if p >= |s.pubs| {
        var j := p - |s.pubs|;
        assert t.pubs[|s.pubs| + j] == Publication(t.cq[x].list[j].env, s.nextSb + 1);
        assert Lists(t.cq[x].list, t.pubs[p].env);
      } else {
        assert WasClaimed(s, s.pubs[p].sb) || Waiting(s, s.pubs[p].env, s.pubs[p].sb);
        if !WasClaimed(s, s.pubs[p].sb) {
          StillWaiting(s, t, s.pubs[p].env, s.pubs[p].sb);
        }
      }
    }
  }

  lemma FillOwners(s: State, t: State, x: nat)
    requires OwnersKnown(s) && SlotsOk(s) && RouterOk(s) && s.router.Allocated?
    requires FillFacts(s, t, x, s.router.packed) && Publishes(s, t, x)
    ensures OwnersKnown(t)
  {
    forall i | 0 <= i < |t.slots| && t.slots[i].valid != 0 && t.slots[i].owner != 0
      ensures Publication(t.slots[i].env, t.slots[i].owner) in t.pubs
    {
      if i in s.router.packed {
        var j :| 0 <= j < |s.router.packed| && s.router.packed[j] == i;
        assert t.pubs[|s.pubs| + j].env == s.slots[i].env;
        assert t.pubs[|s.pubs| + j] == Publication(t.cq[x].list[j].env, s.nextSb + 1);
        assert t.pubs[|s.pubs| + j] == Publication(t.slots[i].env, t.slots[i].owner);
      } else {
        assert t.slots[i] == s.slots[i];
        var p :| 0 <= p < |s.pubs| && s.pubs[p] == Publication(s.slots[i].env, s.slots[i].owner);
        assert t.pubs[p] == s.pubs[p];
      }
    }
  }

  lemma FillEnvelopes(s: State, t: State, x: nat)
    requires EnvelopesKnown(s) && s.router.Allocated? && FillFacts(s, t, x, s.router.packed)
    ensures EnvelopesKnown(t)
  {
    forall env: nat | env < t.nextEnv
      ensures InSlot(t, env) || WasPublished(t, env)
    {
      assert InSlot(s, env) || WasPublished(s, env);
      if InSlot(s, env) {
        var i :| 0 <= i < |s.slots| && s.slots[i].valid != 0 && s.slots[i].env == env;
        assert t.slots[i].valid != 0 && t.slots[i].env == env;
      } else {
        var p :| 0 <= p < |s.pubs| && s.pubs[p].env == env;
        assert t.pubs[p] == s.pubs[p];
      }
    }
  }

  lemma FillAccounts(s: State, x: nat)
    requires Inv(s) && Accounts(s)
    ensures Accounts(FillStep(s, x))
  {
    if s.router.Allocated? && x < |s.cq| && s.cq[x].valid == 0 && !QueueShared(s) {
      var t := FillStep(s, x);
      FillEffect(s, t, x);
      FillAdds(s, t, x);
      assert t.claims == s.claims && forall p :: 0 <= p < |s.pubs| ==> t.pubs[p] == s.pubs[p];
      hide Publishes, FillFacts, OwnersKnown, EnvelopesKnown, PublicationsKnown;
      FillOwners(s, t, x);
      FillEnvelopes(s, t, x);
      FillPublications(s, t, x);
    }
  }

  // ---- whole runs -----------------------------------------------------------------

  ghost predicate Moves(e: Event) {
    e.Push? || e.Fill? || e.ClaimValid? || e.CleanStamped? || e.CleanUnstamped?
  }

  lemma OthersAreStill(s: State, e: Event)
    requires !Moves(e)
    ensures Still(s, Next(s, e))
  {
    hide Still, PushStep, FillStep, RouterStep, ClaimStep, CleanStep;
    if e.ClaimRead? || e.ClaimGen? || e.ClaimUndo? {
      ClaimIsStill(s, e);
    } else if e.CleanRead? || e.FreeSlot? || e.FreeCq? || e.Complete? || e.Vacate? || e.Forget? {
      CleanIsStill(s, e);
    } else {
      RouterIsStill(s, e);
    }
  }

  lemma NextKeepsAccounts(s: State, e: Event)
    requires Inv(s) && Accounts(s)
    ensures Accounts(Next(s, e))
  {
    hide Inv, Accounts, Still, PushStep, FillStep, RouterStep, ClaimStep, CleanStep;
    match e {
      case Push(i, blocks) => PushAccounts(s, i, blocks);
      case Fill(x) => FillAccounts(s, x);
      case ClaimValid(c) => ClaimAccounts(s, c);
      case CleanStamped(_) => CleanAccounts(s, e);
      case CleanUnstamped(_) => CleanAccounts(s, e);
      case _ =>
        OthersAreStill(s, e);
        StillAccounts(s, Next(s, e));
    }
  }

  lemma {:induction false} RunKeepsAccounts(s: State, es: seq<Event>)
    requires Inv(s) && Accounts(s)
    ensures Inv(Run(s, es)) && Accounts(Run(s, es))
  {
    hide Inv, Next, Accounts;
    if es != [] {
      RunKeepsAccounts(s, es[..|es| - 1]);
      NextKeepsInv(Run(s, es[..|es| - 1]), es[|es| - 1]);
      NextKeepsAccounts(Run(s, es[..|es| - 1]), es[|es| - 1]);
    }
  }

  lemma RunFromEmpty(n: nat, m: nat, k: nat, es: seq<Event>)
    ensures Inv(Run(Empty(n, m, k), es)) && Accounts(Run(Empty(n, m, k), es))
  {
    EmptyIsFine(n, m, k);
    assert Accounts(Empty(n, m, k));
    hide Inv, Accounts, Empty;
    RunKeepsAccounts(Empty(n, m, k), es);
  }

  /** In every run, an envelope that was enqueued is in a staging slot, or was published in
      a SuperBatch that waits on the committer queue with it or was claimed. */
  lemma NoEnvelopeIsLost(n: nat, m: nat, k: nat, es: seq<Event>, env: Env)
    requires env < Run(Empty(n, m, k), es).nextEnv
    ensures var s := Run(Empty(n, m, k), es);
            || (exists i :: 0 <= i < |s.slots| && s.slots[i].valid != 0 && s.slots[i].env == env)
            || (exists p :: 0 <= p < |s.pubs| && s.pubs[p].env == env
                            && (WasClaimed(s, s.pubs[p].sb) || Waiting(s, env, s.pubs[p].sb)))
  {
    hide Inv, Run, Waiting, WasClaimed;
    RunFromEmpty(n, m, k, es);
    var s := Run(Empty(n, m, k), es);
    if !InSlot(s, env) {
      assert WasPublished(s, env);
      var p :| 0 <= p < |s.pubs| && s.pubs[p].env == env;
      assert WasClaimed(s, s.pubs[p].sb) || Waiting(s, s.pubs[p].env, s.pubs[p].sb);
    }
  }

  /** The committer that claims a SuperBatch gets exactly the envelopes published in it. */
  lemma ClaimGetsTheBatch(n: nat, m: nat, k: nat, es: seq<Event>, c: nat, env: Env)
    requires var s := Run(Empty(n, m, k), es);
             c < |s.committers| && s.committers[c].Won? && s.committers[c].x < |s.cq|
             && s.cq[s.committers[c].x].valid == 1
    ensures var s := Run(Empty(n, m, k), es);
            var pc := Next(s, ClaimValid(c)).committers[c];
            && pc.Busy? && pc.sb == s.cq[s.committers[c].x].sb
            && (Lists(pc.list, env) <==> Publication(env, pc.sb) in s.pubs)
  {
    hide Run;
    RunFromEmpty(n, m, k, es);
    var s := Run(Empty(n, m, k), es);
    BatchIsWhole(s, s.committers[c].x, env);
  }

  lemma BatchIsWhole(s: State, x: nat, env: Env)
    requires Inv(s) && Accounts(s) && x < |s.cq| && s.cq[x].valid == 1
    ensures Lists(s.cq[x].list, env) <==> Publication(env, s.cq[x].sb) in s.pubs
  {
    var q := s.cq[x];
    assert CqOk(s, x);
    if Lists(q.list, env) {
      var j :| 0 <= j < |q.list| && q.list[j].env == env;
      assert SlotOk(s, q.list[j].slot);
    }
    if Publication(env, q.sb) in s.pubs {
      var p :| 0 <= p < |s.pubs| && s.pubs[p] == Publication(env, q.sb);
      assert WasClaimed(s, s.pubs[p].sb) || Waiting(s, s.pubs[p].env, s.pubs[p].sb);
      assert !WasClaimed(s, q.sb);
      hide Lists;
      var y :| 0 <= y < |s.cq| && s.cq[y].valid == 1 && s.cq[y].sb == q.sb && Lists(s.cq[y].list, env);
      assert x == y;
    }
  }
}
