/**
  The router's affinity grouping (router.rs): candidates that share a pool key, directly
  or through others, go to the same group. Stock and work-in-progress keys are one key
  space.
*/
module Affinity {
  import opened Collections
  import opened Grouping
  import opened Sorting
  import opened UnionFind

  type Key = (int, int)

  datatype Candidate = Candidate(requestSeq: nat, skuKeys: seq<Key>, wipKeys: seq<Key>)

  function KeysOf(c: Candidate): seq<Key> {
    c.skuKeys + c.wipKeys
  }

  // ---- Connected components -------------------------------------------------

  ghost predicate Shares(cs: seq<Candidate>, i: nat, j: nat) {
    && i < |cs| && j < |cs|
    && exists k :: k in KeysOf(cs[i]) && k in KeysOf(cs[j])
  }

  /** Neighbours on the path share a key. */
  ghost predicate Path(cs: seq<Candidate>, p: seq<nat>) {
    && p != [] && p[0] < |cs|
    && forall t :: 0 <= t < |p| - 1 ==> Shares(cs, p[t], p[t + 1])
  }

  ghost predicate Connected(cs: seq<Candidate>, i: nat, j: nat) {
    exists p :: Path(cs, p) && p[0] == i && p[|p| - 1] == j
  }

  lemma ConnectedRefl(cs: seq<Candidate>, i: nat)
    requires i < |cs|
    ensures Connected(cs, i, i)
  {
    assert Path(cs, [i]);
  }

  lemma ConnectedStep(cs: seq<Candidate>, i: nat, j: nat)
    requires Shares(cs, i, j)
    ensures Connected(cs, i, j)
  {
    assert Path(cs, [i, j]);
  }

  lemma ConnectedTrans(cs: seq<Candidate>, i: nat, j: nat, k: nat)
    requires Connected(cs, i, j) && Connected(cs, j, k)
    ensures Connected(cs, i, k)
  {
    hide Shares;
    var p :| Path(cs, p) && p[0] == i && p[|p| - 1] == j;
    var q :| Path(cs, q) && q[0] == j && q[|q| - 1] == k;
    var r := p + q[1..];
    forall t | 0 <= t < |r| - 1
      ensures Shares(cs, r[t], r[t + 1])
    {
      if t < |p| - 1 {
        assert Shares(cs, p[t], p[t + 1]);
      } else {
        assert Shares(cs, q[t - |p| + 1], q[t - |p| + 1 + 1]);
      }
    }
    assert Path(cs, r);
  }

  lemma ConnectedSym(cs: seq<Candidate>, i: nat, j: nat)
    requires Connected(cs, i, j)
    ensures Connected(cs, j, i)
  {
    var p :| Path(cs, p) && p[0] == i && p[|p| - 1] == j;
    PathBack(cs, p);
  }

  lemma {:induction false} PathBack(cs: seq<Candidate>, p: seq<nat>)
    requires Path(cs, p)
    ensures Connected(cs, p[|p| - 1], p[0])
  {
    if |p| == 1 {
      ConnectedRefl(cs, p[0]);
    } else {
      var n := |p| - 1;
      assert Shares(cs, p[n - 1], p[n - 1 + 1]);
      assert Shares(cs, p[n], p[n - 1]);
      hide Shares;
      ConnectedStep(cs, p[n], p[n - 1]);
      assert Path(cs, p[..n]);
      PathBack(cs, p[..n]);
      ConnectedTrans(cs, p[n], p[n - 1], p[0]);
    }
  }

  // ---- Representatives ------------------------------------------------------

  /** Elements with the same representative are connected. */
  ghost predicate Sound(cs: seq<Candidate>, root: seq<nat>) {
    && |root| == |cs|
    && forall i, j :: 0 <= i < |cs| && 0 <= j < |cs| && root[i] == root[j] ==> Connected(cs, i, j)
  }

  ghost predicate Together(root: seq<nat>, list: seq<nat>) {
    forall s, t :: 0 <= s < |list| && 0 <= t < |list| && list[s] < |root| && list[t] < |root| ==>
      root[list[s]] == root[list[t]]
  }

  /** Joining two connected elements stays sound. */
  lemma JoinSound(cs: seq<Candidate>, root: seq<nat>, a: nat, b: nat, root': seq<nat>)
    requires Sound(cs, root) && a < |cs| && b < |cs| && Connected(cs, a, b)
    requires root' == Joined(root, root[a], root[b], root[a]) || root' == Joined(root, root[a], root[b], root[b])
    ensures Sound(cs, root')
  {
    forall i, j | 0 <= i < |cs| && 0 <= j < |cs| && root'[i] == root'[j]
      ensures Connected(cs, i, j)
    {
      hide Connected;
      if root[i] != root[j] {
        ConnectedSym(cs, a, b);
        if root[i] == root[a] {
          assert Connected(cs, i, a) && Connected(cs, b, j);
          ConnectedTrans(cs, i, a, b);
          ConnectedTrans(cs, i, b, j);
        } else {
          assert Connected(cs, i, b) && Connected(cs, a, j);
          ConnectedTrans(cs, i, b, a);
          ConnectedTrans(cs, i, a, j);
        }
      }
    }
  }

  lemma JoinKeepsTogether(root: seq<nat>, a: nat, b: nat, top: nat, list: seq<nat>)
    requires Together(root, list)
    ensures Together(Joined(root, a, b, top), list)
  {
  }

  /** Connected elements have the same representative once every shared key is joined. */
  ghost predicate Complete(cs: seq<Candidate>, root: seq<nat>) {
    && |root| == |cs|
    && forall i: nat, j: nat :: Shares(cs, i, j) ==> root[i] == root[j]
  }

  lemma {:induction false} PathStays(cs: seq<Candidate>, root: seq<nat>, p: seq<nat>)
    requires Complete(cs, root) && Path(cs, p)
    ensures p[|p| - 1] < |cs| && root[p[0]] == root[p[|p| - 1]]
  {
    hide Shares;
    if |p| > 1 {
      var n := |p| - 1;
      assert Path(cs, p[..n]);
      PathStays(cs, root, p[..n]);
      assert Shares(cs, p[n - 1], p[n - 1 + 1]);
      SharesBounds(cs, p[n - 1], p[n]);
    }
  }

  lemma SharesBounds(cs: seq<Candidate>, i: nat, j: nat)
    requires Shares(cs, i, j)
    ensures i < |cs| && j < |cs|
  {
  }

  /** The representatives name exactly the connected components. */
  lemma RootsAreComponents(cs: seq<Candidate>, root: seq<nat>, i: nat, j: nat)
    requires Sound(cs, root) && Complete(cs, root) && i < |cs| && j < |cs|
    ensures root[i] == root[j] <==> Connected(cs, i, j)
  {
    if Connected(cs, i, j) {
      var p :| Path(cs, p) && p[0] == i && p[|p| - 1] == j;
      hide Path, Complete, Sound;
      PathStays(cs, root, p);
    }
  }

  // ---- The passes of affinity_group -----------------------------------------

  type Index = map<Key, seq<nat>>

  /** Every listed position really has the key. */
  ghost predicate Listed(cs: seq<Candidate>, m: Index) {
    forall k, t :: k in m && 0 <= t < |m[k]| ==> m[k][t] < |cs| && k in KeysOf(cs[m[k][t]])
  }

  ghost predicate HasAll(m: Index, keys: seq<Key>, i: nat) {
    forall k :: k in keys ==> k in m && i in m[k]
  }

  ghost predicate Grew(m: Index, n: Index) {
    forall k, i :: k in m && i in m[k] ==> k in n && i in n[k]
  }

  lemma AddKeeps(cs: seq<Candidate>, m: Index, k: Key, i: nat)
    requires Listed(cs, m) && i < |cs| && k in KeysOf(cs[i])
    ensures var n := m[k := (if k in m then m[k] else []) + [i]];
            Listed(cs, n) && Grew(m, n) && k in n && i in n[k]
  {
    var n := m[k := (if k in m then m[k] else []) + [i]];
    assert n[k][|n[k]| - 1] == i;
  }

  method AddKeys(m: Index, keys: seq<Key>, i: nat, ghost cs: seq<Candidate>) returns (n: Index)
    requires Listed(cs, m) && i < |cs| && forall k :: k in keys ==> k in KeysOf(cs[i])
    ensures Listed(cs, n) && Grew(m, n) && HasAll(n, keys, i)
  {
    n := m;
    for t := 0 to |keys|
      invariant Listed(cs, n) && Grew(m, n) && HasAll(n, keys[..t], i)
    {
      AddKeeps(cs, n, keys[t], i);
      hide Listed;
      n := n[keys[t] := (if keys[t] in n then n[keys[t]] else []) + [i]];
      assert keys[..t + 1] == keys[..t] + [keys[t]];
    }
    assert keys[..|keys|] == keys;
  }

  lemma GrewKeeps(m: Index, n: Index, keys: seq<Key>, i: nat)
    requires Grew(m, n) && HasAll(m, keys, i)
    ensures HasAll(n, keys, i)
  {
  }

  lemma HasBoth(m: Index, n: Index, c: Candidate, i: nat)
    requires HasAll(m, c.skuKeys, i) && Grew(m, n) && HasAll(n, c.wipKeys, i)
    ensures HasAll(n, KeysOf(c), i)
  {
  }

  /** The key index: which candidates have each key. */
  method BuildIndex(cs: seq<Candidate>) returns (m: Index)
    ensures Listed(cs, m)
    ensures forall i :: 0 <= i < |cs| ==> HasAll(m, KeysOf(cs[i]), i)
  {
    m := map[];
    for i := 0 to |cs|
      invariant Listed(cs, m)
      invariant forall j :: 0 <= j < i ==> HasAll(m, KeysOf(cs[j]), j)
    {
      var m1 := AddKeys(m, cs[i].skuKeys, i, cs);
      var m2 := AddKeys(m1, cs[i].wipKeys, i, cs);
      HasBoth(m1, m2, cs[i], i);
      hide Listed, HasAll, Grew;
      forall j | 0 <= j < i
        ensures HasAll(m2, KeysOf(cs[j]), j)
      {
        GrewKeeps(m, m1, KeysOf(cs[j]), j);
        GrewKeeps(m1, m2, KeysOf(cs[j]), j);
      }
      m := m2;
    }
  }

  /** Two candidates listed under one key share it. */
  lemma ListedConnected(cs: seq<Candidate>, m: Index, k: Key, s: nat, t: nat)
    requires Listed(cs, m) && k in m && s < |m[k]| && t < |m[k]|
    ensures m[k][s] < |cs| && m[k][t] < |cs| && Connected(cs, m[k][s], m[k][t])
  {
    assert Shares(cs, m[k][s], m[k][t]);
    ConnectedStep(cs, m[k][s], m[k][t]);
  }

  lemma JoinedOneMore(root: seq<nat>, list: seq<nat>, t: nat, root': seq<nat>)
    requires 0 < t < |list| && list[0] < |root| && list[t] < |root| && Together(root, list[..t])
    requires root' == Joined(root, root[list[0]], root[list[t]], root[list[0]])
          || root' == Joined(root, root[list[0]], root[list[t]], root[list[t]])
    ensures Together(root', list[..t + 1])
  {
    forall s | 0 <= s < t && list[s] < |root|
      ensures root'[list[s]] == root'[list[0]]
    {
      assert list[..t][s] == list[s] && list[..t][0] == list[0];
    }
  }

  /** Join everything listed under one key. */
  method JoinList(uf: DisjointSets, cs: seq<Candidate>, m: Index, k: Key, ghost done: set<Key>)
    requires uf.Valid() && Sound(cs, uf.root) && Listed(cs, m) && k in m
    requires forall d :: d in done ==> d in m && Together(uf.root, m[d])
    modifies uf`root, uf.parent, uf.rank
    ensures uf.Valid() && Sound(cs, uf.root)
    ensures forall d :: d in done + {k} ==> Together(uf.root, m[d])
  {
    var list := m[k];
    if |list| >= 2 {
      for t := 1 to |list|
        invariant uf.Valid() && Sound(cs, uf.root) && Together(uf.root, list[..t])
        invariant forall d :: d in done ==> Together(uf.root, m[d])
      {
        ListedConnected(cs, m, k, 0, t);
        ghost var root := uf.root;
        assert |root| == |cs|;
        uf.Union(list[0], list[t]);
        hide Together, Connected, Listed, Sound;
        JoinSound(cs, root, list[0], list[t], uf.root);
        JoinedOneMore(root, list, t, uf.root);
        forall d | d in done
          ensures Together(uf.root, m[d])
        {
          JoinKeepsTogether(root, root[list[0]], root[list[t]], root[list[0]], m[d]);
          JoinKeepsTogether(root, root[list[0]], root[list[t]], root[list[t]], m[d]);
        }
      }
      assert list[..|list|] == list;
    }
  }

  /** Join by every key: the representatives become the connected components. */
  method JoinAll(uf: DisjointSets, cs: seq<Candidate>, m: Index)
    requires uf.Valid() && Sound(cs, uf.root) && Listed(cs, m)
    requires forall i :: 0 <= i < |cs| ==> HasAll(m, KeysOf(cs[i]), i)
    modifies uf`root, uf.parent, uf.rank
    ensures uf.Valid() && Sound(cs, uf.root) && Complete(cs, uf.root)
  {
    var todo := m.Keys;
    while todo != {}
      invariant todo <= m.Keys && uf.Valid() && Sound(cs, uf.root)
      invariant forall d :: d in m.Keys - todo ==> Together(uf.root, m[d])
      decreases |todo|
    {
      hide Together, Sound, Listed, HasAll;
      var k :| k in todo;
      JoinList(uf, cs, m, k, m.Keys - todo);
      assert m.Keys - (todo - {k}) == (m.Keys - todo) + {k};
      todo := todo - {k};
    }
    assert m.Keys - {} == m.Keys;
    AllJoined(cs, m, uf.root);
  }

  lemma AllJoined(cs: seq<Candidate>, m: Index, root: seq<nat>)
    requires |root| == |cs| && forall k :: k in m ==> Together(root, m[k])
    requires forall i :: 0 <= i < |cs| ==> HasAll(m, KeysOf(cs[i]), i)
    ensures Complete(cs, root)
  {
    forall i: nat, j: nat | Shares(cs, i, j)
      ensures root[i] == root[j]
    {
      var k :| k in KeysOf(cs[i]) && k in KeysOf(cs[j]);
      assert HasAll(m, KeysOf(cs[i]), i) && HasAll(m, KeysOf(cs[j]), j);
      assert Together(root, m[k]);
    }
  }

  // ---- Groups ---------------------------------------------------------------

  function SeqOf(cs: seq<Candidate>, i: nat): nat {
    if i < |cs| then cs[i].requestSeq else 0
  }

  function BySeq(cs: seq<Candidate>): (nat, nat) -> bool {
    (i: nat, j: nat) => SeqOf(cs, i) <= SeqOf(cs, j)
  }

  lemma {:induction false} NoDupCounts(s: seq<nat>)
    ensures NoDup(s) <==> forall x :: multiset(s)[x] <= 1
  {
    if s != [] {
      var t, x := s[..|s| - 1], s[|s| - 1];
      NoDupCounts(t);
      assert s == t + [x];
      assert forall y :: multiset(s)[y] == multiset(t)[y] + if y == x then 1 else 0;
      if NoDup(s) {
        assert NoDup(t);
        assert x !in t;
      } else if NoDup(t) {
        var i, j :| 0 <= i < j < |s| && s[i] == s[j];
        assert j == |s| - 1 && t[i] == x;
        assert x in multiset(t);
      } else {
        var y :| multiset(t)[y] > 1;
        assert multiset(s)[y] > 1;
      }
    }
  }

  lemma SortedCopy(s: seq<nat>, le: (nat, nat) -> bool)
    requires TotalPreorder(le)
    ensures Sorted(Sort(s, le), le) && (NoDup(s) ==> NoDup(Sort(s, le)))
    ensures forall x :: x in Sort(s, le) <==> x in s
  {
    SortSorts(s, le);
    SortPermutes(s, le);
    NoDupCounts(s);
    NoDupCounts(Sort(s, le));
    assert forall x :: x in Sort(s, le) <==> x in multiset(Sort(s, le));
  }

  ghost predicate Rising(s: seq<nat>) {
    forall i, j :: 0 <= i < j < |s| ==> s[i] < s[j]
  }

  /** Candidates with the same `request_seq` stand in the order they arrived. */
  ghost predicate TiesInOrder(cs: seq<Candidate>, s: seq<nat>) {
    forall i, j :: 0 <= i < j < |s| && SeqOf(cs, s[i]) == SeqOf(cs, s[j]) ==> s[i] < s[j]
  }

  function SeqIs(cs: seq<Candidate>, q: nat): nat -> bool {
    (i: nat) => SeqOf(cs, i) == q
  }

  lemma {:induction false} FilterRises(s: seq<nat>, p: nat -> bool)
    requires Rising(s)
    ensures Rising(Filter(s, p)) && forall x :: x in Filter(s, p) ==> x in s
  {
    if s != [] {
      var t, last := s[..|s| - 1], s[|s| - 1];
      FilterRises(t, p);
      var f := Filter(t, p);
      forall k | 0 <= k < |f|
        ensures f[k] < last
      {
        assert f[k] in t;
      }
    }
  }

  lemma {:induction false} FilterHas(s: seq<nat>, p: nat -> bool, i: nat)
    requires i < |s| && p(s[i])
    ensures s[i] in Filter(s, p)
  {
    if i < |s| - 1 {
      FilterHas(s[..|s| - 1], p, i);
    }
  }

  lemma {:induction false} FilterOrders(s: seq<nat>, p: nat -> bool, i: nat, j: nat)
    requires Rising(Filter(s, p)) && i < j < |s| && p(s[i]) && p(s[j])
    ensures s[i] < s[j]
  {
    var t := s[..|s| - 1];
    var f := Filter(t, p);
    if j == |s| - 1 {
      FilterHas(t, p, i);
      var k :| 0 <= k < |f| && f[k] == s[i];
      var all := Filter(s, p);
      assert all == f + [s[j]];
      assert all[k] < all[|f|];
    } else {
      assert f <= Filter(s, p);
      assert Rising(f) by {
        assert forall k :: 0 <= k < |f| ==> f[k] == Filter(s, p)[k];
      }
      FilterOrders(t, p, i, j);
    }
  }

  lemma SortKeepsTies(cs: seq<Candidate>, s: seq<nat>)
    requires Rising(s) && TotalPreorder(BySeq(cs))
    ensures TiesInOrder(cs, Sort(s, BySeq(cs)))
  {
    var t := Sort(s, BySeq(cs));
    hide Sort, TotalPreorder, Filter, Rising;
    forall i, j | 0 <= i < j < |t| && SeqOf(cs, t[i]) == SeqOf(cs, t[j])
      ensures t[i] < t[j]
    {
      var p := SeqIs(cs, SeqOf(cs, t[i]));
      SortIsStable(s, BySeq(cs), p);
      FilterRises(s, p);
      FilterOrders(t, p, i, j);
    }
  }

  /** A group: everything with the representative `tag`, once, by `request_seq`. */
  ghost predicate GroupOk(cs: seq<Candidate>, root: seq<nat>, tag: nat, group: seq<nat>) {
    && |root| == |cs| && group != []
    && (forall i :: i in group <==> 0 <= i < |cs| && root[i] == tag)
    && NoDup(group) && Sorted(group, BySeq(cs)) && TiesInOrder(cs, group)
  }

  lemma BySeqTotal(cs: seq<Candidate>)
    ensures TotalPreorder(BySeq(cs))
  {
  }

  lemma SortedGroupOk(cs: seq<Candidate>, root: seq<nat>, tag: nat)
    requires |root| == |cs| && tag in root
    ensures GroupOk(cs, root, tag, Sort(Positions(root, tag, |root|), BySeq(cs)))
  {
    hide Sort, Sorted, TiesInOrder, Positions, TotalPreorder;
    var ps := Positions(root, tag, |root|);
    PositionsExact(root, tag, |root|);
    BySeqTotal(cs);
    SortedCopy(ps, BySeq(cs));
    SortKeepsTies(cs, ps);
    var i :| 0 <= i < |root| && root[i] == tag;
    assert i in ps && i in Sort(ps, BySeq(cs));
  }

  /** Every candidate is in a group, and groups hold nothing else and nothing twice. */
  ghost predicate Covers(cs: seq<Candidate>, groups: seq<seq<nat>>) {
    && (forall g, i :: 0 <= g < |groups| && i in groups[g] ==> i < |cs|)
    && (forall i :: 0 <= i < |cs| ==> InSome(groups, i))
  }

  ghost predicate InSome(groups: seq<seq<nat>>, i: nat) {
    exists g :: 0 <= g < |groups| && i in groups[g]
  }

  ghost predicate MembersRise(cs: seq<Candidate>, groups: seq<seq<nat>>) {
    forall g :: 0 <= g < |groups| ==>
      groups[g] != [] && NoDup(groups[g]) && Sorted(groups[g], BySeq(cs)) && TiesInOrder(cs, groups[g])
  }

  /** Two candidates are in the same group exactly when they are connected. */
  ghost predicate Separates(cs: seq<Candidate>, groups: seq<seq<nat>>) {
    forall g, h, i, j :: 0 <= g < |groups| && 0 <= h < |groups| && i in groups[g] && j in groups[h] ==>
      (g == h <==> Connected(cs, i, j))
  }

  ghost predicate HeadsRise(cs: seq<Candidate>, groups: seq<seq<nat>>) {
    forall g, h :: 0 <= g < h < |groups| ==> HeadSeq(cs, groups[g]) <= HeadSeq(cs, groups[h])
  }

  /** The groups partition the candidates into connected components, and both the
      groups and their members are in order of `request_seq`, ties in order of arrival
      within a group. */
  ghost predicate IsGrouping(cs: seq<Candidate>, groups: seq<seq<nat>>) {
    Covers(cs, groups) && MembersRise(cs, groups) && Separates(cs, groups) && HeadsRise(cs, groups)
  }

  function HeadSeq(cs: seq<Candidate>, group: seq<nat>): nat {
    if group == [] then 0 else SeqOf(cs, group[0])
  }

  /** Members of the group with each tag. */
  function Member(members: map<nat, seq<nat>>, c: nat): seq<nat> {
    if c in members then members[c] else []
  }

  function ByHead(cs: seq<Candidate>, members: map<nat, seq<nat>>): (nat, nat) -> bool {
    (c: nat, d: nat) => HeadSeq(cs, Member(members, c)) <= HeadSeq(cs, Member(members, d))
  }

  /** One group per representative. */
  ghost predicate Labelled(cs: seq<Candidate>, root: seq<nat>, labels: seq<nat>, groups: seq<seq<nat>>) {
    && |groups| == |labels| && |root| == |cs| && NoDup(labels) && (forall c :: c in labels <==> c in root)
    && forall g :: 0 <= g < |groups| ==> GroupOk(cs, root, labels[g], groups[g])
  }

  lemma LabelledCovers(cs: seq<Candidate>, root: seq<nat>, labels: seq<nat>, groups: seq<seq<nat>>)
    requires Labelled(cs, root, labels, groups)
    ensures Covers(cs, groups) && MembersRise(cs, groups)
  {
    forall g | 0 <= g < |groups|
      ensures groups[g] != [] && NoDup(groups[g]) && Sorted(groups[g], BySeq(cs)) && TiesInOrder(cs, groups[g])
      ensures forall i :: i in groups[g] <==> 0 <= i < |cs| && root[i] == labels[g]
    {
      assert GroupOk(cs, root, labels[g], groups[g]);
    }
    hide NoDup, Sorted, GroupOk, TiesInOrder;
    forall i | 0 <= i < |cs|
      ensures InSome(groups, i)
    {
      assert root[i] in root;
      var g :| 0 <= g < |labels| && labels[g] == root[i];
      assert i in groups[g];
    }
  }

  lemma LabelledSeparates(cs: seq<Candidate>, root: seq<nat>, labels: seq<nat>, groups: seq<seq<nat>>)
    requires Labelled(cs, root, labels, groups) && Sound(cs, root) && Complete(cs, root)
    ensures Separates(cs, groups)
  {
    forall g, h, i, j | 0 <= g < |groups| && 0 <= h < |groups| && i in groups[g] && j in groups[h]
      ensures g == h <==> Connected(cs, i, j)
    {
      hide Sound, Complete, Connected, Sorted;
      assert GroupOk(cs, root, labels[g], groups[g]) && GroupOk(cs, root, labels[h], groups[h]);
      RootsAreComponents(cs, root, i, j);
    }
  }

  method CollectLabels(members: map<nat, seq<nat>>) returns (labels: seq<nat>)
    ensures NoDup(labels) && forall c :: c in labels <==> c in members
  {
    labels := [];
    var todo := members.Keys;
    while todo != {}
      invariant todo <= members.Keys && NoDup(labels)
      invariant forall c :: c in labels <==> c in members.Keys - todo
      decreases |todo|
    {
      var c :| c in todo;
      assert c !in labels;
      labels := labels + [c];
      todo := todo - {c};
    }
  }

  /** Sort the members of every group. */
  method SortMembers(cs: seq<Candidate>, root: seq<nat>, byRoot: map<nat, seq<nat>>)
    returns (members: map<nat, seq<nat>>)
    requires |root| == |cs|
    requires forall c :: c in byRoot <==> c in root
    requires forall c :: c in byRoot ==> byRoot[c] == Positions(root, c, |root|)
    ensures members.Keys == byRoot.Keys
    ensures forall c :: c in members ==> GroupOk(cs, root, c, members[c])
  {
    members := map[];
    var todo := byRoot.Keys;
    while todo != {}
      invariant todo <= byRoot.Keys && members.Keys == byRoot.Keys - todo
      invariant forall c :: c in members ==> GroupOk(cs, root, c, members[c])
      decreases |todo|
    {
      hide GroupOk;
      var c :| c in todo;
      SortedGroupOk(cs, root, c);
      members := members[c := Sort(byRoot[c], BySeq(cs))];
      todo := todo - {c};
    }
  }

  lemma ByHeadTotal(cs: seq<Candidate>, members: map<nat, seq<nat>>)
    ensures TotalPreorder(ByHead(cs, members))
  {
  }

  /** Sort the groups by their oldest member. */
  method SortGroups(cs: seq<Candidate>, root: seq<nat>, members: map<nat, seq<nat>>)
    returns (groups: seq<seq<nat>>, ghost labels: seq<nat>)
    requires |root| == |cs|
    requires forall c :: c in members <==> c in root
    requires forall c :: c in members ==> GroupOk(cs, root, c, members[c])
    ensures Labelled(cs, root, labels, groups) && HeadsRise(cs, groups)
  {
    hide *;
    var found := CollectLabels(members);
    ByHeadTotal(cs, members);
    SortedCopy(found, ByHead(cs, members));
    var sorted := Sort(found, ByHead(cs, members));
    labels := sorted;
    assert forall g :: 0 <= g < |sorted| ==> sorted[g] in members by {
      assert forall g :: 0 <= g < |sorted| ==> sorted[g] in sorted;
    }
    groups := seq(|sorted|, g requires 0 <= g < |sorted| => members[sorted[g]]);
    LabelledBySort(cs, root, members, sorted, groups);
  }

  lemma LabelledBySort(cs: seq<Candidate>, root: seq<nat>, members: map<nat, seq<nat>>, sorted: seq<nat>,
                       groups: seq<seq<nat>>)
    requires |root| == |cs| && NoDup(sorted) && Sorted(sorted, ByHead(cs, members))
    requires forall c :: c in sorted <==> c in root
    requires forall c :: c in members ==> GroupOk(cs, root, c, members[c])
    requires |groups| == |sorted|
    requires forall g :: 0 <= g < |sorted| ==> sorted[g] in members && groups[g] == members[sorted[g]]
    ensures Labelled(cs, root, sorted, groups) && HeadsRise(cs, groups)
  {
    hide GroupOk, NoDup, HeadSeq;
    forall g, h | 0 <= g < h < |groups|
      ensures HeadSeq(cs, groups[g]) <= HeadSeq(cs, groups[h])
    {
      assert ByHead(cs, members)(sorted[g], sorted[h]);
    }
  }

  lemma StartSound(cs: seq<Candidate>)
    ensures Sound(cs, seq(|cs|, i => i))
  {
    forall i | 0 <= i < |cs|
      ensures Connected(cs, i, i)
    {
      ConnectedRefl(cs, i);
    }
  }

  /** Resolve every candidate's representative up front. */
  method FindAll(uf: DisjointSets, n: nat) returns (roots: seq<nat>)
    requires uf.Valid() && n == |uf.root|
    modifies uf.parent
    ensures uf.Valid() && roots == uf.root
  {
    hide Forest;
    roots := [];
    for i := 0 to n
      invariant uf.Valid() && roots == uf.root[..i]
    {
      var r := uf.Find(i);
      roots := roots + [r];
    }
    assert uf.root[..n] == uf.root;
  }

  /** Move the candidates into their groups. */
  method Gather(cs: seq<Candidate>, groups: seq<seq<nat>>) returns (out: seq<seq<Candidate>>)
    requires forall g, i :: 0 <= g < |groups| && i in groups[g] ==> i < |cs|
    ensures |out| == |groups|
    ensures forall g :: 0 <= g < |out| ==> |out[g]| == |groups[g]|
    ensures forall g, t :: 0 <= g < |out| && 0 <= t < |out[g]| ==>
              t < |groups[g]| && groups[g][t] < |cs| && out[g][t] == cs[groups[g][t]]
  {
    out := [];
    for g := 0 to |groups|
      invariant |out| == g
      invariant forall h :: 0 <= h < g ==> |out[h]| == |groups[h]|
      invariant forall h, t :: 0 <= h < g && 0 <= t < |out[h]| ==>
                  t < |groups[h]| && groups[h][t] < |cs| && out[h][t] == cs[groups[h][t]]
    {
      var group := groups[g];
      assert forall t :: 0 <= t < |group| ==> group[t] in groups[g];
      out := out + [seq(|group|, t requires 0 <= t < |group| && group[t] < |cs| => cs[group[t]])];
    }
  }

  /** `affinity_group`. */
  method AffinityGroup(cs: seq<Candidate>) returns (out: seq<seq<Candidate>>, groups: seq<seq<nat>>)
    ensures IsGrouping(cs, groups)
    ensures |out| == |groups|
    ensures forall g, t :: 0 <= g < |out| && 0 <= t < |out[g]| ==>
              t < |groups[g]| && groups[g][t] < |cs| && out[g][t] == cs[groups[g][t]]
    ensures forall g :: 0 <= g < |out| ==> |out[g]| == |groups[g]|
  {
    var m := BuildIndex(cs);
    var uf := new DisjointSets(|cs|);
    StartSound(cs);
    JoinAll(uf, cs, m);
    var roots := FindAll(uf, |cs|);
    var byRoot := GroupBy(roots);
    var members := SortMembers(cs, roots, byRoot);
    ghost var labels;
    groups, labels := SortGroups(cs, roots, members);
    LabelledCovers(cs, roots, labels, groups);
    LabelledSeparates(cs, roots, labels, groups);
    out := Gather(cs, groups);
  }

  /** Distinct groups have no key in common, so they may run side by side. */
  lemma GroupsShareNoKey(cs: seq<Candidate>, groups: seq<seq<nat>>, g: nat, h: nat, i: nat, j: nat, k: Key)
    requires IsGrouping(cs, groups) && g < |groups| && h < |groups| && g != h && i in groups[g] && j in groups[h]
    ensures i < |cs| && j < |cs| && !(k in KeysOf(cs[i]) && k in KeysOf(cs[j]))
  {
    if k in KeysOf(cs[i]) && k in KeysOf(cs[j]) {
      assert Shares(cs, i, j);
      ConnectedStep(cs, i, j);
    }
  }

  function Concat<T>(chunks: seq<seq<T>>): seq<T> {
    if chunks == [] then [] else Concat(chunks[..|chunks| - 1]) + chunks[|chunks| - 1]
  }

  /** `router_tick` drains a group into SuperBatches of at most `batchMax`: nothing is
      lost or reordered, every chunk but the last is full, and their number is the one
      the overflow counter assumes. */
  method Chunk<T>(group: seq<T>, batchMax: nat) returns (chunks: seq<seq<T>>)
    requires batchMax > 0
    ensures Concat(chunks) == group
    ensures forall c :: 0 <= c < |chunks| ==> 0 < |chunks[c]| <= batchMax
    ensures forall c :: 0 <= c < |chunks| - 1 ==> |chunks[c]| == batchMax
    ensures |chunks| == (|group| + batchMax - 1) / batchMax
  {
    chunks := [];
    var rest := group;
    assert Exactly(0, 0, batchMax) && (group == [] ==> Chunks(0, batchMax) == 0);
    hide Exactly, Chunks, Concat;
    ConcatEmpty<T>();
    assert [] + rest == group;
    while rest != []
      invariant Concat(chunks) + rest == group
      invariant forall c :: 0 <= c < |chunks| ==> 0 < |chunks[c]| <= batchMax
      invariant forall c :: 0 <= c < |chunks| - 1 ==> |chunks[c]| == batchMax
      invariant rest != [] ==> Exactly(|group| - |rest|, |chunks|, batchMax)
      invariant rest != [] && chunks != [] ==> |chunks[|chunks| - 1]| == batchMax
      invariant rest == [] ==> |chunks| == Chunks(|group|, batchMax)
    {
      var take := if |rest| < batchMax then |rest| else batchMax;
      if |rest| <= batchMax {
        LastChunk(|group|, |chunks|, batchMax, |rest|);
      } else {
        NextChunk(|group| - |rest|, |chunks|, batchMax);
      }
      var chunk := rest[..take];
      ConcatNext(chunks, chunk, rest[take..]);
      assert chunk + rest[take..] == rest;
      chunks, rest := chunks + [chunk], rest[take..];
    }
    assert group == Concat(chunks) + [];
    ChunkCount(|group|, batchMax);
  }

  lemma ConcatEmpty<T>()
    ensures Concat<T>([]) == []
  {
  }

  lemma ConcatNext<T>(chunks: seq<seq<T>>, chunk: seq<T>, rest: seq<T>)
    ensures Concat(chunks + [chunk]) + rest == Concat(chunks) + (chunk + rest)
  {
    assert (chunks + [chunk])[..|chunks|] == chunks;
  }

  ghost predicate Exactly(drained: int, full: nat, batchMax: nat) {
    drained == full * batchMax
  }

  lemma NextChunk(drained: int, full: nat, batchMax: nat)
    requires Exactly(drained, full, batchMax)
    ensures Exactly(drained + batchMax, full + 1, batchMax)
  {
  }

  function Chunks(n: nat, batchMax: nat): nat
    requires batchMax > 0
  {
    (n + batchMax - 1) / batchMax
  }

  lemma ChunkCount(n: nat, batchMax: nat)
    requires batchMax > 0
    ensures Chunks(n, batchMax) == (n + batchMax - 1) / batchMax
  {
  }

  lemma LastChunk(n: nat, full: nat, batchMax: nat, rest: nat)
    requires batchMax > 0 && Exactly(n - rest, full, batchMax) && 0 < rest <= batchMax
    ensures Chunks(n, batchMax) == full + 1
  {
    DivIs(n + batchMax - 1, batchMax, full + 1);
  }

  lemma DivIs(x: nat, b: nat, q: nat)
    requires b > 0 && q * b <= x < q * b + b
    ensures x / b == q
  {
    var d := x / b;
    assert d * b <= x < d * b + b;
    if d < q {
      Grows(d + 1, q, b);
    } else if d > q {
      Grows(q + 1, d, b);
    }
  }

  lemma Grows(m: nat, n: nat, b: nat)
    requires m <= n
    ensures m * b <= n * b
  {
  }
}
