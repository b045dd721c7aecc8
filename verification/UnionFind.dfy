/** The router's disjoint-set forest (router.rs): path compression and union by rank on
    two arrays. */
module UnionFind {

  /** `root` names the representative of every element. Ranks rise strictly along the
      parent links, and no element outranks its representative. */
  ghost predicate NodeOk(parent: seq<nat>, rank: seq<nat>, root: seq<nat>, i: nat)
    requires |parent| == |rank| == |root| && i < |parent|
  {
    && parent[i] < |parent| && root[i] < |parent|
    && root[parent[i]] == root[i] && parent[root[i]] == root[i]
    && (parent[i] == i ==> root[i] == i)
    && (parent[i] != i ==> rank[i] < rank[parent[i]])
    && (root[i] != i ==> rank[i] < rank[root[i]])
  }

  ghost predicate Forest(parent: seq<nat>, rank: seq<nat>, root: seq<nat>) {
    && |parent| == |rank| == |root|
    && forall i :: 0 <= i < |parent| ==> NodeOk(parent, rank, root, i)
  }

  lemma Node(parent: seq<nat>, rank: seq<nat>, root: seq<nat>, i: nat)
    requires Forest(parent, rank, root) && i < |parent|
    ensures |parent| == |rank| == |root| && NodeOk(parent, rank, root, i)
  {
  }

  /** Pointing an element straight at its representative changes no representative. */
  lemma CompressKeeps(parent: seq<nat>, rank: seq<nat>, root: seq<nat>, x: nat)
    requires Forest(parent, rank, root) && x < |parent| && parent[x] != root[x]
    ensures Forest(parent[x := root[x]], rank, root)
  {
    Node(parent, rank, root, x);
    var parent' := parent[x := root[x]];
    forall i | 0 <= i < |parent|
      ensures NodeOk(parent', rank, root, i)
    {
      hide Forest;
      Node(parent, rank, root, i);
      Node(parent, rank, root, root[i]);
    }
  }

  /** The representatives after everything represented by `a` or `b` moves to `top`. */
  ghost function Joined(root: seq<nat>, a: nat, b: nat, top: nat): (r: seq<nat>)
    ensures |r| == |root|
  {
    seq(|root|, i requires 0 <= i < |root| => if root[i] == a || root[i] == b then top else root[i])
  }

  lemma HangKeeps(parent: seq<nat>, rank: seq<nat>, root: seq<nat>, top: nat, below: nat, rank': seq<nat>)
    requires Forest(parent, rank, root) && top < |parent| && below < |parent|
    requires root[top] == top && root[below] == below && top != below
    requires rank[below] <= rank[top]
    requires rank' == if rank[below] == rank[top] then rank[top := rank[top] + 1] else rank
    ensures Forest(parent[below := top], rank', Joined(root, top, below, top))
  {
    Node(parent, rank, root, top);
    Node(parent, rank, root, below);
    var parent', root' := parent[below := top], Joined(root, top, below, top);
    forall i | 0 <= i < |parent|
      ensures NodeOk(parent', rank', root', i)
    {
      hide Forest;
      Node(parent, rank, root, i);
      Node(parent, rank, root, parent[i]);
    }
  }

  class DisjointSets {
    const parent: array<nat>
    const rank: array<nat>
    ghost var root: seq<nat>

    ghost predicate Valid()
      reads this, parent, rank
    {
      parent != rank && Forest(parent[..], rank[..], root)
    }

    constructor (n: nat)
      ensures Valid() && fresh(parent) && fresh(rank)
      ensures root == seq(n, i => i)
    {
      parent := new nat[n](i => i);
      rank := new nat[n](_ => 0);
      root := seq(n, i => i);
      new;
      assert forall i :: 0 <= i < n ==> parent[..][i] == i && root[i] == i;
    }

    /** The first loop of `find`: climb to the representative. */
    method Climb(x: nat) returns (r: nat)
      requires Valid() && x < |root|
      ensures r < |root| && r == root[x]
    {
      ghost var p, k := parent[..], rank[..];
      assert |p| == |k| == |root|;
      hide Forest;
      Node(p, k, root, x);
      r := x;
      while parent[r] != r
        invariant r < |root| && root[r] == root[x] && NodeOk(p, k, root, r)
        decreases k[root[x]] - k[r]
      {
        assert p[r] == parent[r];
        Node(p, k, root, parent[r]);
        r := parent[r];
      }
    }

    /** The second loop: point every element on the way straight at it. */
    method Compress(x: nat, r: nat)
      requires Valid() && x < |root| && r == root[x]
      modifies parent
      ensures Valid()
    {
      ghost var k := rank[..];
      assert parent.Length == |k| == |root|;
      hide Forest;
      Node(parent[..], k, root, x);
      var cur: nat := x;
      while parent[cur] != r
        invariant Valid() && rank[..] == k && cur < |root| && root[cur] == r && NodeOk(parent[..], k, root, cur)
        decreases k[r] - k[cur]
      {
        var next := parent[cur];
        ghost var p := parent[..];
        assert p[cur] == next;
        Node(p, k, root, next);
        CompressKeeps(p, k, root, cur);
        parent[cur] := r;
        assert parent[..] == p[cur := r];
        Node(parent[..], k, root, next);
        cur := next;
      }
    }

    method Find(x: nat) returns (r: nat)
      requires Valid() && x < |root|
      modifies parent
      ensures Valid()
      ensures r < |root| && r == root[x]
    {
      r := Climb(x);
      Compress(x, r);
    }

    /** Hang one representative under another. */
    method Hang(top: nat, below: nat)
      requires Valid() && top < |root| && below < |root|
      requires root[top] == top && root[below] == below && top != below
      requires parent.Length == rank.Length == |root| && rank[below] <= rank[top]
      modifies this`root, parent, rank
      ensures Valid() && root == Joined(old(root), top, below, top)
    {
      ghost var p, k := parent[..], rank[..];
      var tie := rank[below] == rank[top];
      HangKeeps(p, k, root, top, below, if tie then k[top := k[top] + 1] else k);
      hide Forest;
      parent[below] := top;
      if tie {
        rank[top] := rank[top] + 1;
      }
      assert parent[..] == p[below := top];
      assert rank[..] == if tie then k[top := k[top] + 1] else k;
      root := Joined(root, top, below, top);
    }

    /** Joins the two sets: everything in either ends up with the same representative,
        which is one of the two, and nothing else moves. */
    method Union(a: nat, b: nat)
      requires Valid() && a < |root| && b < |root|
      modifies this`root, parent, rank
      ensures Valid()
      ensures root == Joined(old(root), old(root[a]), old(root[b]), old(root[a]))
           || root == Joined(old(root), old(root[a]), old(root[b]), old(root[b]))
    {
      var ra := Find(a);
      var rb := Find(b);
      assert parent.Length == rank.Length == |root| && root[ra] == ra && root[rb] == rb by {
        Node(parent[..], rank[..], root, a);
        Node(parent[..], rank[..], root, b);
        Node(parent[..], rank[..], root, ra);
        Node(parent[..], rank[..], root, rb);
      }
      hide Forest;
      if ra == rb {
        assert root == Joined(root, ra, rb, ra);
        return;
      }
      JoinedSwap(root, ra, rb, rb);
      if rank[ra] < rank[rb] {
        Hang(rb, ra);
      } else {
        Hang(ra, rb);
      }
    }
  }

  lemma JoinedSwap(root: seq<nat>, a: nat, b: nat, top: nat)
    ensures Joined(root, a, b, top) == Joined(root, b, a, top)
  {
  }
}
