/** The spillover allocator of poc/queue-extension-v21/src/arena.rs: one byte
    array that holds both the payloads and the block headers, a bump offset, and
    a singly linked free list threaded through the headers. */
module SpilloverArena {
  import opened Collections

  type Byte = b: int | 0 <= b < 256

  const BLOCK_HEADER_BYTES: nat := 8
  const ALLOC_ALIGN: nat := 8
  const U32_LIMIT: nat := 0x1_0000_0000

  type U32 = x: int | 0 <= x < U32_LIMIT

  /** `align_up` in unchecked 32-bit arithmetic: the seven largest sizes round to 0. */
  function AlignUp(value: U32): (r: U32)
    ensures r % ALLOC_ALIGN == 0
    ensures if value <= U32_LIMIT - ALLOC_ALIGN then value <= r < value + ALLOC_ALIGN else r == 0
  {
    (value + 7) % U32_LIMIT / 8 * 8
  }

  /** Header and payload of a new block: the largest payload wraps this sum to 0. */
  function Needed(need: U32): (r: U32)
    ensures r == if need + BLOCK_HEADER_BYTES < U32_LIMIT then need + BLOCK_HEADER_BYTES
                 else need + BLOCK_HEADER_BYTES - U32_LIMIT
  {
    (BLOCK_HEADER_BYTES + need) % U32_LIMIT
  }

  /** The largest size that neither sum wraps. */
  const MAX_SIZE: nat := U32_LIMIT - 16

  /** The sizes for which header and payload together wrap to nothing. */
  predicate Wraps(size: U32) {
    MAX_SIZE < size <= U32_LIMIT - ALLOC_ALIGN
  }

  // ---- little-endian words in the byte array -------------------------------

  function ByteOf(x: nat, k: nat): Byte {
    match k
    case 0 => x % 256
    case 1 => x / 256 % 256
    case 2 => x / 65536 % 256
    case _ => x / 16777216 % 256
  }

  function GetU32(mem: seq<Byte>, off: nat): (x: nat)
    requires off + 4 <= |mem|
    ensures x < U32_LIMIT
  {
    (mem[off] as int) + 256 * (mem[off + 1] as int) + 65536 * (mem[off + 2] as int) + 16777216 * (mem[off + 3] as int)
  }

  function PutU32(mem: seq<Byte>, off: nat, x: nat): (r: seq<Byte>)
    requires off + 4 <= |mem|
    ensures |r| == |mem|
    ensures forall i :: 0 <= i < |mem| && !(off <= i < off + 4) ==> r[i] == mem[i]
  {
    mem[off := ByteOf(x, 0)][off + 1 := ByteOf(x, 1)][off + 2 := ByteOf(x, 2)][off + 3 := ByteOf(x, 3)]
  }

  lemma WordRoundTrip(x: nat)
    requires x < U32_LIMIT
    ensures ByteOf(x, 0) + 256 * ByteOf(x, 1) + 65536 * ByteOf(x, 2) + 16777216 * ByteOf(x, 3) == x
  {
    var q := x / 256;
    var r := q / 256;
    assert x / 65536 == r && x / 16777216 == r / 256;
  }

  lemma GetPut(mem: seq<Byte>, off: nat, x: nat)
    requires off + 4 <= |mem| && x < U32_LIMIT
    ensures GetU32(PutU32(mem, off, x), off) == x
  {
    WordRoundTrip(x);
  }

  function PutHeader(mem: seq<Byte>, h: nat, size: nat, next: nat): (r: seq<Byte>)
    requires h + 8 <= |mem|
    ensures |r| == |mem|
    ensures forall i :: 0 <= i < |mem| && !(h <= i < h + 8) ==> r[i] == mem[i]
  {
    PutU32(PutU32(mem, h, size), h + 4, next)
  }

  /** The bytes [h, h + 8 + |data|) hold a block: size word, link word, payload. */
  ghost predicate Holds(mem: seq<Byte>, h: nat, next: nat, data: seq<Byte>) {
    && h + 8 + |data| <= |mem|
    && GetU32(mem, h) == |data|
    && GetU32(mem, h + 4) == next
    && mem[h + 8..h + 8 + |data|] == data
  }

  lemma HoldsFrame(mem: seq<Byte>, mem': seq<Byte>, h: nat, next: nat, data: seq<Byte>)
    requires Holds(mem, h, next, data) && |mem'| == |mem|
    requires forall i :: h <= i < h + 8 + |data| ==> mem'[i] == mem[i]
    ensures Holds(mem', h, next, data)
  {
  }

  lemma HoldsPutHeader(mem: seq<Byte>, h: nat, size: nat, next: nat)
    requires h + 8 + size <= |mem| && size < U32_LIMIT && next < U32_LIMIT
    ensures Holds(PutHeader(mem, h, size, next), h, next, mem[h + 8..h + 8 + size])
  {
    var m := PutU32(mem, h, size);
    GetPut(mem, h, size);
    GetPut(m, h + 4, next);
    assert GetU32(PutU32(m, h + 4, next), h) == GetU32(m, h);
  }

  // ---- the allocator, block by block -----------------------------------------

  /** A block, named by its header offset: its link word and its payload. */
  datatype Block = Block(next: nat, data: seq<Byte>)

  /** The blocks ever cut, the bump offset, the blocks in callers' hands, and the
      free list from its head. */
  datatype View = View(blocks: map<nat, Block>, bump: nat, live: set<nat>, free: seq<nat>)

  function End(blocks: map<nat, Block>, h: nat): nat
    requires h in blocks
  {
    h + 8 + |blocks[h].data|
  }

  ghost predicate Apart(blocks: map<nat, Block>, g: nat, h: nat)
    requires g in blocks && h in blocks
  {
    End(blocks, g) <= h || End(blocks, h) <= g
  }

  ghost predicate Disjoint(blocks: map<nat, Block>) {
    forall g, h :: g in blocks && h in blocks && g != h ==> Apart(blocks, g, h)
  }

  ghost predicate InBounds(v: View) {
    v.bump < U32_LIMIT && forall h :: h in v.blocks ==> End(v.blocks, h) <= v.bump
  }

  function NextOf(free: seq<nat>, i: nat): nat {
    if i + 1 < |free| then free[i + 1] else 0
  }

  function ListHead(free: seq<nat>): nat {
    if free == [] then 0 else free[0]
  }

  /** The list is acyclic, holds only freed blocks, never offset 0, and the link
      words spell it out. */
  ghost predicate ListOk(v: View) {
    (forall i :: 0 <= i < |v.free| ==> LinkOk(v, i)) && NoDup(v.free)
  }

  ghost predicate LinkOk(v: View, i: nat) {
    && i < |v.free| && v.free[i] in v.blocks && v.free[i] !in v.live && v.free[i] != 0
    && v.blocks[v.free[i]].next == NextOf(v.free, i)
  }

  function Len(blocks: map<nat, Block>, h: nat): nat {
    if h in blocks then |blocks[h].data| else 0
  }

  ghost predicate Wf(v: View) {
    InBounds(v) && Disjoint(v.blocks) && v.live <= v.blocks.Keys && ListOk(v)
  }

  function FirstFit(free: seq<nat>, blocks: map<nat, Block>, need: nat): (i: nat)
    ensures i <= |free|
    ensures forall j :: 0 <= j < i ==> Len(blocks, free[j]) < need
    ensures i < |free| ==> Len(blocks, free[i]) >= need
  {
    if free == [] || Len(blocks, free[0]) >= need then 0 else 1 + FirstFit(free[1..], blocks, need)
  }

  function SetNext(blocks: map<nat, Block>, h: nat, next: nat): (r: map<nat, Block>) {
    if h in blocks then blocks[h := blocks[h].(next := next)] else blocks
  }

  /** Take the i-th listed block out of the list. */
  function Unlinked(v: View, i: nat): (r: View)
    requires i < |v.free|
  {
    var blocks := if i == 0 then v.blocks else SetNext(v.blocks, v.free[i - 1], NextOf(v.free, i));
    View(blocks, v.bump, v.live, v.free[..i] + v.free[i + 1..])
  }

  function AllocReuse(v: View, i: nat): (r: View)
    requires i < |v.free|
  {
    var u := Unlinked(v, i);
    u.(blocks := SetNext(u.blocks, v.free[i], 0), live := v.live + {v.free[i]})
  }

  /** The new block's payload is whatever the bytes happened to hold. */
  function AllocBump(v: View, found: seq<Byte>): (r: View)
    requires |found| < U32_LIMIT
  {
    View(v.blocks[v.bump := Block(0, found)], v.bump + Needed(|found|), v.live + {v.bump}, v.free)
  }

  predicate BumpFits(v: View, need: U32, capacity: nat) {
    v.bump + Needed(need) < U32_LIMIT && v.bump + Needed(need) <= capacity
  }

  /** `free`: push the block on the list. Offset 0 doubles as the end mark, so
      freeing the block whose header sits there makes the list empty. */
  function Freed(v: View, h: nat): (r: View) {
    View(SetNext(v.blocks, h, ListHead(v.free)), v.bump, v.live - {h}, if h == 0 then [] else [h] + v.free)
  }

  function Splice(data: seq<Byte>, at: nat, part: seq<Byte>): (r: seq<Byte>)
    requires at + |part| <= |data|
    ensures |r| == |data|
  {
    data[..at] + part + data[at + |part|..]
  }

  function Write(v: View, h: nat, at: nat, part: seq<Byte>): (r: View)
    requires h in v.blocks && at + |part| <= |v.blocks[h].data|
  {
    v.(blocks := v.blocks[h := v.blocks[h].(data := Splice(v.blocks[h].data, at, part))])
  }

  // ---- every operation keeps the arena well formed -----------------------------

  /** Same blocks with the same extents. */
  ghost predicate SameShape(a: map<nat, Block>, b: map<nat, Block>) {
    a.Keys == b.Keys && forall h :: h in a ==> |a[h].data| == |b[h].data|
  }

  lemma ShapeKeepsLayout(v: View, w: View)
    requires InBounds(v) && Disjoint(v.blocks) && SameShape(v.blocks, w.blocks) && w.bump == v.bump
    ensures InBounds(w) && Disjoint(w.blocks)
  {
    forall g, h | g in w.blocks && h in w.blocks && g != h
      ensures Apart(w.blocks, g, h)
    {
      assert Apart(v.blocks, g, h);
    }
  }

  lemma PushKeepsList(v: View, h: nat)
    requires ListOk(v) && h in v.live && h in v.blocks && h != 0
    ensures ListOk(View(SetNext(v.blocks, h, ListHead(v.free)), v.bump, v.live - {h}, [h] + v.free))
  {
    var w := View(SetNext(v.blocks, h, ListHead(v.free)), v.bump, v.live - {h}, [h] + v.free);
    forall i | 0 <= i < |w.free|
      ensures LinkOk(w, i) && (i > 0 ==> w.free[i] != h)
    {
      if i > 0 {
        assert LinkOk(v, i - 1);
        assert w.free[i] == v.free[i - 1] && NextOf(w.free, i) == NextOf(v.free, i - 1);
      }
    }
    hide LinkOk;
    forall i, j | 0 <= i < j < |w.free|
      ensures w.free[i] != w.free[j]
    {
      assert w.free[j] == v.free[j - 1];
    }
  }

  lemma FreeKeepsWf(v: View, h: nat)
    requires Wf(v) && h in v.live
    ensures Wf(Freed(v, h))
    ensures forall g :: g in v.blocks ==> Freed(v, h).blocks[g].data == v.blocks[g].data
  {
    ShapeKeepsLayout(v, Freed(v, h));
    if h != 0 {
      PushKeepsList(v, h);
    }
  }

  lemma UnlinkLink(v: View, i: nat, j: nat)
    requires ListOk(v) && i < |v.free| && j < |v.free| - 1
    ensures LinkOk(Unlinked(v, i), j)
  {
    var u := Unlinked(v, i);
    var k := if j < i then j else j + 1;
    assert u.free[j] == v.free[k];
    assert LinkOk(v, k);
    if j + 1 == i {
      assert NextOf(u.free, j) == NextOf(v.free, i);
    } else {
      assert NextOf(u.free, j) == NextOf(v.free, k);
      assert i > 0 ==> v.free[i - 1] != v.free[k];
    }
  }

  lemma CutKeepsNoDup(s: seq<nat>, i: nat)
    requires NoDup(s) && i < |s|
    ensures NoDup(s[..i] + s[i + 1..]) && s[i] !in s[..i] + s[i + 1..]
  {
    var t := s[..i] + s[i + 1..];
    forall j, k | 0 <= j < k < |t|
      ensures t[j] != t[k]
    {
      var j', k' := if j < i then j else j + 1, if k < i then k else k + 1;
      assert t[j] == s[j'] && t[k] == s[k'];
    }
  }

  lemma UnlinkKeepsList(v: View, i: nat)
    requires ListOk(v) && i < |v.free|
    ensures ListOk(Unlinked(v, i))
  {
    var u := Unlinked(v, i);
    CutKeepsNoDup(v.free, i);
    assert u.free == v.free[..i] + v.free[i + 1..];
    hide Unlinked, LinkOk, NoDup;
    forall j | 0 <= j < |u.free|
      ensures LinkOk(u, j)
    {
      UnlinkLink(v, i, j);
    }
  }

  lemma AllocReuseKeepsWf(v: View, i: nat)
    requires Wf(v) && i < |v.free|
    ensures Wf(AllocReuse(v, i))
    ensures forall g :: g in v.blocks ==> AllocReuse(v, i).blocks[g].data == v.blocks[g].data
  {
    var r := AllocReuse(v, i);
    assert LinkOk(v, i) && (i > 0 ==> LinkOk(v, i - 1));
    ShapeKeepsLayout(v, r);
    UnlinkKeepsList(v, i);
    CutKeepsNoDup(v.free, i);
    TakenKeepsList(Unlinked(v, i), v.free[i]);
    hide InBounds, Disjoint, ListOk, LinkOk;
  }

  /** A block that is not on the list can be handed out without touching it. */
  lemma TakenKeepsList(v: View, h: nat)
    requires ListOk(v) && h !in v.free
    ensures ListOk(v.(blocks := SetNext(v.blocks, h, 0), live := v.live + {h}))
  {
    var w := v.(blocks := SetNext(v.blocks, h, 0), live := v.live + {h});
    forall i | 0 <= i < |w.free|
      ensures LinkOk(w, i)
    {
      assert LinkOk(v, i) && v.free[i] in v.free;
    }
    hide LinkOk;
  }

  lemma AllocBumpKeepsWf(v: View, found: seq<Byte>)
    requires Wf(v) && v.bump + 8 + |found| < U32_LIMIT
    ensures Wf(AllocBump(v, found)) && v.bump !in v.blocks
  {
    var r := AllocBump(v, found);
    assert forall h :: h in v.blocks ==> h < v.bump by {
      assert forall h :: h in v.blocks ==> End(v.blocks, h) <= v.bump;
    }
    forall i | 0 <= i < |r.free|
      ensures LinkOk(r, i)
    {
      assert LinkOk(v, i);
    }
    forall g, h | g in r.blocks && h in r.blocks && g != h
      ensures Apart(r.blocks, g, h)
    {
      if g != v.bump && h != v.bump {
        assert Apart(v.blocks, g, h);
      }
    }
  }

  lemma WriteKeepsWf(v: View, h: nat, at: nat, part: seq<Byte>)
    requires Wf(v) && h in v.blocks && at + |part| <= |v.blocks[h].data|
    ensures Wf(Write(v, h, at, part))
  {
    var w := Write(v, h, at, part);
    ShapeKeepsLayout(v, w);
    forall i | 0 <= i < |w.free|
      ensures LinkOk(w, i)
    {
      assert LinkOk(v, i);
    }
    hide LinkOk, InBounds, Disjoint;
  }

  /** What being on the list means for the i-th block. */
  lemma InList(v: View, i: nat)
    requires Wf(v) && i < |v.free|
    ensures var h := v.free[i];
            && h in v.blocks && h !in v.live && h != 0 && End(v.blocks, h) <= v.bump
            && v.blocks[h].next == NextOf(v.free, i) && Len(v.blocks, h) == |v.blocks[h].data|
  {
    assert LinkOk(v, i);
  }

  /** `alloc` as the code decides it: first fit from the list, else the bump
      offset, else nothing. `r` is the payload offset. A call whose header lies
      outside the array panics and has no outcome. */
  ghost predicate Allocates(v: View, size: U32, capacity: nat, w: View, r: Option<nat>) {
    if size == 0 then w == v && r == None
    else
      var need := AlignUp(size);
      var i := FirstFit(v.free, v.blocks, need);
      if i < |v.free| then w == AllocReuse(v, i) && r == Some(v.free[i] + 8)
      else if BumpFits(v, need, capacity) then
        && v.bump + 8 <= capacity && r == Some(v.bump + 8)
        && exists found: seq<Byte> :: |found| == need && w == AllocBump(v, found)
      else w == v && r == None
  }

  /** What an allocation hands out: a block of sufficient size that nobody held,
      at a payload offset that is never 0, with every other payload intact. */
  lemma AllocIsSafe(v: View, size: U32, capacity: nat, w: View, r: Option<nat>)
    requires Wf(v) && Allocates(v, size, capacity, w, r) && size <= MAX_SIZE
    ensures Wf(w)
    ensures r.None? ==> w == v
    ensures r.Some? ==>
              && r.value >= 8 && r.value - 8 !in v.live && w.live == v.live + {r.value - 8}
              && r.value - 8 in w.blocks && |w.blocks[r.value - 8].data| >= size > 0
    ensures v.bump <= w.bump && (v.bump <= capacity ==> w.bump <= capacity)
    ensures forall g :: g in v.blocks ==> g in w.blocks && w.blocks[g].data == v.blocks[g].data
  {
    hide Wf, FirstFit, AllocReuse, AllocBump, AlignUp, Needed;
    if size != 0 {
      var need := AlignUp(size);
      var i := FirstFit(v.free, v.blocks, need);
      if i < |v.free| {
        ListedIsSafe(v, i);
      } else if BumpFits(v, need, capacity) {
        var found: seq<Byte> :| |found| == need && w == AllocBump(v, found);
        BumpIsSafe(v, found);
      }
    }
  }

  /** When a call fails, and where it finds its block otherwise: with `need` the size
      rounded up to a multiple of 8, the first listed block of that length, and only when
      there is none a new block behind the others, if header and payload fit in the array. */
  lemma AllocOutcome(v: View, size: U32, capacity: nat, w: View, r: Option<nat>, need: nat)
    requires Wf(v) && Allocates(v, size, capacity, w, r) && size <= MAX_SIZE
    requires need % 8 == 0 && size <= need < size + 8
    ensures var noneFits := forall j :: 0 <= j < |v.free| ==> Len(v.blocks, v.free[j]) < need;
            && (r.None? <==>
                  size == 0 || (noneFits && (v.bump + 8 + need > capacity || v.bump + 8 + need >= U32_LIMIT)))
            && (r.Some? && noneFits ==> r.value == v.bump + 8 && w.bump == v.bump + 8 + need && w.free == v.free)
            && (r.Some? && !noneFits ==>
                  exists i :: 0 <= i < |v.free| && r.value == v.free[i] + 8 && Len(v.blocks, v.free[i]) >= need
                              && (forall j :: 0 <= j < i ==> Len(v.blocks, v.free[j]) < need)
                              && w.bump == v.bump && w.free == v.free[..i] + v.free[i + 1..])
  {
    assert AlignUp(size) == need && Needed(need) == need + 8;
    hide Wf, AlignUp, Needed, SetNext;
  }

  /** Exactly up to `MAX_SIZE` does a call that returns an offset keep the arena well
      formed and hand out a block as large as asked for. */
  lemma AllocIsSafeIff(v: View, size: U32, capacity: nat, w: View, r: Option<nat>)
    requires Wf(v) && Allocates(v, size, capacity, w, r) && r.Some?
    ensures r.value >= 8 && r.value - 8 in w.blocks
    ensures Wf(w) && |w.blocks[r.value - 8].data| >= size <==> size <= MAX_SIZE
  {
    if size <= MAX_SIZE {
      AllocIsSafe(v, size, capacity, w, r);
    } else if Wraps(size) {
      WrappedCall(v, size, capacity, w, r);
    } else {
      TooSmall(v, size, capacity, w, r);
    }
    hide Wf, Allocates;
  }

  lemma ListedIsShort(v: View, i: nat)
    requires Wf(v) && i < |v.free|
    ensures Len(v.blocks, v.free[i]) < U32_LIMIT - 8
  {
    InList(v, i);
  }

  /** A size whose block wraps to nothing leaves the bump offset where it was, so the
      next block cut there is the same one. */
  lemma WrappedCall(v: View, size: U32, capacity: nat, w: View, r: Option<nat>)
    requires Wf(v) && Wraps(size) && Allocates(v, size, capacity, w, r) && r.Some?
    ensures r == Some(v.bump + 8) && w.bump == v.bump && w.free == v.free && v.bump in w.blocks && !Wf(w)
  {
    var need := AlignUp(size);
    var i := FirstFit(v.free, v.blocks, need);
    if i < |v.free| {
      ListedIsShort(v, i);
    }
    var found: seq<Byte> :| |found| == need && w == AllocBump(v, found);
    assert End(w.blocks, v.bump) > w.bump;
  }

  /** The largest sizes round to nothing: whatever comes first is handed out. */
  lemma TooSmall(v: View, size: U32, capacity: nat, w: View, r: Option<nat>)
    requires Wf(v) && size > U32_LIMIT - ALLOC_ALIGN && Allocates(v, size, capacity, w, r) && r.Some?
    ensures r.value >= 8 && r.value - 8 in w.blocks && |w.blocks[r.value - 8].data| < size
  {
    var i := FirstFit(v.free, v.blocks, 0);
    if i < |v.free| {
      ListedIsShort(v, i);
      ListedIsSafe(v, i);
    }
    hide Wf, FirstFit;
  }

  /** From the empty arena: the call for 2^32 - 8 bytes and the next one get the same
      offset; and the call for 2^32 - 1 bytes gets a block of none. */
  lemma LargeSizesFail(found: seq<Byte>, next: seq<Byte>, capacity: nat)
    requires |found| == U32_LIMIT - 8 && |next| == 8 && 16 <= capacity < U32_LIMIT
    ensures var v := View(map[], 0, {}, []);
            var w := AllocBump(v, found);
            && Allocates(v, U32_LIMIT - 8, capacity, w, Some(8))
            && Allocates(w, 8, capacity, AllocBump(w, next), Some(8))
            && Allocates(v, U32_LIMIT - 1, capacity, AllocBump(v, []), Some(8)) && AllocBump(v, []).blocks[0].data == []
  {
    var v := View(map[], 0, {}, []);
    var w := AllocBump(v, found);
    assert AlignUp(U32_LIMIT - 8) == |found| && AlignUp(8) == |next| && AlignUp(U32_LIMIT - 1) == 0;
    assert Needed(|found|) == 0 && w.bump == 0 && w.free == [];
  }

  lemma ListedIsSafe(v: View, i: nat)
    requires Wf(v) && i < |v.free|
    ensures var w, h := AllocReuse(v, i), v.free[i];
            && Wf(w) && h !in v.live && w.live == v.live + {h} && w.bump == v.bump
            && h in w.blocks && h in v.blocks && |w.blocks[h].data| == |v.blocks[h].data|
            && forall g :: g in v.blocks ==> g in w.blocks && w.blocks[g].data == v.blocks[g].data
  {
    AllocReuseKeepsWf(v, i);
    InList(v, i);
    hide Wf;
  }

  lemma BumpIsSafe(v: View, found: seq<Byte>)
    requires Wf(v) && v.bump + 8 + |found| < U32_LIMIT
    ensures var w := AllocBump(v, found);
            && Wf(w) && v.bump !in v.live && w.live == v.live + {v.bump} && w.bump == v.bump + 8 + |found|
            && v.bump in w.blocks && w.blocks[v.bump].data == found
            && forall g :: g in v.blocks ==> g in w.blocks && w.blocks[g].data == v.blocks[g].data
  {
    AllocBumpKeepsWf(v, found);
    assert v.live <= v.blocks.Keys;
    hide Wf;
  }

  // ---- whole runs ----------------------------------------------------------------

  datatype Op =
    | OpAlloc(size: U32, result: Option<nat>)
    | OpFree(block: nat)
    | OpWrite(block: nat, at: nat, part: seq<Byte>)

  /** One call under the caller contract: ask for at most `MAX_SIZE` bytes, free and
      write only blocks in hand, and write inside them. */
  ghost predicate Step(v: View, op: Op, capacity: nat, w: View) {
    match op
    case OpAlloc(size, r) => size <= MAX_SIZE && Allocates(v, size, capacity, w, r)
    case OpFree(h) => h in v.live && w == Freed(v, h)
    case OpWrite(h, at, part) =>
      h in v.live && h in v.blocks && at + |part| <= |v.blocks[h].data| && w == Write(v, h, at, part)
  }

  lemma StepIsSafe(v: View, op: Op, capacity: nat, w: View)
    requires Wf(v) && Step(v, op, capacity, w)
    ensures Wf(w)
    ensures v.bump <= capacity ==> w.bump <= capacity
    ensures forall h :: h in v.live && op != OpFree(h) ==> h in w.live
    ensures forall h :: h in v.live && !(op.OpWrite? && op.block == h) ==>
              h in v.blocks && h in w.blocks && w.blocks[h].data == v.blocks[h].data
  {
    match op
    case OpAlloc(size, r) => AllocIsSafe(v, size, capacity, w, r);
    case OpFree(h) => FreeKeepsWf(v, h);
    case OpWrite(h, at, part) => WriteKeepsWf(v, h, at, part);
  }

  ghost predicate Run(views: seq<View>, ops: seq<Op>, capacity: nat) {
    && |views| == |ops| + 1
    && views[0] == View(map[], 0, {}, [])
    && forall i :: 0 <= i < |ops| ==> Step(views[i], ops[i], capacity, views[i + 1])
  }

  /** Over any run from an empty arena: blocks in hand are pairwise disjoint and
      inside the bump limit, and the free list is acyclic and names only freed
      blocks. */
  lemma {:induction false} RunIsSafe(views: seq<View>, ops: seq<Op>, capacity: nat, k: nat)
    requires Run(views, ops, capacity) && k <= |ops|
    ensures Wf(views[k]) && views[k].bump <= capacity
  {
    hide Wf, Step;
    if k == 0 {
      EmptyIsWf();
    } else {
      RunIsSafe(views, ops, capacity, k - 1);
      StepIsSafe(views[k - 1], ops[k - 1], capacity, views[k]);
    }
  }

  lemma EmptyIsWf()
    ensures Wf(View(map[], 0, {}, [])) && AllListed(View(map[], 0, {}, []))
  {
  }

  lemma RunStep(views: seq<View>, ops: seq<Op>, capacity: nat, k: nat)
    requires Run(views, ops, capacity) && 0 < k <= |ops|
    ensures Wf(views[k - 1]) && Step(views[k - 1], ops[k - 1], capacity, views[k])
  {
    hide Wf, Step;
    RunIsSafe(views, ops, capacity, k - 1);
    assert Step(views[k - 1], ops[k - 1], capacity, views[k - 1 + 1]);
  }

  /** Between `i` and `k` nobody frees block `h` or writes to it. */
  ghost predicate LeavesAlone(ops: seq<Op>, i: nat, k: nat, h: nat)
    requires k <= |ops|
  {
    forall j :: i <= j < k ==> ops[j] != OpFree(h) && !(ops[j].OpWrite? && ops[j].block == h)
  }

  /** Data stays readable until its block is freed: a block in hand that nobody
      frees or writes keeps its bytes, whatever else the run does. */
  lemma {:induction false} DataReadsBack(views: seq<View>, ops: seq<Op>, capacity: nat, i: nat, k: nat, h: nat)
    requires Run(views, ops, capacity) && i <= k <= |ops|
    requires h in views[i].live && LeavesAlone(ops, i, k, h)
    ensures h in views[i].blocks && h in views[k].live && h in views[k].blocks
    ensures views[k].blocks[h].data == views[i].blocks[h].data
    decreases k
  {
    hide Wf, Step;
    RunIsSafe(views, ops, capacity, k);
    LiveIsBlock(views[k]);
    if i < k {
      DataReadsBack(views, ops, capacity, i, k - 1, h);
      RunStep(views, ops, capacity, k);
      StepIsSafe(views[k - 1], ops[k - 1], capacity, views[k]);
    }
  }

  lemma LiveIsBlock(v: View)
    requires Wf(v)
    ensures v.live <= v.blocks.Keys
  {
  }

  // ---- which freed blocks can be handed out again ----------------------------------

  /** Every freed block is on the list. */
  ghost predicate AllListed(v: View) {
    forall h :: h in v.blocks && h !in v.live ==> h in v.free
  }

  /** The block whose header sits at offset 0 was freed. */
  ghost predicate ZeroLost(v: View) {
    0 in v.blocks && 0 !in v.live
  }

  lemma ReuseKeepsListed(v: View, i: nat)
    requires Wf(v) && i < |v.free|
    ensures AllListed(v) ==> AllListed(AllocReuse(v, i))
    ensures ZeroLost(v) ==> ZeroLost(AllocReuse(v, i))
  {
    ListedIsSafe(v, i);
    InList(v, i);
    var w := AllocReuse(v, i);
    hide Wf;
    forall h | AllListed(v) && h in w.blocks && h !in w.live
      ensures h in w.free
    {
      var j :| 0 <= j < |v.free| && v.free[j] == h;
      assert h == w.free[if j < i then j else j - 1];
    }
  }

  lemma StepListed(v: View, op: Op, capacity: nat, w: View)
    requires Wf(v) && Step(v, op, capacity, w)
    ensures AllListed(v) && op != OpFree(0) ==> AllListed(w)
    ensures ZeroLost(v) || op == OpFree(0) ==> ZeroLost(w)
  {
    match op
    case OpAlloc(size, r) =>
      var i := FirstFit(v.free, v.blocks, AlignUp(size));
      if size != 0 && i < |v.free| {
        ReuseKeepsListed(v, i);
      } else if 0 in v.blocks {
        assert End(v.blocks, 0) <= v.bump;
      }
    case OpFree(h) =>
      assert forall g :: g in v.free ==> g in [h] + v.free;
    case OpWrite(h, at, part) =>
  }

  /** Offset 0 is both the first block's header and the end-of-list mark. Freed
      blocks are therefore all reusable exactly as long as that block was never
      freed; freeing it loses it, and the whole list with it, for good. */
  lemma {:induction false} AllListedIffZeroKept(views: seq<View>, ops: seq<Op>, capacity: nat, k: nat)
    requires Run(views, ops, capacity) && k <= |ops|
    ensures AllListed(views[k]) <==> OpFree(0) !in ops[..k]
  {
    hide Wf, Step;
    ListedOverRun(views, ops, capacity, k);
    RunIsSafe(views, ops, capacity, k);
    ZeroUnlisted(views[k]);
  }

  lemma ZeroUnlisted(v: View)
    requires Wf(v)
    ensures 0 !in v.free
  {
    forall i | 0 <= i < |v.free|
      ensures v.free[i] != 0
    {
      assert LinkOk(v, i);
    }
  }

  lemma {:induction false} ListedOverRun(views: seq<View>, ops: seq<Op>, capacity: nat, k: nat)
    requires Run(views, ops, capacity) && k <= |ops|
    ensures if OpFree(0) in ops[..k] then ZeroLost(views[k]) else AllListed(views[k])
  {
    hide Wf, Step, AllListed, ZeroLost;
    if k == 0 {
      EmptyIsWf();
    } else {
      ListedOverRun(views, ops, capacity, k - 1);
      RunStep(views, ops, capacity, k);
      StepListed(views[k - 1], ops[k - 1], capacity, views[k]);
      LastOrBefore(ops, k, OpFree(0));
    }
  }

  lemma LastOrBefore(ops: seq<Op>, k: nat, op: Op)
    requires 0 < k <= |ops|
    ensures op in ops[..k] <==> op in ops[..k - 1] || op == ops[k - 1]
  {
    assert ops[..k] == ops[..k - 1] + [ops[k - 1]];
  }

  // ---- the bytes hold the blocks -----------------------------------------------------

  ghost predicate Rep(mem: seq<Byte>, v: View) {
    && v.bump <= |mem|
    && forall h :: h in v.blocks ==> Holds(mem, h, v.blocks[h].next, v.blocks[h].data)
  }

  ghost predicate Good(mem: seq<Byte>, v: View) {
    Wf(v) && Rep(mem, v)
  }

  /** Changing bytes inside one block leaves every other block as it was. */
  lemma RepFrame(mem: seq<Byte>, mem': seq<Byte>, v: View, h0: nat, g: nat)
    requires Wf(v) && Rep(mem, v) && h0 in v.blocks && g in v.blocks && g != h0
    requires |mem'| == |mem|
    requires forall i :: 0 <= i < |mem| && !(h0 <= i < End(v.blocks, h0)) ==> mem'[i] == mem[i]
    ensures Holds(mem', g, v.blocks[g].next, v.blocks[g].data)
  {
    assert Apart(v.blocks, g, h0);
    assert Holds(mem, g, v.blocks[g].next, v.blocks[g].data);
    HoldsFrame(mem, mem', g, v.blocks[g].next, v.blocks[g].data);
  }

  /** A header write changes one link word and nothing else. */
  lemma RepSetNext(mem: seq<Byte>, v: View, h0: nat, next: nat)
    requires Wf(v) && Rep(mem, v) && h0 in v.blocks && next < U32_LIMIT
    ensures h0 + 8 <= |mem|
    ensures Rep(PutHeader(mem, h0, |v.blocks[h0].data|, next), v.(blocks := SetNext(v.blocks, h0, next)))
  {
    hide Wf, Holds, GetU32, PutHeader, Rep;
    RepAt(mem, v, h0);
    HoldsData(mem, h0, v.blocks[h0].next, v.blocks[h0].data);
    assert End(v.blocks, h0) < U32_LIMIT by {
      EndInBounds(v, h0);
    }
    var size := |v.blocks[h0].data|;
    var mem' := PutHeader(mem, h0, size, next);
    HoldsPutHeader(mem, h0, size, next);
    var w := v.(blocks := SetNext(v.blocks, h0, next));
    forall g | g in w.blocks
      ensures Holds(mem', g, w.blocks[g].next, w.blocks[g].data)
    {
      if g != h0 {
        RepFrame(mem, mem', v, h0, g);
      }
    }
    RepBound(mem, v);
    RepIntro(mem', w);
  }

  lemma EndInBounds(v: View, h: nat)
    requires Wf(v) && h in v.blocks
    ensures End(v.blocks, h) <= v.bump < U32_LIMIT
  {
  }

  lemma RepAt(mem: seq<Byte>, v: View, h: nat)
    requires Rep(mem, v) && h in v.blocks
    ensures Holds(mem, h, v.blocks[h].next, v.blocks[h].data)
  {
  }

  /** Memory after the link word before the i-th listed block skips it. */
  ghost function UnlinkedMem(mem: seq<Byte>, v: View, i: nat): (r: seq<Byte>)
    ensures |r| == |mem|
  {
    if 0 < i < |v.free| && v.free[i - 1] + 8 <= |mem| then
      PutHeader(mem, v.free[i - 1], Len(v.blocks, v.free[i - 1]), NextOf(v.free, i))
    else mem
  }

  lemma UnlinkKeepsWf(v: View, i: nat)
    requires Wf(v) && i < |v.free|
    ensures Wf(Unlinked(v, i))
  {
    if i > 0 {
      InList(v, i - 1);
    }
    UnlinkKeepsList(v, i);
    ShapeKeepsLayout(v, Unlinked(v, i));
    hide ListOk, InBounds, Disjoint;
  }

  lemma NextInBounds(v: View, i: nat)
    requires Wf(v)
    ensures NextOf(v.free, i) < U32_LIMIT && ListHead(v.free) < U32_LIMIT
  {
    if v.free != [] {
      InList(v, 0);
      if i + 1 < |v.free| {
        InList(v, i + 1);
      }
    }
  }

  lemma RepUnlink(mem: seq<Byte>, v: View, i: nat)
    requires Wf(v) && Rep(mem, v) && i < |v.free|
    ensures Rep(UnlinkedMem(mem, v, i), Unlinked(v, i))
  {
    if i > 0 {
      InList(v, i - 1);
      NextInBounds(v, i);
      RepSetNext(mem, v, v.free[i - 1], NextOf(v.free, i));
    }
    hide Wf, Holds, PutHeader;
  }

  lemma GoodListNonZero(mem: seq<Byte>, v: View)
    requires Good(mem, v)
    ensures forall i :: 0 <= i < |v.free| ==> v.free[i] in v.blocks && v.free[i] != 0
  {
    forall i | 0 <= i < |v.free|
      ensures v.free[i] in v.blocks && v.free[i] != 0
    {
      InList(v, i);
    }
  }

  /** What the words at a listed block say. */
  lemma ListedWords(mem: seq<Byte>, v: View, i: nat)
    requires Good(mem, v) && i < |v.free|
    ensures v.free[i] in v.blocks && v.free[i] != 0 && v.free[i] !in v.live && v.free[i] + 8 <= |mem|
    ensures GetU32(mem, v.free[i]) == Len(v.blocks, v.free[i])
    ensures GetU32(mem, v.free[i] + 4) == NextOf(v.free, i)
  {
    InList(v, i);
    assert Holds(mem, v.free[i], v.blocks[v.free[i]].next, v.blocks[v.free[i]].data);
    hide Wf, Rep, GetU32;
  }

  /** And when the walk stops there. */
  lemma GoodListed(mem: seq<Byte>, v: View, need: nat, i: nat)
    requires Good(mem, v) && i < |v.free| && i <= FirstFit(v.free, v.blocks, need)
    ensures v.free[i] in v.blocks && v.free[i] != 0 && v.free[i] + 8 <= |mem|
    ensures GetU32(mem, v.free[i]) == Len(v.blocks, v.free[i])
    ensures GetU32(mem, v.free[i] + 4) == NextOf(v.free, i)
    ensures Len(v.blocks, v.free[i]) >= need <==> i == FirstFit(v.free, v.blocks, need)
  {
    hide Good, GetU32, Len;
    ListedWords(mem, v, i);
  }

  /** Everything the two header writes of a reuse touch and establish. */
  lemma GoodReuse(mem: seq<Byte>, v: View, i: nat)
    requires Good(mem, v) && i < |v.free|
    ensures v.free[i] in v.blocks && v.free[i] + 8 <= |mem|
    ensures i > 0 ==> v.free[i - 1] != 0 && v.free[i - 1] + 8 <= |mem|
    ensures i > 0 ==> GetU32(mem, v.free[i - 1]) == Len(v.blocks, v.free[i - 1])
    ensures AllocReuse(v, i).bump == v.bump && v.free[i] !in v.live && AllocReuse(v, i).live == v.live + {v.free[i]}
    ensures ListHead(AllocReuse(v, i).free) == if i == 0 then NextOf(v.free, i) else ListHead(v.free)
    ensures Good(PutHeader(UnlinkedMem(mem, v, i), v.free[i], Len(v.blocks, v.free[i]), 0), AllocReuse(v, i))
  {
    hide PutHeader, GetU32, UnlinkedMem, Rep, Wf;
    ListedWords(mem, v, i);
    if i > 0 {
      ListedWords(mem, v, i - 1);
    }
    AllocReuseKeepsWf(v, i);
    RepUnlink(mem, v, i);
    UnlinkKeepsWf(v, i);
    RepSetNext(UnlinkedMem(mem, v, i), Unlinked(v, i), v.free[i], 0);
    RepSameBlocks(PutHeader(UnlinkedMem(mem, v, i), v.free[i], Len(v.blocks, v.free[i]), 0),
                  Unlinked(v, i).(blocks := SetNext(Unlinked(v, i).blocks, v.free[i], 0)), AllocReuse(v, i));
  }

  lemma GoodFreed(mem: seq<Byte>, v: View, h: nat)
    requires Good(mem, v) && h in v.live
    ensures h in v.blocks && h + 8 <= |mem| && GetU32(mem, h) == |v.blocks[h].data|
    ensures Good(PutHeader(mem, h, |v.blocks[h].data|, ListHead(v.free)), Freed(v, h))
  {
    assert h in v.blocks;
    assert Holds(mem, h, v.blocks[h].next, v.blocks[h].data);
    NextInBounds(v, 0);
    hide PutHeader, GetU32, Rep, Wf;
    FreeKeepsWf(v, h);
    RepSetNext(mem, v, h, ListHead(v.free));
    RepSameBlocks(PutHeader(mem, h, |v.blocks[h].data|, ListHead(v.free)),
                  v.(blocks := SetNext(v.blocks, h, ListHead(v.free))),
                  Freed(v, h));
  }

  /** The byte representation does not depend on who holds which block. */
  lemma RepSameBlocks(mem: seq<Byte>, v: View, w: View)
    requires Rep(mem, v) && w.blocks == v.blocks && w.bump == v.bump
    ensures Rep(mem, w)
  {
  }

  lemma RepAllocBump(mem: seq<Byte>, v: View, need: U32)
    requires Wf(v) && Rep(mem, v) && BumpFits(v, need, |mem|) && need + 8 < U32_LIMIT
    ensures Rep(PutHeader(mem, v.bump, need, 0), AllocBump(v, mem[v.bump + 8..v.bump + 8 + need]))
  {
    hide Holds, PutHeader, Wf, Rep;
    var mem' := PutHeader(mem, v.bump, need, 0);
    var w := AllocBump(v, mem[v.bump + 8..v.bump + 8 + need]);
    HoldsPutHeader(mem, v.bump, need, 0);
    forall g | g in w.blocks
      ensures Holds(mem', g, w.blocks[g].next, w.blocks[g].data)
    {
      if g != v.bump {
        RepBelow(mem, v, need, g);
      }
    }
    RepIntro(mem', w);
  }

  /** A header written at the bump offset lies above every block. */
  lemma RepBelow(mem: seq<Byte>, v: View, need: nat, g: nat)
    requires Wf(v) && Rep(mem, v) && v.bump + 8 <= |mem| && g in v.blocks
    ensures Holds(PutHeader(mem, v.bump, need, 0), g, v.blocks[g].next, v.blocks[g].data)
  {
    assert Holds(mem, g, v.blocks[g].next, v.blocks[g].data);
    assert End(v.blocks, g) <= v.bump;
    hide Disjoint, ListOk, GetU32, Rep;
    HoldsFrame(mem, PutHeader(mem, v.bump, need, 0), g, v.blocks[g].next, v.blocks[g].data);
  }

  lemma GoodBump(mem: seq<Byte>, v: View, need: U32)
    requires Good(mem, v) && BumpFits(v, need, |mem|) && need + 8 < U32_LIMIT
    ensures v.bump !in v.live
    ensures Good(PutHeader(mem, v.bump, need, 0), AllocBump(v, mem[v.bump + 8..v.bump + 8 + need]))
  {
    RepAllocBump(mem, v, need);
    AllocBumpKeepsWf(v, mem[v.bump + 8..v.bump + 8 + need]);
  }

  /** What an in-bounds payload write leaves at block `g`. */
  lemma RepWriteAt(mem: seq<Byte>, v: View, h0: nat, at: nat, part: seq<Byte>, g: nat)
    requires Wf(v) && Rep(mem, v) && h0 in v.blocks && g in v.blocks && at + |part| <= |v.blocks[h0].data|
    ensures h0 + 8 + at + |part| <= |mem|
    ensures var b := Write(v, h0, at, part).blocks[g]; Holds(Splice(mem, h0 + 8 + at, part), g, b.next, b.data)
  {
    var b := v.blocks[h0];
    assert Holds(mem, h0, b.next, b.data);
    HoldsSplice(mem, h0, b.next, b.data, at, part);
    SpliceOutside(mem, h0 + 8 + at, part);
    hide Wf, Splice, Rep;
    if g != h0 {
      RepFrame(mem, Splice(mem, h0 + 8 + at, part), v, h0, g);
    }
    hide Holds;
  }

  /** An in-bounds payload write damages no header and no other block. */
  lemma RepWrite(mem: seq<Byte>, v: View, h0: nat, at: nat, part: seq<Byte>)
    requires Wf(v) && Rep(mem, v) && h0 in v.blocks && at + |part| <= |v.blocks[h0].data|
    ensures h0 + 8 + at + |part| <= |mem|
    ensures Rep(Splice(mem, h0 + 8 + at, part), Write(v, h0, at, part))
  {
    hide Wf, Splice, Rep, Holds;
    RepWriteAt(mem, v, h0, at, part, h0);
    var w := Write(v, h0, at, part);
    forall g | g in w.blocks
      ensures Holds(Splice(mem, h0 + 8 + at, part), g, w.blocks[g].next, w.blocks[g].data)
    {
      RepWriteAt(mem, v, h0, at, part, g);
    }
    RepBound(mem, v);
    RepIntro(Splice(mem, h0 + 8 + at, part), w);
  }

  lemma SpliceOutside(mem: seq<Byte>, at: nat, part: seq<Byte>)
    requires at + |part| <= |mem|
    ensures forall i :: 0 <= i < |mem| && !(at <= i < at + |part|) ==> Splice(mem, at, part)[i] == mem[i]
  {
  }

  lemma RepBound(mem: seq<Byte>, v: View)
    requires Rep(mem, v)
    ensures v.bump <= |mem|
  {
  }

  lemma RepIntro(mem: seq<Byte>, v: View)
    requires v.bump <= |mem|
    requires forall h :: h in v.blocks ==> Holds(mem, h, v.blocks[h].next, v.blocks[h].data)
    ensures Rep(mem, v)
  {
  }

  lemma GoodWrite(mem: seq<Byte>, v: View, h: nat, off: nat, part: seq<Byte>)
    requires Good(mem, v) && h in v.live && h in v.blocks && h + 8 <= off && off + |part| <= End(v.blocks, h)
    ensures off + |part| <= |mem|
    ensures Good(Splice(mem, off, part), Write(v, h, off - h - 8, part))
  {
    hide Rep, Wf;
    RepWrite(mem, v, h, off - h - 8, part);
    WriteKeepsWf(v, h, off - h - 8, part);
  }

  lemma HoldsSplice(mem: seq<Byte>, h: nat, next: nat, data: seq<Byte>, at: nat, part: seq<Byte>)
    requires Holds(mem, h, next, data) && at + |part| <= |data|
    ensures Holds(Splice(mem, h + 8 + at, part), h, next, Splice(data, at, part))
  {
    var mem' := Splice(mem, h + 8 + at, part);
    assert mem'[h..h + 8] == mem[h..h + 8];
    assert GetU32(mem', h) == GetU32(mem, h) && GetU32(mem', h + 4) == GetU32(mem, h + 4) by {
      assert forall i :: h <= i < h + 8 ==> mem'[i] == mem'[h..h + 8][i - h] == mem[i];
    }
    assert mem'[h + 8..h + 8 + |data|] == Splice(mem[h + 8..h + 8 + |data|], at, part);
  }

  // ---- the allocator itself ----------------------------------------------------------

  lemma NothingAllocated(v: View, size: U32, capacity: nat)
    requires size == 0 ||
             (FirstFit(v.free, v.blocks, AlignUp(size)) == |v.free| && !BumpFits(v, AlignUp(size), capacity))
    ensures Allocates(v, size, capacity, v, None)
  {
  }

  lemma NoWrap(size: U32)
    ensures size == 0 ==> !Wraps(size)
  {
  }

  lemma NeedWraps(size: U32)
    ensures var need := AlignUp(size);
            if Wraps(size) then need == U32_LIMIT - 8 && Needed(need) == 0
            else need < U32_LIMIT - 8 && Needed(need) == need + 8
  {
  }

  lemma GoodBounds(mem: seq<Byte>, v: View)
    requires Good(mem, v)
    ensures v.bump <= |mem| && v.bump < U32_LIMIT
  {
  }

  /** No listed block is as large as a size that wraps. */
  lemma WrapIsFresh(mem: seq<Byte>, v: View, size: U32)
    requires Good(mem, v) && Wraps(size)
    ensures FirstFit(v.free, v.blocks, AlignUp(size)) == |v.free|
  {
    hide FirstFit, Rep, Wf;
    NeedWraps(size);
    var i := FirstFit(v.free, v.blocks, AlignUp(size));
    if i < |v.free| {
      ListedIsShort(v, i);
    }
  }

  lemma ListedAllocated(v: View, size: U32, capacity: nat, i: nat)
    requires size > 0 && i == FirstFit(v.free, v.blocks, AlignUp(size)) < |v.free|
    ensures Allocates(v, size, capacity, AllocReuse(v, i), Some(v.free[i] + 8))
  {
  }

  lemma BumpAllocated(v: View, size: U32, capacity: nat, found: seq<Byte>)
    requires size > 0 && FirstFit(v.free, v.blocks, AlignUp(size)) == |v.free|
    requires BumpFits(v, AlignUp(size), capacity) && |found| == AlignUp(size) && v.bump + 8 <= capacity
    ensures Allocates(v, size, capacity, AllocBump(v, found), Some(v.bump + 8))
  {
  }

  /** A stretch of a block's payload, read straight from memory. */
  lemma GoodRead(mem: seq<Byte>, v: View, h: nat, off: nat, len: nat)
    requires Good(mem, v) && h in v.blocks && h + 8 <= off && off + len <= End(v.blocks, h)
    ensures off + len <= |mem| && mem[off..off + len] == v.blocks[h].data[off - h - 8..][..len]
  {
    hide Wf, Holds, Rep;
    RepAt(mem, v, h);
    HoldsRead(mem, h, v.blocks[h].next, v.blocks[h].data, off - h - 8, len);
  }

  lemma HoldsRead(mem: seq<Byte>, h: nat, next: nat, data: seq<Byte>, at: nat, len: nat)
    requires Holds(mem, h, next, data) && at + len <= |data|
    ensures mem[h + 8 + at..h + 8 + at + len] == data[at..][..len]
  {
    HoldsData(mem, h, next, data);
    hide Holds, GetU32;
    SliceOfSlice(mem, h + 8, h + 8 + |data|, at, len);
  }

  lemma HoldsData(mem: seq<Byte>, h: nat, next: nat, data: seq<Byte>)
    requires Holds(mem, h, next, data)
    ensures h + 8 + |data| <= |mem| && mem[h + 8..h + 8 + |data|] == data
  {
  }

  lemma SliceOfSlice(s: seq<Byte>, lo: nat, hi: nat, at: nat, len: nat)
    requires lo + at + len <= hi <= |s|
    ensures s[lo..hi][at..][..len] == s[lo + at..lo + at + len]
  {
    var t := s[lo..hi][at..][..len];
    assert |t| == len;
    forall i | 0 <= i < len
      ensures t[i] == s[lo + at..lo + at + len][i]
    {
      assert t[i] == s[lo..hi][at + i] == s[lo + at + i];
    }
  }

  class Arena {
    const bytes: array<Byte>
    var bumpOffset: nat
    var freelistHead: nat
    var totalAllocs: nat
    var totalFrees: nat
    ghost var view: View

    ghost predicate Valid()
      reads this, bytes
    {
      && Good(bytes[..], view)
      && bumpOffset == view.bump && freelistHead == ListHead(view.free)
      && totalAllocs == totalFrees + |view.live|
    }

    constructor (capacity: nat)
      ensures Valid() && view == View(map[], 0, {}, []) && bytes.Length == capacity
      ensures fresh(bytes)
    {
      bytes := new Byte[capacity](_ => 0);
      bumpOffset, freelistHead, totalAllocs, totalFrees := 0, 0, 0, 0;
      view := View(map[], 0, {}, []);
    }

    method ReadU32(off: nat) returns (x: nat)
      requires off + 4 <= bytes.Length
      ensures x == GetU32(bytes[..], off)
    {
      x := (bytes[off] as int) + 256 * (bytes[off + 1] as int) + 65536 * (bytes[off + 2] as int)
           + 16777216 * (bytes[off + 3] as int);
    }

    method WriteU32(off: nat, x: nat)
      requires off + 4 <= bytes.Length
      modifies bytes
      ensures bytes[..] == PutU32(old(bytes[..]), off, x)
    {
      bytes[off] := ByteOf(x, 0);
      bytes[off + 1] := ByteOf(x, 1);
      bytes[off + 2] := ByteOf(x, 2);
      bytes[off + 3] := ByteOf(x, 3);
    }

    method WriteHeader(h: nat, size: nat, next: nat)
      requires h + 8 <= bytes.Length
      modifies bytes
      ensures bytes[..] == PutHeader(old(bytes[..]), h, size, next)
    {
      WriteU32(h, size);
      WriteU32(h + 4, next);
    }

    /** Walk the free list for the first block that fits. */
    method FindFit(need: nat, ghost i0: nat)
      returns (found: bool, prev: nat, cur: nat, size: nat, next: nat)
      requires Valid() && i0 == FirstFit(view.free, view.blocks, need)
      ensures found == (i0 < |view.free|)
      ensures found ==>
                && cur == view.free[i0] && size == Len(view.blocks, cur) && next == NextOf(view.free, i0)
                && prev == if i0 == 0 then 0 else view.free[i0 - 1]
    {
      hide Good, GetU32;
      GoodListNonZero(bytes[..], view);
      prev, cur, size, next := 0, freelistHead, 0, 0;
      ghost var i := 0;
      while cur != 0
        invariant i <= i0
        invariant cur == if i < |view.free| then view.free[i] else 0
        invariant prev == if i == 0 then 0 else view.free[i - 1]
        decreases |view.free| - i
      {
        GoodListed(bytes[..], view, need, i);
        size := ReadU32(cur);
        next := ReadU32(cur + 4);
        if size >= need {
          found := true;
          return;
        }
        prev, cur := cur, next;
        i := i + 1;
      }
      found := false;
    }

    lemma NoListedFit(size: U32)
      requires Valid() && Wraps(size)
      ensures FirstFit(view.free, view.blocks, AlignUp(size)) == |view.free|
    {
      hide Good;
      WrapIsFresh(bytes[..], view, size);
    }

    /** A size that wraps leaves an arena that knows nothing of the block it handed
        out, or panics because the header does not fit. */
    method Alloc(size: U32) returns (r: Option<nat>, panicked: bool)
      requires Valid()
      modifies this, bytes
      ensures panicked <==> Wraps(size) && old(bumpOffset) + 8 > bytes.Length
      ensures !panicked ==> Allocates(old(view), size, bytes.Length, view, r)
      ensures !Wraps(size) ==> Valid()
      ensures Wraps(size) ==> bumpOffset == old(bumpOffset) && freelistHead == old(freelistHead)
      ensures panicked ==> bytes[..] == old(bytes[..]) && view == old(view)
      ensures totalFrees == old(totalFrees)
      ensures totalAllocs == old(totalAllocs) + if r.Some? then 1 else 0
    {
      hide *;
      panicked := false;
      if size == 0 {
        NothingAllocated(view, size, bytes.Length);
        NoWrap(size);
        return None, false;
      }
      var need := AlignUp(size);
      ghost var i := FirstFit(view.free, view.blocks, need);
      if Wraps(size) {
        NoListedFit(size);
      }
      var found, prev, cur, curSize, next := FindFit(need, i);
      if found {
        ListedAllocated(view, size, bytes.Length, i);
        r := TakeListed(i, prev, cur, curSize, next);
      } else {
        r, panicked := AllocFresh(size, need);
      }
    }

    /** No listed block fits: cut a new one at the bump offset, if there is room. */
    method AllocFresh(size: U32, need: U32) returns (r: Option<nat>, panicked: bool)
      requires Valid() && size > 0 && need == AlignUp(size)
      requires FirstFit(view.free, view.blocks, need) == |view.free|
      modifies this, bytes
      ensures panicked <==> Wraps(size) && old(bumpOffset) + 8 > bytes.Length
      ensures !panicked ==> Allocates(old(view), size, bytes.Length, view, r)
      ensures !Wraps(size) ==> Valid()
      ensures Wraps(size) ==> bumpOffset == old(bumpOffset) && freelistHead == old(freelistHead)
      ensures panicked ==> bytes[..] == old(bytes[..]) && view == old(view)
      ensures totalFrees == old(totalFrees)
      ensures totalAllocs == old(totalAllocs) + if r.Some? then 1 else 0
    {
      hide Good, Allocates, FirstFit, AlignUp, AllocBump, Needed;
      NeedWraps(size);
      panicked := false;
      var headerOffset := bumpOffset;
      var newBump := headerOffset + Needed(need);
      if newBump >= U32_LIMIT || newBump > bytes.Length {
        GoodBounds(bytes[..], view);
        NothingAllocated(view, size, bytes.Length);
        return None, false;
      }
      ghost var v := view;
      ghost var data: seq<Byte>;
      if headerOffset + BLOCK_HEADER_BYTES > bytes.Length {
        bumpOffset := newBump;
        return None, true;
      }
      r, data := TakeBump(headerOffset, newBump, need);
      BumpAllocated(v, size, bytes.Length, data);
    }

    method TakeListed(ghost i: nat, prev: nat, cur: nat, size: nat, next: nat) returns (r: Option<nat>)
      requires Valid() && i < |view.free|
      requires cur == view.free[i] && size == Len(view.blocks, cur) && next == NextOf(view.free, i)
      requires prev == if i == 0 then 0 else view.free[i - 1]
      modifies this, bytes
      ensures Valid() && view == AllocReuse(old(view), i) && r == Some(cur + 8)
      ensures totalAllocs == old(totalAllocs) + 1 && totalFrees == old(totalFrees)
    {
      hide Good, PutHeader, AllocReuse, GetU32;
      GoodReuse(bytes[..], view, i);
      if prev == 0 {
        freelistHead := next;
      } else {
        var prevSize := ReadU32(prev);
        WriteHeader(prev, prevSize, next);
      }
      WriteHeader(cur, size, 0);
      view := AllocReuse(view, i);
      totalAllocs := totalAllocs + 1;
      r := Some(cur + BLOCK_HEADER_BYTES);
    }

    method TakeBump(headerOffset: nat, newBump: nat, need: U32) returns (r: Option<nat>, ghost found: seq<Byte>)
      requires Valid() && headerOffset == bumpOffset && newBump == bumpOffset + Needed(need)
      requires BumpFits(view, need, bytes.Length) && headerOffset + 8 <= bytes.Length
      modifies this, bytes
      ensures need + 8 < U32_LIMIT ==> Valid()
      ensures |found| == need && view == AllocBump(old(view), found)
      ensures bumpOffset == newBump && freelistHead == old(freelistHead)
      ensures r == Some(old(bumpOffset) + 8)
      ensures totalAllocs == old(totalAllocs) + 1 && totalFrees == old(totalFrees)
    {
      hide Good, PutHeader, Needed;
      if need + 8 < U32_LIMIT {
        found := bytes[..][headerOffset + 8..headerOffset + 8 + need];
        GoodBump(bytes[..], view, need);
      } else {
        found := seq(need, _ => 0);
      }
      bumpOffset := newBump;
      WriteHeader(headerOffset, need, 0);
      view := AllocBump(view, found);
      totalAllocs := totalAllocs + 1;
      r := Some(headerOffset + BLOCK_HEADER_BYTES);
    }

    method Free(payloadOffset: nat)
      requires Valid() && payloadOffset >= 8 && payloadOffset - 8 in view.live
      modifies this, bytes
      ensures Valid() && view == Freed(old(view), payloadOffset - 8)
      ensures totalFrees == old(totalFrees) + 1 && totalAllocs == old(totalAllocs)
    {
      var h := payloadOffset - BLOCK_HEADER_BYTES;
      hide Good, PutHeader, GetU32;
      GoodFreed(bytes[..], view, h);
      var size := ReadU32(h);
      WriteHeader(h, size, freelistHead);
      freelistHead := h;
      view := Freed(view, h);
      totalFrees := totalFrees + 1;
    }

    method WriteBytes(payloadOffset: nat, data: seq<Byte>, ghost h: nat)
      requires Valid() && h in view.live && h in view.blocks && h + 8 <= payloadOffset
      requires payloadOffset + |data| <= End(view.blocks, h)
      modifies this`view, bytes
      ensures Valid() && view == Write(old(view), h, payloadOffset - h - 8, data)
    {
      hide Good, Splice;
      GoodWrite(bytes[..], view, h, payloadOffset, data);
      CopyFromSlice(payloadOffset, data);
      view := Write(view, h, payloadOffset - h - 8, data);
    }

    method CopyFromSlice(start: nat, data: seq<Byte>)
      requires start + |data| <= bytes.Length
      modifies bytes
      ensures bytes[..] == Splice(old(bytes[..]), start, data)
    {
      for i := 0 to |data|
        invariant forall k :: 0 <= k < bytes.Length ==>
                    bytes[k] == if start <= k < start + i then data[k - start] else old(bytes[k])
      {
        bytes[start + i] := data[i];
      }
    }

    /** Reading inside a block yields exactly that part of its payload. */
    method ReadBytes(payloadOffset: nat, len: nat, ghost h: nat) returns (data: seq<Byte>)
      requires Valid() && h in view.live && h in view.blocks && h + 8 <= payloadOffset
      requires payloadOffset + len <= End(view.blocks, h)
      ensures data == view.blocks[h].data[payloadOffset - h - 8..][..len]
    {
      hide Good;
      GoodRead(bytes[..], view, h, payloadOffset, len);
      data := bytes[payloadOffset..payloadOffset + len];
      assert data == bytes[..][payloadOffset..payloadOffset + len];
    }
  }
}
