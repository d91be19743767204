/** The kernel module's page tracker: a list under a mutex, with the pages themselves
    granted and released by the kernel outside the critical sections. */
module Pager {

  const PAGE_SIZE := 4096

  function Pages(order: nat): (n: nat)
    ensures n > 0
  {
    if order == 0 then 1 else 2 * Pages(order - 1)
  }

  /** A tracked allocation: `struct page_node`, or the arguments of `free_pages`. */
  datatype Block = Block(addr: nat, order: nat)

  predicate Overlap(a: Block, b: Block) {
    a.addr < b.addr + PAGE_SIZE * Pages(b.order) && b.addr < a.addr + PAGE_SIZE * Pages(a.order)
  }

  /** The addresses of a block: a page is 4 KiB. */
  predicate Covers(b: Block, byte: nat) {
    b.addr <= byte < b.addr + 4096 * Pages(b.order)
  }

  /** Two blocks overlap exactly when they share an address. */
  lemma OverlapIff(a: Block, b: Block)
    ensures Overlap(a, b) <==> exists byte :: Covers(a, byte) && Covers(b, byte)
  {
    if Overlap(a, b) {
      assert Covers(a, if a.addr < b.addr then b.addr else a.addr);
    }
  }

  /** A block of order n has 2 to the n pages. */
  lemma {:induction false} PagesMultiply(m: nat, n: nat)
    ensures Pages(0) == 1 && Pages(1) == 2 && Pages(m + n) == Pages(m) * Pages(n)
    decreases n
  {
    if n > 0 {
      PagesMultiply(m, n - 1);
      assert Pages(m + n) == 2 * (Pages(m) * Pages(n - 1)) == Pages(m) * (2 * Pages(n - 1));
    }
  }

  /** Where a thread is in the calls that touch pages. */
  datatype Local =
    | Resting
    | Granted(block: Block)     // __get_free_pages returned
    | Noded(block: Block)       // kmalloc returned; about to take the mutex
    | Listed(block: Block)      // list_add done; page_pr_allocate_at has yet to look at the head
    | Looked(block: Block, reported: nat)  // it has read an address there; 0 stands for a null pointer
    | Untracked(block: Block)   // kmalloc failed; about to free_pages
    | Unlinked(block: Block)    // page_pr_free unlinked the node; about to free_pages
    | Sweeping                  // page_pr_cleanup, between two nodes
    | SweepingAt(block: Block)  // page_pr_cleanup, node unlinked; about to free_pages

  type Thread = nat

  datatype Mutex = Free | HeldBy(thread: Thread)

  /** The kernel's live blocks, the tracking list, the threads, and the history of grants and releases. */
  datatype State = State(
    live: set<Block>, list: seq<Block>, threads: map<Thread, Local>, mutex: Mutex,
    granted: multiset<Block>, released: multiset<Block>)

  const START := State({}, [], map[], Free, multiset{}, multiset{})

  datatype Event =
    | Grant(t: Thread, block: Block)
    | NodeMade(t: Thread)
    | NodeRefused(t: Thread)
    | ListAdd(t: Thread)
    | Look(t: Thread)
    | Return(t: Thread)
    | Release(t: Thread)
    | Unlink(t: Thread, addr: nat)
    | SweepStart(t: Thread)
    | SweepNext(t: Thread)
    | SweepEnd(t: Thread)

  function At(s: State, t: Thread): Local {
    if t in s.threads then s.threads[t] else Resting
  }

  /** Whether the thread has a block of its own, in no list. */
  predicate Holding(l: Local) {
    l.Granted? || l.Noded? || l.Untracked? || l.Unlinked? || l.SweepingAt?
  }

  predicate Releasing(l: Local) {
    l.Untracked? || l.Unlinked? || l.SweepingAt?
  }

  /** The position of the first node with the address, or the length of the list. */
  function IndexOf(list: seq<Block>, addr: nat): (k: nat)
    ensures k <= |list|
    ensures k < |list| ==> list[k].addr == addr
    ensures forall j :: 0 <= j < k ==> list[j].addr != addr
  {
    if list == [] || list[0].addr == addr then 0 else 1 + IndexOf(list[1..], addr)
  }

  function Dropped(list: seq<Block>, k: nat): seq<Block>
    requires k < |list|
  {
    list[..k] + list[k + 1..]
  }

  ghost predicate Enabled(s: State, e: Event) {
    match e
    case Grant(t, b) => At(s, t).Resting? && b.addr != 0 && forall c <- s.live :: !Overlap(b, c)
    case NodeMade(t) => At(s, t).Granted?
    case NodeRefused(t) => At(s, t).Granted?
    case ListAdd(t) => At(s, t).Noded? && s.mutex.Free?
    case Look(t) => At(s, t).Listed? && s.mutex.Free?
    case Return(t) => At(s, t).Listed? || At(s, t).Looked?
    case Release(t) => Releasing(At(s, t))
    case Unlink(t, _) => At(s, t).Resting? && s.mutex.Free?
    case SweepStart(t) => At(s, t).Resting? && s.mutex.Free?
    case SweepNext(t) => At(s, t).Sweeping? && s.list != []
    case SweepEnd(t) => At(s, t).Sweeping? && s.list == []
  }

  /** `__page_aladdr`: the address at the head of the list. */
  function HeadAddress(list: seq<Block>): nat {
    if list == [] then 0 else list[0].addr
  }

  function Goto(s: State, t: Thread, l: Local): State {
    s.(threads := s.threads[t := l])
  }

  ghost function Step(s: State, e: Event): State
    requires Enabled(s, e)
  {
    match e
    case Grant(t, b) => Goto(s, t, Granted(b)).(live := s.live + {b}, granted := s.granted + multiset{b})
    case NodeMade(t) => Goto(s, t, Noded(At(s, t).block))
    case NodeRefused(t) => Goto(s, t, Untracked(At(s, t).block))
    case ListAdd(t) => Goto(s, t, Listed(At(s, t).block)).(list := [At(s, t).block] + s.list)
    case Look(t) => Goto(s, t, Looked(At(s, t).block, HeadAddress(s.list)))
    case Return(t) => Goto(s, t, Resting)
    case Release(t) =>
      var b := At(s, t).block;
      Goto(s, t, if At(s, t).SweepingAt? then Sweeping else Resting)
        .(live := s.live - {b}, released := s.released + multiset{b})
    case Unlink(t, addr) =>
      var k := IndexOf(s.list, addr);
      if k == |s.list| then s else Goto(s, t, Unlinked(s.list[k])).(list := Dropped(s.list, k))
    case SweepStart(t) => Goto(s, t, Sweeping).(mutex := HeldBy(t))
    case SweepNext(t) => Goto(s, t, SweepingAt(s.list[0])).(list := s.list[1..])
    case SweepEnd(t) => Goto(s, t, Resting).(mutex := Free)
  }

  ghost function Fire(s: State, e: Event): State {
    if Enabled(s, e) then Step(s, e) else s
  }

  ghost function After(es: seq<Event>): State {
    if es == [] then START else Fire(After(es[..|es| - 1]), es[|es| - 1])
  }

  ghost predicate Distinct(list: seq<Block>) {
    forall j, k :: 0 <= j < k < |list| ==> list[j] != list[k]
  }

  ghost predicate Holds(threads: map<Thread, Local>, t: Thread, b: Block) {
    t in threads && Holding(threads[t]) && threads[t].block == b
  }

  /** Every live block is in exactly one place: once in the list, or with one thread. */
  ghost predicate Owned(live: set<Block>, list: seq<Block>, threads: map<Thread, Local>) {
    && Distinct(list)
    && (forall b :: b in list ==> b in live)
    && (forall t, b :: Holds(threads, t, b) ==> b in live && b !in list)
    && (forall t, u, b :: Holds(threads, t, b) && Holds(threads, u, b) ==> t == u)
    && (forall b :: b in live && b !in list ==> exists t :: Holds(threads, t, b))
  }

  ghost predicate Apart(live: set<Block>) {
    && (forall b, c :: b in live && c in live && b != c ==> !Overlap(b, c))
    && forall b :: b in live ==> b.addr != 0
  }

  /** Grants minus releases is what is live. */
  ghost predicate Accounted(s: State) {
    s.granted == s.released + multiset(s.live)
  }

  ghost predicate Locked(s: State) {
    forall t :: At(s, t).Sweeping? || At(s, t).SweepingAt? <==> s.mutex == HeldBy(t)
  }

  ghost predicate Inv(s: State) {
    Owned(s.live, s.list, s.threads) && Apart(s.live) && Accounted(s) && Locked(s)
  }

  lemma DroppedDistinct(list: seq<Block>, k: nat)
    requires Distinct(list) && k < |list|
    ensures Distinct(Dropped(list, k)) && forall b :: b in Dropped(list, k) <==> b in list && b != list[k]
  {
  }

  /** A thread that held nothing receives a new block. */
  lemma OwnedGrant(live: set<Block>, list: seq<Block>, threads: map<Thread, Local>, t: Thread, l: Local)
    requires Owned(live, list, threads) && (t in threads ==> !Holding(threads[t])) && Holding(l) && l.block !in live
    ensures Owned(live + {l.block}, list, threads[t := l])
  {
    var after := threads[t := l];
    assert forall u, c :: Holds(after, u, c) <==> Holds(threads, u, c) || (u == t && c == l.block);
    forall c | c in live + {l.block} && c !in list ensures exists u :: Holds(after, u, c) {
      if c == l.block {
        assert Holds(after, t, c);
      } else {
        var u :| Holds(threads, u, c);
        assert Holds(after, u, c);
      }
    }
  }

  /** A thread moves on with the block it has. */
  lemma OwnedMove(live: set<Block>, list: seq<Block>, threads: map<Thread, Local>, t: Thread, l: Local)
    requires Owned(live, list, threads) && Holding(l) && Holds(threads, t, l.block)
    ensures Owned(live, list, threads[t := l])
  {
    var after := threads[t := l];
    assert forall u, c :: Holds(after, u, c) <==> Holds(threads, u, c);
    forall c | c in live && c !in list ensures exists u :: Holds(after, u, c) {
      var u :| Holds(threads, u, c);
      assert Holds(after, u, c);
    }
  }

  /** A thread puts its block into the list. */
  lemma OwnedAdd(live: set<Block>, list: seq<Block>, threads: map<Thread, Local>, t: Thread, b: Block)
    requires Owned(live, list, threads) && Holds(threads, t, b)
    ensures Owned(live, [b] + list, threads[t := Listed(b)])
  {
    var after := threads[t := Listed(b)];
    assert forall u, c :: Holds(after, u, c) <==> Holds(threads, u, c) && u != t;
    forall c | c in live && c !in [b] + list ensures exists u :: Holds(after, u, c) {
      var u :| Holds(threads, u, c);
      assert Holds(after, u, c);
    }
  }

  /** A thread gives its block back to the kernel. */
  lemma OwnedRelease(live: set<Block>, list: seq<Block>, threads: map<Thread, Local>, t: Thread, b: Block, l: Local)
    requires Owned(live, list, threads) && Holds(threads, t, b) && !Holding(l)
    ensures Owned(live - {b}, list, threads[t := l])
  {
    var after := threads[t := l];
    assert forall u, c :: Holds(after, u, c) <==> Holds(threads, u, c) && u != t;
    forall c | c in live - {b} && c !in list ensures exists u :: Holds(after, u, c) {
      var u :| Holds(threads, u, c);
      assert Holds(after, u, c);
    }
  }

  /** A node moves from the list to a thread that holds nothing. */
  lemma OwnedTaken(live: set<Block>, list: seq<Block>, threads: map<Thread, Local>, t: Thread, k: nat, l: Local)
    requires Owned(live, list, threads) && (t in threads ==> !Holding(threads[t]))
    requires k < |list| && Holding(l) && l.block == list[k]
    ensures Owned(live, Dropped(list, k), threads[t := l])
  {
    var after := threads[t := l];
    DroppedDistinct(list, k);
    assert forall u, c :: Holds(after, u, c) <==> Holds(threads, u, c) || (u == t && c == l.block);
    forall c | c in live && c !in Dropped(list, k) ensures exists u :: Holds(after, u, c) {
      if c == l.block {
        assert Holds(after, t, c);
      } else {
        var u :| Holds(threads, u, c);
        assert Holds(after, u, c);
      }
    }
  }

  lemma OwnedIdle(live: set<Block>, list: seq<Block>, threads: map<Thread, Local>, t: Thread, l: Local)
    requires Owned(live, list, threads) && (t in threads ==> !Holding(threads[t])) && !Holding(l)
    ensures Owned(live, list, threads[t := l])
  {
    var after := threads[t := l];
    assert forall u, c :: Holds(after, u, c) <==> Holds(threads, u, c);
    forall c | c in live && c !in list ensures exists u :: Holds(after, u, c) {
      var u :| Holds(threads, u, c);
      assert Holds(after, u, c);
    }
  }

  lemma StepKeepsOwned(s: State, e: Event)
    requires Inv(s) && Enabled(s, e)
    ensures Owned(Step(s, e).live, Step(s, e).list, Step(s, e).threads)
  {
    match e
    case Grant(t, b) =>
      assert Overlap(b, b);
      OwnedGrant(s.live, s.list, s.threads, t, Granted(b));
    case NodeMade(t) => OwnedMove(s.live, s.list, s.threads, t, Noded(At(s, t).block));
    case NodeRefused(t) => OwnedMove(s.live, s.list, s.threads, t, Untracked(At(s, t).block));
    case ListAdd(t) => OwnedAdd(s.live, s.list, s.threads, t, At(s, t).block);
    case Look(t) => OwnedIdle(s.live, s.list, s.threads, t, Looked(At(s, t).block, HeadAddress(s.list)));
    case Return(t) => OwnedIdle(s.live, s.list, s.threads, t, Resting);
    case Release(t) =>
      OwnedRelease(s.live, s.list, s.threads, t, At(s, t).block, if At(s, t).SweepingAt? then Sweeping else Resting);
    case Unlink(t, addr) =>
      var k := IndexOf(s.list, addr);
      if k < |s.list| {
        OwnedTaken(s.live, s.list, s.threads, t, k, Unlinked(s.list[k]));
      }
    case SweepStart(t) => OwnedIdle(s.live, s.list, s.threads, t, Sweeping);
    case SweepNext(t) =>
      OwnedTaken(s.live, s.list, s.threads, t, 0, SweepingAt(s.list[0]));
      assert Dropped(s.list, 0) == s.list[1..];
    case SweepEnd(t) => OwnedIdle(s.live, s.list, s.threads, t, Resting);
  }

  lemma StepKeepsApart(s: State, e: Event)
    requires Inv(s) && Enabled(s, e)
    ensures Apart(Step(s, e).live)
  {
  }

  lemma StepKeepsAccounts(s: State, e: Event)
    requires Inv(s) && Enabled(s, e)
    ensures Accounted(Step(s, e))
  {
    if e.Grant? {
      assert Overlap(e.block, e.block);
      assert multiset(s.live + {e.block}) == multiset(s.live) + multiset{e.block};
    } else if e.Release? {
      var b := At(s, e.t).block;
      assert Holds(s.threads, e.t, b);
      assert multiset(s.live) == multiset(s.live - {b}) + multiset{b};
    }
  }

  lemma StepKeepsLocked(s: State, e: Event)
    requires Locked(s) && Enabled(s, e)
    ensures Locked(Step(s, e))
  {
  }

  /** Every step of every thread keeps the ownership of blocks. */
  lemma StepKeeps(s: State, e: Event)
    requires Inv(s) && Enabled(s, e)
    ensures Inv(Step(s, e))
  {
    StepKeepsOwned(s, e);
    StepKeepsApart(s, e);
    StepKeepsAccounts(s, e);
    StepKeepsLocked(s, e);
  }

  lemma {:induction false} InvAlways(es: seq<Event>)
    ensures Inv(After(es))
    decreases |es|
  {
    if es != [] {
      InvAlways(es[..|es| - 1]);
      if Enabled(After(es[..|es| - 1]), es[|es| - 1]) {
        StepKeeps(After(es[..|es| - 1]), es[|es| - 1]);
      }
    }
  }

  /** Over all interleavings of allocate, free and cleanup: the live blocks are the disjoint
      union of the tracked ones and those that one thread each holds, and no two overlap. */
  lemma LiveBlocksHaveOneOwner(es: seq<Event>, b: Block)
    ensures var s := After(es);
            && (b in s.live <==> b in s.list || exists t :: Holds(s.threads, t, b))
            && !(b in s.list && exists t :: Holds(s.threads, t, b))
            && (forall t, u :: Holds(s.threads, t, b) && Holds(s.threads, u, b) ==> t == u)
            && (forall j, k :: 0 <= j < k < |s.list| ==> !Overlap(s.list[j], s.list[k]))
  {
    InvAlways(es);
    var s := After(es);
    forall j, k | 0 <= j < k < |s.list| ensures !Overlap(s.list[j], s.list[k]) {
      assert s.list[j] in s.list && s.list[k] in s.list;
    }
  }

  /** Each grant is released at most once, with the address and order it was granted with, and
      everything granted and not live has been released. */
  lemma ReleasedOnce(es: seq<Event>)
    ensures var s := After(es);
            && s.granted == s.released + multiset(s.live)
            && forall t :: Releasing(At(s, t)) ==> At(s, t).block in s.live && At(s, t).block !in s.list
  {
    InvAlways(es);
    var s := After(es);
    forall t | Releasing(At(s, t)) ensures At(s, t).block in s.live && At(s, t).block !in s.list {
      assert Holds(s.threads, t, At(s, t).block);
    }
  }

  /** When a cleanup has finished and no call is under way, nothing granted is still live. */
  lemma CleanupReleasesAll(es: seq<Event>, t: Thread)
    requires At(After(es), t).Sweeping? && After(es).list == []
    requires forall u :: !Holding(At(After(es), u))
    ensures After(es + [SweepEnd(t)]).granted == After(es + [SweepEnd(t)]).released
  {
    InvAlways(es);
    var s, more := After(es), es + [SweepEnd(t)];
    assert more[..|more| - 1] == es;
    assert s.live == {} by {
      forall b | b in s.live ensures b in s.list {
        assert b !in s.list ==> exists u :: Holds(s.threads, u, b) && Holding(At(s, u));
      }
    }
  }

  // The address that `page_pr_allocate_at` reports

  /** Event `j` of the interleaving took place. */
  ghost predicate Fired(es: seq<Event>, j: nat)
    requires j < |es|
  {
    Enabled(After(es[..j]), es[j])
  }

  /** It put a node into the list. */
  ghost predicate Adds(es: seq<Event>, j: nat) {
    j < |es| && es[j].ListAdd? && Fired(es, j)
  }

  ghost function Added(es: seq<Event>, j: nat): Block
    requires Adds(es, j)
  {
    At(After(es[..j]), es[j].t).block
  }

  /** The block of the node that a step unlinks, if it unlinks one. */
  ghost function Removed(s: State, e: Event): set<Block>
    requires Enabled(s, e)
  {
    match e
    case Unlink(_, addr) =>
      var k := IndexOf(s.list, addr);
      if k < |s.list| then {s.list[k]} else {}
    case SweepNext(_) => {s.list[0]}
    case _ => {}
  }

  /** The blocks whose nodes each event unlinked. */
  ghost function Removals(es: seq<Event>): (r: seq<set<Block>>)
    ensures |r| == |es|
    decreases |es|
  {
    if es == [] then []
    else
      var n := |es| - 1;
      Removals(es[..n]) + [if Fired(es, n) then Removed(After(es[..n]), es[n]) else {}]
  }

  ghost predicate Untouched(b: Block, removals: seq<set<Block>>, j: nat) {
    forall m :: j < m < |removals| ==> b !in removals[m]
  }

  /** The node that event `j` put into the list has not been unlinked since. */
  ghost predicate Tracked(es: seq<Event>, j: nat) {
    Adds(es, j) && Untouched(Added(es, j), Removals(es), j)
  }

  /** The position that a step drops from the list, or its length. */
  ghost function Gone(s: State, e: Event): (k: nat)
    requires Enabled(s, e)
    ensures k <= |s.list|
    ensures Step(s, e).list == if e.ListAdd? then [At(s, e.t).block] + s.list
                               else if k < |s.list| then Dropped(s.list, k) else s.list
    ensures Removed(s, e) == if k < |s.list| then {s.list[k]} else {}
    ensures e.ListAdd? ==> k == |s.list|
  {
    match e
    case Unlink(_, addr) => IndexOf(s.list, addr)
    case SweepNext(_) =>
      assert Dropped(s.list, 0) == s.list[1..];
      0
    case _ => |s.list|
  }

  /** The events that put the nodes of the list there, front to back. */
  ghost function Ages(es: seq<Event>): (r: seq<nat>)
    ensures |r| == |After(es).list|
    decreases |es|
  {
    if es == [] then []
    else
      var n := |es| - 1;
      var s, before := After(es[..n]), Ages(es[..n]);
      if !Fired(es, n) then before
      else if es[n].ListAdd? then [n] + before
      else if Gone(s, es[n]) < |before| then before[..Gone(s, es[n])] + before[Gone(s, es[n]) + 1..]
      else before
  }

  /** Each node is where the event that put it there says, and newer nodes are further to the front. */
  ghost predicate Aged(es: seq<Event>, ages: seq<nat>, list: seq<Block>) {
    && |ages| == |list|
    && (forall k :: 0 <= k < |ages| ==> Adds(es, ages[k]) && Added(es, ages[k]) == list[k])
    && (forall j, k :: 0 <= j < k < |ages| ==> ages[j] > ages[k])
  }

  lemma EarlierSame(es: seq<Event>, j: nat)
    requires es != [] && j < |es| - 1
    ensures var front := es[..|es| - 1];
            && front[..j] == es[..j] && Adds(front, j) == Adds(es, j) && Fired(front, j) == Fired(es, j)
            && (Adds(es, j) ==> Added(front, j) == Added(es, j))
  {
    assert es[..|es| - 1][..j] == es[..j];
  }

  lemma UntouchedNext(b: Block, removals: seq<set<Block>>, last: set<Block>, j: nat)
    ensures Untouched(b, removals + [last], j) <==> Untouched(b, removals, j) && (j < |removals| ==> b !in last)
  {
    var longer := removals + [last];
    if Untouched(b, longer, j) {
      assert forall m :: j < m < |removals| ==> longer[m] == removals[m];
      assert j < |removals| ==> longer[|removals|] == last;
    }
  }

  /** One more event: what was tracked is tracked still, unless the event unlinks it. */
  lemma TrackedNext(es: seq<Event>, j: nat)
    requires es != []
    ensures var n := |es| - 1;
            Tracked(es, j) <==>
              if j < n then
                Tracked(es[..n], j) && !(Fired(es, n) && Added(es[..n], j) in Removed(After(es[..n]), es[n]))
              else j == n && Adds(es, n)
  {
    var n := |es| - 1;
    if j < n {
      EarlierSame(es, j);
    }
    if Adds(es, j) {
      UntouchedNext(Added(es, j), Removals(es[..n]), Removals(es)[n], j);
    }
  }

  lemma AgedEarlier(es: seq<Event>, ages: seq<nat>, list: seq<Block>)
    requires es != [] && Aged(es[..|es| - 1], ages, list)
    ensures Aged(es, ages, list)
  {
    forall k | 0 <= k < |ages| ensures Adds(es, ages[k]) && Added(es, ages[k]) == list[k] {
      assert Adds(es[..|es| - 1], ages[k]);
      EarlierSame(es, ages[k]);
    }
  }

  lemma AgedDropped(es: seq<Event>, ages: seq<nat>, list: seq<Block>, k: nat)
    requires Aged(es, ages, list) && k < |list|
    ensures Aged(es, ages[..k] + ages[k + 1..], Dropped(list, k))
  {
  }

  lemma AgedAdded(es: seq<Event>, ages: seq<nat>, list: seq<Block>, n: nat)
    requires Aged(es, ages, list) && Adds(es, n) && forall k :: 0 <= k < |ages| ==> ages[k] < n
    ensures Aged(es, [n] + ages, [Added(es, n)] + list)
  {
  }

  lemma {:induction false} AgesAged(es: seq<Event>)
    ensures Aged(es, Ages(es), After(es).list)
    decreases |es|
  {
    if es != [] {
      var n := |es| - 1;
      AgesAged(es[..n]);
      AgedEarlier(es, Ages(es[..n]), After(es[..n]).list);
      AgesAgedNext(es, n, After(es[..n]), Ages(es[..n]));
    }
  }

  lemma AgesAgedNext(es: seq<Event>, n: nat, s: State, before: seq<nat>)
    requires n == |es| - 1 && s == After(es[..n]) && before == Ages(es[..n])
    requires Aged(es[..n], before, s.list) && Aged(es, before, s.list)
    ensures Aged(es, Ages(es), After(es).list)
  {
    if Fired(es, n) {
      var k := Gone(s, es[n]);
      if es[n].ListAdd? {
        forall j | 0 <= j < |before| ensures before[j] < n {
          assert Adds(es[..n], before[j]);
        }
        AgedAdded(es, before, s.list, n);
      } else if k < |s.list| {
        AgedDropped(es, before, s.list, k);
      }
    }
  }

  lemma StaysIn(ages: seq<nat>, k: nat, m: nat)
    requires k < |ages| && m < |ages| && m != k
    ensures ages[m] in ages[..k] + ages[k + 1..]
  {
    assert (ages[..k] + ages[k + 1..])[if m < k then m else m - 1] == ages[m];
  }

  /** Dropping a position from two parallel sequences, the second without repeats. */
  lemma DropsTogether(es: seq<Event>, ages: seq<nat>, list: seq<Block>, k: nat, j: nat)
    requires Aged(es, ages, list) && Distinct(list) && k < |list|
    ensures j in ages[..k] + ages[k + 1..] <==> j in ages && Added(es, j) != list[k]
  {
    if j in ages {
      var m :| 0 <= m < |ages| && ages[m] == j;
      if m != k {
        StaysIn(ages, k, m);
        assert list[m] != list[k];
      } else {
        assert forall x :: 0 <= x < |ages| && x != k ==> ages[x] != j;
      }
    }
  }

  /** The nodes in the list are the tracked ones. */
  lemma {:induction false} AgesTracked(es: seq<Event>, j: nat)
    ensures j in Ages(es) <==> Tracked(es, j)
    decreases |es|
  {
    if es != [] {
      var n := |es| - 1;
      AgesTracked(es[..n], j);
      AgesAged(es[..n]);
      InvAlways(es[..n]);
      TrackedNext(es, j);
      AgesStep(es, j);
    }
  }

  lemma AgesStep(es: seq<Event>, j: nat)
    requires es != [] && Aged(es[..|es| - 1], Ages(es[..|es| - 1]), After(es[..|es| - 1]).list)
    requires Distinct(After(es[..|es| - 1]).list)
    ensures var n := |es| - 1;
            j in Ages(es) <==>
              if j < n then j in Ages(es[..n]) && !(Fired(es, n) && Added(es[..n], j) in Removed(After(es[..n]), es[n]))
              else j == n && Adds(es, n)
  {
    var n := |es| - 1;
    var s, before := After(es[..n]), Ages(es[..n]);
    if j in before {
      BeforeNow(es[..n], before, s.list, n, j);
    }
    if Fired(es, n) && !es[n].ListAdd? {
      AgesPick(es[..n], before, s.list, Gone(s, es[n]), j, Removed(s, es[n]));
    }
  }

  lemma BeforeNow(es: seq<Event>, ages: seq<nat>, list: seq<Block>, n: nat, j: nat)
    requires Aged(es, ages, list) && n == |es| && j in ages
    ensures j < n && Adds(es, j)
  {
  }

  lemma AgesPick(es: seq<Event>, ages: seq<nat>, list: seq<Block>, k: nat, j: nat, gone: set<Block>)
    requires Aged(es, ages, list) && Distinct(list) && k <= |list| && gone == if k < |list| then {list[k]} else {}
    ensures var rest := if k < |ages| then ages[..k] + ages[k + 1..] else ages;
            j in rest <==> j in ages && Added(es, j) !in gone
  {
    if k < |list| {
      DropsTogether(es, ages, list, k, j);
    }
  }

  /** The last node that was put into the list and is still there. */
  ghost predicate Newest(es: seq<Event>, j: nat) {
    Tracked(es, j) && forall m :: m > j ==> !Tracked(es, m)
  }

  /** The head of the list is the newest node, and the list is empty when there is none. */
  lemma HeadIsNewest(es: seq<Event>, j: nat)
    ensures Newest(es, j) <==> Ages(es) != [] && Ages(es)[0] == j
    ensures Newest(es, j) ==> After(es).list != [] && After(es).list[0] == Added(es, j)
  {
    var ages := Ages(es);
    AgesAged(es);
    AgesTracked(es, j);
    if ages != [] && ages[0] == j {
      forall m | m > j ensures !Tracked(es, m) {
        AgesTracked(es, m);
      }
    }
    if Newest(es, j) {
      var k :| 0 <= k < |ages| && ages[k] == j;
      AgesTracked(es, ages[0]);
      assert ages[0] in ages && !(ages[0] > j);
    }
  }

  /** The event by which a thread last put its block into the list. */
  ghost predicate OwnAdd(es: seq<Event>, t: Thread, j: nat) {
    Adds(es, j) && es[j].t == t && forall m :: m > j && Adds(es, m) ==> es[m].t != t
  }

  lemma ListedStep(s: State, e: Event, t: Thread)
    requires At(Fire(s, e), t).Listed?
    ensures (e == ListAdd(t) && Enabled(s, e) && At(s, t).block == At(Fire(s, e), t).block)
            || ((e != ListAdd(t) || !Enabled(s, e)) && At(s, t) == At(Fire(s, e), t))
  {
  }

  lemma OwnAddEarlier(es: seq<Event>, t: Thread, j: nat)
    requires es != [] && OwnAdd(es[..|es| - 1], t, j) && !(Adds(es, |es| - 1) && es[|es| - 1].t == t)
    ensures OwnAdd(es, t, j) && Added(es, j) == Added(es[..|es| - 1], j)
  {
    EarlierSame(es, j);
    forall m | m > j && Adds(es, m) ensures es[m].t != t {
      if m < |es| - 1 {
        EarlierSame(es, m);
      }
    }
  }

  lemma {:induction false} ListedByOwnAdd(es: seq<Event>, t: Thread) returns (j: nat)
    requires At(After(es), t).Listed?
    ensures OwnAdd(es, t, j) && Added(es, j) == At(After(es), t).block
    decreases |es|
  {
    var n := |es| - 1;
    ListedStep(After(es[..n]), es[n], t);
    if es[n] == ListAdd(t) && Fired(es, n) {
      j := n;
    } else {
      j := ListedByOwnAdd(es[..n], t);
      OwnAddEarlier(es, t, j);
    }
  }

  lemma HeadKnown(es: seq<Event>)
    requires After(es).list != []
    ensures Newest(es, Ages(es)[0]) && After(es).list[0] == Added(es, Ages(es)[0])
  {
    HeadIsNewest(es, Ages(es)[0]);
  }

  lemma {:induction false} TrackedBefore(es: seq<Event>, j: nat, n: nat)
    requires Tracked(es, j) && j < n <= |es|
    ensures Tracked(es[..n], j) && Added(es[..n], j) == Added(es, j)
    decreases |es| - n
  {
    if n < |es| {
      TrackedBefore(es, j, n + 1);
      assert es[..n + 1][..n] == es[..n];
      TrackedNext(es[..n + 1], j);
      EarlierSame(es[..n + 1], j);
    } else {
      assert es[..n] == es;
    }
  }

  /** Of two tracked nodes neither has the other's address. */
  lemma TrackedApart(es: seq<Event>, j: nat, m: nat)
    requires Tracked(es, j) && Tracked(es, m) && j != m
    ensures Added(es, j).addr != Added(es, m).addr
  {
    InvAlways(es);
    AgesAged(es);
    AgesTracked(es, j);
    AgesTracked(es, m);
    var ages, list := Ages(es), After(es).list;
    var x :| 0 <= x < |ages| && ages[x] == j;
    var y :| 0 <= y < |ages| && ages[y] == m;
    assert list[x] in list && list[y] in list && list[x] != list[y];
    assert !Overlap(list[x], list[y]);
  }

  /** A node with the address of a later addition was unlinked before it. */
  lemma OlderGone(es: seq<Event>, j: nat, m: nat)
    requires Adds(es, j) && m < j && Adds(es, m) && Added(es, m).addr == Added(es, j).addr
    ensures !Tracked(es, m)
  {
    if Tracked(es, m) {
      TrackedBefore(es, m, j + 1);
      assert es[..j + 1][..j] == es[..j];
      assert Adds(es[..j + 1], j) && Added(es[..j + 1], j) == Added(es, j);
      TrackedNext(es[..j + 1], j);
      TrackedApart(es[..j + 1], j, m);
    }
  }

  lemma LookSees(es: seq<Event>, t: Thread)
    requires Enabled(After(es), Look(t))
    ensures At(After(es + [Look(t)]), t) == Looked(At(After(es), t).block, HeadAddress(After(es).list))
  {
    var more := es + [Look(t)];
    assert more[..|more| - 1] == es;
  }

  /** Over all interleavings: the node that `page_pr_allocate_at` looks at is the one it put into
      the list exactly when that node is still tracked and every later one has been unlinked again. */
  lemma LooksAtOwnIff(es: seq<Event>, j: nat)
    requires Adds(es, j)
    ensures Ages(es) != [] && Ages(es)[0] == j <==> Tracked(es, j) && forall m :: m > j ==> !Tracked(es, m)
  {
    HeadIsNewest(es, j);
  }

  /** And the address it reports is its own exactly when the newest tracked node has that address:
      its own node, or, its own being gone, one that was added later for the same pages. */
  lemma ReportsOwnIff(es: seq<Event>, t: Thread, j: nat)
    requires Enabled(After(es), Look(t)) && OwnAdd(es, t, j)
    ensures var l := At(After(es + [Look(t)]), t);
            && l.Looked? && l.block == Added(es, j)
            && (l.reported == l.block.addr <==>
                  (Newest(es, j) ||
                   exists m :: m > j && !Tracked(es, j) && Newest(es, m) && Added(es, m).addr == l.block.addr))
  {
    LookSees(es, t);
    var last := ListedByOwnAdd(es, t);
    assert j == last;
    var list, own := After(es).list, Added(es, j);
    InvAlways(es);
    OwnNotNull(es, j);
    if list != [] {
      HeadKnown(es);
      var head := Ages(es)[0];
      if head < j && Added(es, head).addr == own.addr {
        OlderGone(es, j, head);
      }
      if head > j && Tracked(es, j) {
        TrackedApart(es, j, head);
      }
    }
    forall m | Newest(es, m) ensures list != [] && list[0] == Added(es, m) {
      HeadIsNewest(es, m);
    }
  }

  lemma OwnNotNull(es: seq<Event>, j: nat)
    requires Adds(es, j)
    ensures Added(es, j).addr != 0
  {
    InvAlways(es[..j]);
    assert Holds(After(es[..j]).threads, es[j].t, Added(es, j));
  }

  lemma AfterMore(es: seq<Event>, e: Event)
    ensures After(es + [e]) == Fire(After(es), e)
  {
    assert (es + [e])[..|es|] == es;
  }

  lemma OneNoded(b: Block)
    requires b.addr != 0
    ensures var s := After([Grant(0, b), NodeMade(0)]);
            s.threads == map[0 := Noded(b)] && s.live == {b} && s.mutex.Free?
  {
    AfterMore([], Grant(0, b));
    AfterMore([Grant(0, b)], NodeMade(0));
    assert [] + [Grant(0, b)] == [Grant(0, b)] && [Grant(0, b)] + [NodeMade(0)] == [Grant(0, b), NodeMade(0)];
  }

  lemma TwoNoded(b: Block, c: Block)
    requires b.addr != 0 && c.addr != 0 && !Overlap(c, b)
    ensures var s := After([Grant(0, b), NodeMade(0)] + [Grant(1, c)] + [NodeMade(1)]);
            s.threads == map[0 := Noded(b), 1 := Noded(c)] && s.mutex.Free?
  {
    var one := [Grant(0, b), NodeMade(0)];
    OneNoded(b);
    AfterMore(one, Grant(1, c));
    AfterMore(one + [Grant(1, c)], NodeMade(1));
  }

  /** It can be another caller's: here the second of two threads adds its node before the first one looks. */
  lemma LastAddressMayBeAnothers(b: Block, c: Block)
    requires b.addr != 0 && c.addr != 0 && !Overlap(c, b)
    ensures var es := [Grant(0, b), NodeMade(0), Grant(1, c), NodeMade(1), ListAdd(0), ListAdd(1), Look(0)];
            At(After(es), 0) == Looked(b, c.addr) && c.addr != b.addr
  {
    var es := [Grant(0, b), NodeMade(0)] + [Grant(1, c)] + [NodeMade(1)];
    TwoNoded(b, c);
    AfterMore(es, ListAdd(0));
    AfterMore(es + [ListAdd(0)], ListAdd(1));
    AfterMore(es + [ListAdd(0)] + [ListAdd(1)], Look(0));
    assert es + [ListAdd(0)] + [ListAdd(1)] + [Look(0)]
           == [Grant(0, b), NodeMade(0), Grant(1, c), NodeMade(1), ListAdd(0), ListAdd(1), Look(0)];
  }

  /** The steps of `page_pr_cleanup` over a list of `n` nodes. */
  ghost function SweepSteps(t: Thread, n: nat): seq<Event> {
    if n == 0 then [SweepStart(t)] else SweepSteps(t, n - 1) + [SweepNext(t), Release(t)]
  }

  ghost function Run(s: State, es: seq<Event>): State
    decreases |es|
  {
    if es == [] then s else Fire(Run(s, es[..|es| - 1]), es[|es| - 1])
  }

  /** The steps can be taken one after the other. */
  ghost predicate Runs(s: State, es: seq<Event>)
    decreases |es|
  {
    es == [] || (Runs(s, es[..|es| - 1]) && Enabled(Run(s, es[..|es| - 1]), es[|es| - 1]))
  }

  lemma RunMore(s: State, es: seq<Event>, e: Event)
    requires Runs(s, es) && Enabled(Run(s, es), e)
    ensures Runs(s, es + [e]) && Run(s, es + [e]) == Step(Run(s, es), e)
  {
    assert (es + [e])[..|es|] == es;
  }

  /** Where a cleanup is after `n` nodes. */
  ghost predicate Swept(s: State, t: Thread, n: nat, now: State) {
    Runs(s, SweepSteps(t, n)) && now == Run(s, SweepSteps(t, n)) && At(now, t).Sweeping?
  }

  lemma SweepBegins(s: State, t: Thread) returns (now: State)
    requires Enabled(s, SweepStart(t))
    ensures Swept(s, t, 0, now) && now.list == s.list
  {
    RunMore(s, [], SweepStart(t));
    assert [] + [SweepStart(t)] == SweepSteps(t, 0);
    now := Step(s, SweepStart(t));
  }

  lemma SweepMore(s: State, t: Thread, n: nat, was: State) returns (now: State)
    requires Swept(s, t, n, was) && was.list != []
    ensures Swept(s, t, n + 1, now) && now.list == was.list[1..]
  {
    var steps := SweepSteps(t, n);
    RunMore(s, steps, SweepNext(t));
    RunMore(s, steps + [SweepNext(t)], Release(t));
    assert SweepSteps(t, n + 1) == steps + [SweepNext(t)] + [Release(t)];
    now := Step(Step(was, SweepNext(t)), Release(t));
  }

  lemma SweepEnds(s: State, t: Thread, n: nat, was: State) returns (now: State)
    requires Swept(s, t, n, was) && was.list == []
    ensures Cleaned(s, t, n, now) && now.list == []
  {
    RunMore(s, SweepSteps(t, n), SweepEnd(t));
    now := Step(was, SweepEnd(t));
  }

  /** The state after a whole cleanup of `n` nodes, every step of which could be taken. */
  ghost predicate Cleaned(s: State, t: Thread, n: nat, now: State) {
    var steps := SweepSteps(t, n) + [SweepEnd(t)];
    Runs(s, steps) && now == Run(s, steps)
  }

  /** The tracker's own variable, in the midst of the kernel's state, and its functions' critical
      sections, each of which is the step of the model. */
  class Tracker {
    var pagesList: seq<Block>
    ghost var kernel: State

    ghost predicate Valid()
      reads this
    {
      kernel.list == pagesList
    }

    constructor ()
      ensures Valid() && kernel == START
    {
      pagesList, kernel := [], START;
    }

    /** `list_add` under the mutex. */
    method Add(ghost t: Thread, block: Block)
      requires Valid() && Enabled(kernel, ListAdd(t)) && At(kernel, t) == Noded(block)
      modifies this
      ensures Valid() && kernel == Step(old(kernel), ListAdd(t))
    {
      pagesList := [block] + pagesList;
      kernel := Step(kernel, ListAdd(t));
    }

    /** `__page_aladdr`, as `page_pr_allocate_at` calls it; 0 stands for a null pointer. */
    method LastAddress(ghost t: Thread) returns (addr: nat)
      requires Valid() && Enabled(kernel, Look(t))
      modifies `kernel
      ensures Valid() && kernel == Step(old(kernel), Look(t)) && At(kernel, t) == Looked(At(old(kernel), t).block, addr)
    {
      addr := 0;
      if pagesList != [] {
        addr := pagesList[0].addr;
      }
      kernel := Step(kernel, Look(t));
    }

    /** The traversal of `page_pr_free`: unlink the first node with the address, if there is one. */
    method Find(ghost t: Thread, addr: nat) returns (found: bool, block: Block)
      requires Valid() && Enabled(kernel, Unlink(t, addr))
      modifies this
      ensures Valid() && kernel == Step(old(kernel), Unlink(t, addr))
      ensures found <==> exists b :: b in old(pagesList) && b.addr == addr
      ensures found ==> block in old(pagesList) && block.addr == addr && At(kernel, t) == Unlinked(block)
      ensures !found ==> pagesList == old(pagesList)
    {
      found, block := false, Block(0, 0);
      ghost var before := pagesList;
      var k := 0;
      while k < |pagesList|
        invariant 0 <= k <= |pagesList| && pagesList == before && kernel == old(kernel) && !found
        invariant forall j :: 0 <= j < k ==> pagesList[j].addr != addr
      {
        if pagesList[k].addr == addr {
          found, block := true, pagesList[k];
          pagesList := pagesList[..k] + pagesList[k + 1..];
          assert IndexOf(before, addr) == k && before[k] in before;
          break;
        }
        k := k + 1;
      }
      kernel := Step(kernel, Unlink(t, addr));
    }

    /** The loop of `page_pr_cleanup`: every node is unlinked and its block released, in list order. */
    method Cleanup(ghost t: Thread) returns (freed: seq<Block>)
      requires Valid() && Enabled(kernel, SweepStart(t))
      modifies this
      ensures Valid() && pagesList == [] && freed == old(pagesList)
      ensures Cleaned(old(kernel), t, |freed|, kernel)
    {
      freed := [];
      ghost var first := kernel;
      kernel := SweepBegins(first, t);
      while pagesList != []
        invariant Valid() && freed + pagesList == first.list && Swept(first, t, |freed|, kernel)
        decreases |pagesList|
      {
        kernel := SweepMore(first, t, |freed|, kernel);
        freed, pagesList := freed + [pagesList[0]], pagesList[1..];
      }
      kernel := SweepEnds(first, t, |freed|, kernel);
    }
  }

  /** `page_pr_free` finds its node exactly when the address is tracked, and then the node is the only one. */
  lemma FreeFindsIff(es: seq<Event>, addr: nat)
    ensures var s := After(es);
            && (IndexOf(s.list, addr) < |s.list| <==> exists b :: b in s.list && b.addr == addr)
            && forall b, c :: b in s.list && c in s.list && b.addr == addr == c.addr ==> b == c
  {
    InvAlways(es);
    var s := After(es);
    forall b, c | b in s.list && c in s.list && b.addr == addr == c.addr ensures b == c {
      assert Overlap(b, c);
    }
    if IndexOf(s.list, addr) < |s.list| {
      assert s.list[IndexOf(s.list, addr)] in s.list;
    }
  }
}
