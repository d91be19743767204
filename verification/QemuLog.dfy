/** Streaming the serial console of one QEMU session: a reader thread, a flusher thread and
    dashboard clients that join and leave, interleaved at the granularity of the locks. */
module QemuLog {

  const KEEP := 100000
  const LIMIT := 200000

  /** Where `qemu_reader` is: about to ask whether the guest runs, past that and about to read, holding a
      character it has not logged, holding one it has logged but not batched. */
  datatype Reader = Polling | Reading | Holding(c: char) | Logged(c: char) | ReaderDone

  /** Where the flusher is: about to flush, past the batch lock, walking its copy of the client
      list, or ended.  `last` says that it has found the guest gone, so that this flush is its last. */
  datatype Flusher =
    | Flushing(last: bool)
    | Taken(chunk: string, last: bool)
    | Sending(chunk: string, rest: seq<nat>, last: bool)
    | FlusherDone

  datatype Snapshot = NotYet | Shown(text: string, upTo: nat)

  /** What a client has been given: chunks starting at stream position `start`, and its initial log. */
  datatype View = View(start: int, got: string, snapshot: Snapshot)

  /** The shared variables, whether the guest runs, the two threads, the clients, and two history variables:
      every character read and every character taken out of the batch. */
  datatype State = State(
    stream: string, taken: string,
    log: string, batch: string,
    alive: bool, reader: Reader, flusher: Flusher,
    clients: seq<nat>, views: map<nat, View>, nextId: nat)

  const START := State("", "", "", "", true, Polling, Flushing(false), [], map[], 0)

  datatype Event =
    | GuestExits | PollReader | Read(c: char) | EndOfOutput | AppendLog | AppendBatch
    | FindGuestGone | TakeBatch | CopyClients | PutNext | FinishFlush
    | Join | TakeSnapshot(id: nat) | Leave(id: nat)

  predicate Enabled(s: State, e: Event) {
    match e
    case Read(_) => s.reader.Reading?
    case AppendLog => s.reader.Holding?
    case AppendBatch => s.reader.Logged?
    case GuestExits => s.alive
    case PollReader => s.reader.Polling?
    case EndOfOutput => s.reader.Reading?
    case FindGuestGone => s.flusher == Flushing(false) && !s.alive
    case TakeBatch => s.flusher.Flushing?
    case CopyClients => s.flusher.Taken?
    case PutNext => s.flusher.Sending? && s.flusher.rest != []
    case FinishFlush => s.flusher.Sending? && s.flusher.rest == []
    case Join => true
    case TakeSnapshot(id) => id in s.views && s.views[id].snapshot.NotYet?
    case Leave(id) => id in s.views
  }

  function Suffix(s: string, n: nat): string {
    if |s| <= n then s else s[|s| - n..]
  }

  /** The rolling buffer after one more character. */
  function Roll(log: string, c: char): string {
    if |log + [c]| > LIMIT then Suffix(log + [c], KEEP) else log + [c]
  }

  /** The part of the stream that has reached the rolling buffer. */
  function LoggedStream(s: State): string {
    if s.reader.Holding? && s.stream != "" then s.stream[..|s.stream| - 1] else s.stream
  }

  function Hand(s: State): string {
    if s.reader.Holding? || s.reader.Logged? then [s.reader.c] else ""
  }

  function InFlight(s: State): string {
    if s.flusher.Taken? || s.flusher.Sending? then s.flusher.chunk else ""
  }

  /** The stream position the chunks put so far reach for client `id`. */
  function Served(s: State, id: nat): int {
    if s.flusher.Taken? || (s.flusher.Sending? && id in s.flusher.rest) then |s.taken| - |s.flusher.chunk|
    else |s.taken|
  }

  /** What follows a flush: another one, or the end. */
  function Flushed(last: bool): Flusher {
    if last then FlusherDone else Flushing(false)
  }

  function Step(s: State, e: Event): State
    requires Enabled(s, e)
  {
    match e
    case Read(c) => s.(stream := s.stream + [c], reader := Holding(c))
    case AppendLog => s.(log := Roll(s.log, s.reader.c), reader := Logged(s.reader.c))
    case AppendBatch => s.(batch := s.batch + [s.reader.c], reader := Polling)
    case GuestExits => s.(alive := false)
    case PollReader => s.(reader := if s.alive then Reading else ReaderDone)
    case EndOfOutput => s.(reader := ReaderDone)
    case FindGuestGone => s.(flusher := Flushing(true))
    case TakeBatch =>
      if s.batch == "" then s.(flusher := Flushed(s.flusher.last))
      else s.(flusher := Taken(s.batch, s.flusher.last), taken := s.taken + s.batch, batch := "")
    case CopyClients => s.(flusher := Sending(s.flusher.chunk, s.clients, s.flusher.last))
    case PutNext =>
      var id := s.flusher.rest[0];
      s.(flusher := Sending(s.flusher.chunk, s.flusher.rest[1..], s.flusher.last),
         views := if id !in s.views then s.views
                  else s.views[id := s.views[id].(got := s.views[id].got + s.flusher.chunk)])
    case FinishFlush => s.(flusher := Flushed(s.flusher.last))
    case Join =>
      s.(clients := s.clients + [s.nextId], nextId := s.nextId + 1,
         views := s.views[s.nextId := View(Served(s, s.nextId), "", NotYet)])
    case TakeSnapshot(id) => s.(views := s.views[id := s.views[id].(snapshot := Shown(s.log, |LoggedStream(s)|))])
    case Leave(id) => s.(clients := Without(s.clients, id), views := s.views - {id})
  }

  /** A step that is not enabled is not taken. */
  function Fire(s: State, e: Event): State {
    if Enabled(s, e) then Step(s, e) else s
  }

  /** The state after an interleaving. */
  function After(es: seq<Event>): State {
    if es == [] then START else Fire(After(es[..|es| - 1]), es[|es| - 1])
  }

  function Without(ids: seq<nat>, id: nat): (r: seq<nat>)
    ensures forall x :: x in r <==> x in ids && x != id
  {
    if ids == [] then [] else (if ids[0] == id then [] else [ids[0]]) + Without(ids[1..], id)
  }

  ghost predicate Distinct(ids: seq<nat>) {
    forall j, k :: 0 <= j < k < |ids| ==> ids[j] != ids[k]
  }

  lemma {:induction false} WithoutDistinct(ids: seq<nat>, id: nat)
    requires Distinct(ids)
    ensures Distinct(Without(ids, id))
    decreases |ids|
  {
    if ids != [] {
      WithoutDistinct(ids[1..], id);
      assert ids[0] !in ids[1..];
    }
  }

  ghost predicate IsSuffix(t: string, s: string) {
    |t| <= |s| && t == s[|s| - |t|..]
  }

  /** How long the rolling buffer is after `n` characters: it grows to the limit, and one character later is cut. */
  function WindowLength(n: nat): nat {
    if n <= 200000 then n else 100000 + (n - 200001) % 100001
  }

  /** A window on what has been logged: a suffix, as long as it has to be. */
  ghost predicate Window(log: string, logged: string) {
    IsSuffix(log, logged) && |log| == WindowLength(|logged|)
  }

  lemma RollKeepsWindow(log: string, logged: string, c: char)
    requires Window(log, logged)
    ensures Window(Roll(log, c), logged + [c])
  {
    var longer, start := logged + [c], |logged| - |log|;
    assert longer[start..] == log + [c];
    if |log + [c]| > LIMIT {
      assert Suffix(log + [c], KEEP) == longer[|longer| - KEEP..];
    }
  }

  // The invariant, in five parts

  ghost predicate Conserved(s: State) {
    s.taken + s.batch + Hand(s) == s.stream && IsSuffix(InFlight(s), s.taken)
  }

  ghost predicate Rolling(s: State) {
    Window(s.log, LoggedStream(s))
  }

  ghost predicate Roster(s: State) {
    && Distinct(s.clients) && (forall id :: id in s.clients <==> id in s.views)
    && (forall id :: id in s.views ==> id < s.nextId)
    && (s.flusher.Sending? ==> Distinct(s.flusher.rest) && forall id :: id in s.flusher.rest ==> id < s.nextId)
  }

  /** The chunks a client got are contiguous from its start to where the flusher is for it. */
  ghost predicate Contiguous(s: State, id: nat)
    requires id in s.views
  {
    0 <= s.views[id].start <= Served(s, id) && s.views[id].got == s.taken[s.views[id].start..Served(s, id)]
  }

  /** The initial log ends no earlier than the chunks start. */
  ghost predicate Overlaps(v: View, logged: string) {
    match v.snapshot
    case NotYet => v.start <= |logged|
    case Shown(text, upTo) => v.start <= upTo <= |logged| && Window(text, logged[..upTo])
  }

  ghost predicate Overlapping(s: State, id: nat)
    requires id in s.views
  {
    Overlaps(s.views[id], LoggedStream(s))
  }

  ghost predicate Inv(s: State) {
    && Conserved(s) && Rolling(s) && Roster(s)
    && (forall id :: id in s.views ==> Contiguous(s, id) && Overlapping(s, id))
  }

  lemma ConservedKept(s: State, e: Event)
    requires Conserved(s) && Enabled(s, e)
    ensures Conserved(Step(s, e))
  {
    var t := Step(s, e);
    match e
    case Read(c) => assert s.taken + s.batch + [c] == s.stream + [c];
    case AppendBatch => assert s.taken + (s.batch + [s.reader.c]) + "" == s.taken + s.batch + [s.reader.c];
    case TakeBatch => assert t.taken + t.batch + Hand(t) == s.taken + s.batch + Hand(s);
    case _ =>
  }

  lemma LoggedGrows(s: State, e: Event)
    requires Conserved(s) && Enabled(s, e)
    ensures LoggedStream(Step(s, e)) == if e.AppendLog? then LoggedStream(s) + [s.reader.c] else LoggedStream(s)
    ensures |s.taken| <= |LoggedStream(s)|
  {
    if e.AppendLog? {
      assert s.stream[|s.stream| - 1] == s.reader.c;
    }
  }

  lemma RollingKept(s: State, e: Event)
    requires Conserved(s) && Rolling(s) && Enabled(s, e)
    ensures Rolling(Step(s, e))
  {
    LoggedGrows(s, e);
    if e.AppendLog? {
      RollKeepsWindow(s.log, LoggedStream(s), s.reader.c);
    }
  }

  lemma RosterKept(s: State, e: Event)
    requires Roster(s) && Enabled(s, e)
    ensures Roster(Step(s, e))
  {
    match e
    case PutNext =>
      var rest := s.flusher.rest;
      assert forall id :: id in rest[1..] ==> id in rest;
    case Leave(id) => WithoutDistinct(s.clients, id);
    case Join => assert s.nextId !in s.clients;
    case _ =>
  }

  lemma PutKeepsContiguous(s: State, id: nat)
    requires Conserved(s) && Roster(s) && Enabled(s, PutNext) && id in s.views && Contiguous(s, id)
    ensures Contiguous(Step(s, PutNext), id)
  {
    var rest, v := s.flusher.rest, s.views[id];
    if id == rest[0] {
      assert id !in rest[1..];
      assert s.taken[v.start..] == s.taken[v.start..Served(s, id)] + s.flusher.chunk;
    } else {
      assert id in rest <==> id in rest[1..];
    }
  }

  lemma TakeKeepsContiguous(s: State, id: nat)
    requires Enabled(s, TakeBatch) && id in s.views && Contiguous(s, id)
    ensures Contiguous(Step(s, TakeBatch), id)
  {
    assert s.batch != "" ==> Step(s, TakeBatch).taken[..|s.taken|] == s.taken;
  }

  /** Where the flusher is for a client changes only when it takes the batch or serves the client. */
  lemma ServedKept(s: State, e: Event, id: nat)
    requires Enabled(s, e) && !e.TakeBatch? && !e.PutNext?
    requires Roster(s) && id in s.views && id in Step(s, e).views
    ensures Step(s, e).taken == s.taken && Served(Step(s, e), id) == Served(s, id)
  {
  }

  lemma HistoryKept(s: State, e: Event, id: nat)
    requires Enabled(s, e) && !e.TakeBatch? && !e.PutNext?
    requires Roster(s) && id in s.views && id in Step(s, e).views
    ensures Step(s, e).views[id].(snapshot := NotYet) == s.views[id].(snapshot := NotYet)
  {
  }

  lemma JoinsContiguous(s: State)
    requires Conserved(s) && Roster(s)
    ensures Contiguous(Step(s, Join), s.nextId)
  {
  }

  lemma ContiguousKept(s: State, e: Event, id: nat)
    requires Conserved(s) && Roster(s) && Enabled(s, e) && id in Step(s, e).views
    requires id in s.views ==> Contiguous(s, id)
    ensures Contiguous(Step(s, e), id)
  {
    if e.TakeBatch? {
      TakeKeepsContiguous(s, id);
    } else if e.PutNext? {
      PutKeepsContiguous(s, id);
    } else if id in s.views {
      ServedKept(s, e, id);
      HistoryKept(s, e, id);
    } else {
      NewClient(s, e, id);
      JoinsContiguous(s);
    }
  }

  lemma NewClient(s: State, e: Event, id: nat)
    requires Enabled(s, e) && id in Step(s, e).views && id !in s.views
    ensures e == Join && id == s.nextId
  {
  }

  lemma PrefixStays(logged: string, more: string, n: nat)
    requires n <= |logged|
    ensures (logged + more)[..n] == logged[..n]
  {
  }

  /** What a step leaves of a client that was there: its start, and its initial log unless it takes it now. */
  lemma ViewKept(s: State, e: Event, id: nat)
    requires Enabled(s, e) && id in s.views && id in Step(s, e).views && e != TakeSnapshot(id) && id != s.nextId
    ensures Step(s, e).views[id].(got := s.views[id].got) == s.views[id]
  {
  }

  lemma OverlappingKept(s: State, e: Event, id: nat)
    requires Conserved(s) && Rolling(s) && Roster(s) && Enabled(s, e) && id in Step(s, e).views
    requires id in s.views ==> Overlapping(s, id)
    ensures Overlapping(Step(s, e), id)
  {
    LoggedGrows(s, e);
    if e == TakeSnapshot(id) {
      assert LoggedStream(s)[..|LoggedStream(s)|] == LoggedStream(s);
    } else if id in s.views {
      ViewKept(s, e, id);
      if s.views[id].snapshot.Shown? && e.AppendLog? {
        PrefixStays(LoggedStream(s), [s.reader.c], s.views[id].snapshot.upTo);
      }
    }
  }

  /** Every step of every thread and client keeps the invariant. */
  lemma StepKeeps(s: State, e: Event)
    requires Inv(s) && Enabled(s, e)
    ensures Inv(Step(s, e))
  {
    ConservedKept(s, e);
    RollingKept(s, e);
    RosterKept(s, e);
    forall id | id in Step(s, e).views ensures Contiguous(Step(s, e), id) && Overlapping(Step(s, e), id) {
      ContiguousKept(s, e, id);
      OverlappingKept(s, e, id);
    }
  }

  lemma {:induction false} InvAlways(es: seq<Event>)
    ensures Inv(After(es))
    decreases |es|
  {
    if es != [] {
      InvAlways(es[..|es| - 1]);
      if Enabled(After(es[..|es| - 1]), es[|es| - 1]) {
        StepKeeps(After(es[..|es| - 1]), es[|es| - 1]);
      }
    }
  }

  /** Conservation: what has been sent, the chunk in flight, the batch and the character in
      hand spell exactly the characters read, at every moment of every interleaving. */
  lemma StreamConserved(es: seq<Event>)
    ensures var s := After(es);
            |InFlight(s)| <= |s.taken|
            && var sent := s.taken[..|s.taken| - |InFlight(s)|];
               sent + InFlight(s) + s.batch + Hand(s) == s.stream
  {
    InvAlways(es);
    var s := After(es);
    assert s.taken[..|s.taken| - |InFlight(s)|] + InFlight(s) == s.taken;
  }

  /** The rolling buffer is the end of what has been logged, all of it up to 200000 characters; beyond that
      it has been cut to 100000 whenever it would have been longer, and so has between 100000 and 200000. */
  lemma RollingWindow(es: seq<Event>, s: State, logged: string, n: nat)
    requires s == After(es) && logged == LoggedStream(s)
    requires n == if |logged| <= 200000 then |logged| else 100000 + (|logged| - 200001) % 100001
    ensures logged + (if s.reader.Holding? then [s.reader.c] else "") == s.stream
    ensures n <= |logged| && s.log == logged[|logged| - n..]
    ensures |logged| > 200000 ==> 100000 <= n <= 200000
  {
    InvAlways(es);
  }

  /** The first stream position after the texts a client was given. */
  function Seen(v: View): int
    requires v.snapshot.Shown?
  {
    if v.start + |v.got| > v.snapshot.upTo then v.start + |v.got| else v.snapshot.upTo
  }

  /** What a client shows: its initial log, then the part of its chunks that goes beyond it. */
  function Transcript(v: View): string
    requires v.snapshot.Shown?
  {
    v.snapshot.text + if v.start <= v.snapshot.upTo < v.start + |v.got| then v.got[v.snapshot.upTo - v.start..] else ""
  }

  lemma Splice(stream: string, v: View)
    requires v.snapshot.Shown? && 0 <= v.start <= v.snapshot.upTo <= |stream| && v.start + |v.got| <= |stream|
    requires v.got == stream[v.start..v.start + |v.got|]
    requires IsSuffix(v.snapshot.text, stream[..v.snapshot.upTo])
    ensures Transcript(v) == stream[v.snapshot.upTo - |v.snapshot.text|..Seen(v)]
  {
    var upTo, text := v.snapshot.upTo, v.snapshot.text;
    assert text == stream[upTo - |text|..upTo];
    if upTo < v.start + |v.got| {
      assert v.got[upTo - v.start..] == stream[upTo..v.start + |v.got|];
      assert text + stream[upTo..Seen(v)] == stream[upTo - |text|..Seen(v)];
    }
  }

  lemma Stretches(stream: string, taken: string, logged: string, start: nat, served: nat, upTo: nat)
    requires taken <= stream && logged <= stream && start <= served <= |taken| && start <= upTo <= |logged|
    ensures taken[start..served] == stream[start..served] && stream[..upTo] == logged[..upTo]
  {
  }

  lemma LoggedIsPrefix(s: State)
    requires Conserved(s)
    ensures s.taken <= s.stream && LoggedStream(s) <= s.stream
  {
  }

  lemma ViewOnStream(s: State, id: nat)
    requires Conserved(s) && id in s.views && Contiguous(s, id) && Overlapping(s, id) && s.views[id].snapshot.Shown?
    ensures var v := s.views[id];
            && 0 <= v.start <= v.snapshot.upTo <= |s.stream|
            && |s.taken| - |InFlight(s)| <= v.start + |v.got| <= |s.stream|
            && v.got == s.stream[v.start..v.start + |v.got|]
            && s.stream[..v.snapshot.upTo] == LoggedStream(s)[..v.snapshot.upTo]
  {
    LoggedIsPrefix(s);
    var v := s.views[id];
    Stretches(s.stream, s.taken, LoggedStream(s), v.start, Served(s, id), v.snapshot.upTo);
  }

  /** Late join: whenever a client registered, its initial log and its chunks together are one
      gap-free stretch of the stream, which reaches at least to the last chunk handed out. */
  lemma LateJoinHasNoGap(es: seq<Event>, id: nat)
    requires id in After(es).views && After(es).views[id].snapshot.Shown?
    ensures var s, v := After(es), After(es).views[id];
            && 0 <= v.start <= v.snapshot.upTo <= |s.stream| && Window(v.snapshot.text, s.stream[..v.snapshot.upTo])
            && |s.taken| - |InFlight(s)| <= v.start + |v.got| <= Seen(v) <= |s.stream|
            && 0 <= v.snapshot.upTo - |v.snapshot.text|
            && Transcript(v) == s.stream[v.snapshot.upTo - |v.snapshot.text|..Seen(v)]
  {
    InvAlways(es);
    var s := After(es);
    assert Contiguous(s, id) && Overlapping(s, id);
    ViewOnStream(s, id);
    Splice(s.stream, s.views[id]);
  }

  // The end of the stream

  /** Event `k` of the interleaving was enabled when its turn came. */
  ghost predicate Fired(es: seq<Event>, k: nat)
    requires k < |es|
  {
    Enabled(After(es[..k]), es[k])
  }

  /** When characters were put into the batch. */
  ghost function Appends(es: seq<Event>): set<nat> {
    set k: nat | k < |es| && es[k].AppendBatch? && Fired(es, k)
  }

  /** When the flusher took the batch, empty or not. */
  ghost function Takes(es: seq<Event>): set<nat> {
    set k: nat | k < |es| && es[k].TakeBatch? && Fired(es, k)
  }

  /** A character was put into the batch after the flusher last took it. */
  ghost predicate Late(appends: set<nat>, takes: set<nat>) {
    exists k <- appends :: forall j <- takes :: j < k
  }

  lemma MarksGrow(es: seq<Event>)
    requires es != []
    ensures var n := |es| - 1;
            && Appends(es) == Appends(es[..n]) + (if es[n].AppendBatch? && Fired(es, n) then {n} else {})
            && Takes(es) == Takes(es[..n]) + (if es[n].TakeBatch? && Fired(es, n) then {n} else {})
  {
    var front := es[..|es| - 1];
    forall k: nat | k < |front| ensures Fired(front, k) == Fired(es, k) && front[k] == es[k] {
      assert front[..k] == es[..k];
    }
  }

  lemma LateGrows(appends: set<nat>, takes: set<nat>, n: nat)
    requires (forall k <- appends :: k < n) && (forall k <- takes :: k < n)
    ensures !Late(appends, takes + {n}) && Late(appends + {n}, takes)
  {
    assert n in takes + {n} && n in appends + {n};
  }

  lemma BatchStep(s: State, e: Event)
    ensures var n := Fire(s, e);
            n.batch == "" <==> if Enabled(s, e) && e.AppendBatch? then false
                               else if Enabled(s, e) && e.TakeBatch? then true else s.batch == ""
  {
  }

  lemma {:induction false} BatchIffLate(es: seq<Event>)
    ensures After(es).batch != "" <==> Late(Appends(es), Takes(es))
    decreases |es|
  {
    if es != [] {
      var n := |es| - 1;
      BatchIffLate(es[..n]);
      BatchStep(After(es[..n]), es[n]);
      MarksGrow(es);
      LateGrows(Appends(es[..n]), Takes(es[..n]), n);
    }
  }

  lemma ClientTail(s: State, id: nat)
    requires Conserved(s) && id in s.views && Contiguous(s, id) && s.reader.ReaderDone? && s.flusher.FlusherDone?
    ensures 0 <= s.views[id].start <= |s.taken| && s.views[id].got == s.taken[s.views[id].start..]
    ensures s.views[id].start <= |s.stream| && (s.views[id].got == s.stream[s.views[id].start..] <==> s.batch == "")
  {
    assert s.stream == s.taken + s.batch;
    assert s.stream[s.views[id].start..] == s.taken[s.views[id].start..] + s.batch;
  }

  /** The flusher has made its last flush. */
  predicate LastTaken(s: State) {
    s.flusher.FlusherDone? || ((s.flusher.Taken? || s.flusher.Sending?) && s.flusher.last)
  }

  /** Once the guest is known to be gone, the reader gets past its check no more: after the last flush it can put
      no more into the batch than what it was reading then. */
  ghost predicate Bounded(s: State) {
    && (s.flusher == Flushing(true) || LastTaken(s) ==> !s.alive)
    && (LastTaken(s) ==> |s.batch| <= if s.reader.Polling? || s.reader.ReaderDone? then 1 else 0)
  }

  lemma BoundedKept(s: State, e: Event)
    requires Bounded(s) && Enabled(s, e)
    ensures Bounded(Step(s, e))
  {
  }

  lemma {:induction false} AtMostOne(es: seq<Event>)
    ensures Bounded(After(es))
    decreases |es|
  {
    if es != [] {
      var front, e := es[..|es| - 1], es[|es| - 1];
      AtMostOne(front);
      if Enabled(After(front), e) {
        BoundedKept(After(front), e);
      }
    }
  }

  /** When both threads have ended: every character that was read has been sent, and a client
      that is still there was given the whole stream from its start on, exactly when no character was
      put into the batch after the flusher's last flush; otherwise that one character is what is left. */
  lemma TailDelivered(es: seq<Event>)
    requires After(es).reader.ReaderDone? && After(es).flusher.FlusherDone?
    ensures var s, late := After(es), Late(Appends(es), Takes(es));
            && s.taken <= s.stream && s.batch == s.stream[|s.taken|..]
            && (s.taken == s.stream <==> !late) && (s.batch == "" <==> !late) && |s.batch| <= 1
            && forall id :: id in s.views ==>
                 && 0 <= s.views[id].start <= |s.taken| && s.views[id].got == s.taken[s.views[id].start..]
                 && (s.views[id].got == s.stream[s.views[id].start..] <==> !late)
  {
    InvAlways(es);
    BatchIffLate(es);
    AtMostOne(es);
    var s := After(es);
    assert s.stream == s.taken + s.batch;
    forall id | id in s.views
      ensures 0 <= s.views[id].start <= |s.taken| && s.views[id].got == s.taken[s.views[id].start..]
      ensures s.views[id].start <= |s.stream| && (s.views[id].got == s.stream[s.views[id].start..] <==> s.batch == "")
    {
      assert Contiguous(s, id);
      ClientTail(s, id);
    }
  }

  /** It does happen: the last flush can come between the reader's last read and its last append. */
  lemma TailCanBeStranded(c: char)
    ensures var es := [PollReader, Read(c), GuestExits, FindGuestGone, TakeBatch, AppendLog, AppendBatch, PollReader];
            var s := After(es);
            s.reader.ReaderDone? && s.flusher.FlusherDone? && s.taken == "" && s.batch == [c]
  {
    var first := [PollReader, Read(c), GuestExits, FindGuestGone];
    var last := [TakeBatch, AppendLog, AppendBatch, PollReader];
    FourEvents([], PollReader, Read(c), GuestExits, FindGuestGone);
    FourEvents(first, TakeBatch, AppendLog, AppendBatch, PollReader);
    assert [] + first == first;
    assert After(first) == State([c], "", "", "", false, Holding(c), Flushing(true), [], map[], 0);
    assert first + last
           == [PollReader, Read(c), GuestExits, FindGuestGone, TakeBatch, AppendLog, AppendBatch, PollReader];
  }

  lemma FourEvents(es: seq<Event>, a: Event, b: Event, c: Event, d: Event)
    ensures After(es + [a, b, c, d]) == Fire(Fire(Fire(Fire(After(es), a), b), c), d)
  {
    assert (es + [a, b, c, d])[..|es| + 3] == es + [a, b, c] && (es + [a, b, c])[..|es| + 2] == es + [a, b];
    assert (es + [a, b])[..|es| + 1] == es + [a] && (es + [a])[..|es|] == es;
    assert After(es + [a]) == Fire(After(es), a);
    assert After(es + [a, b]) == Fire(After(es + [a]), b);
    assert After(es + [a, b, c]) == Fire(After(es + [a, b]), c);
  }

  /** The queues after each listed client was given the chunk once. */
  function Delivered(queues: map<nat, string>, ids: seq<nat>, chunk: string): (r: map<nat, string>)
    ensures r.Keys == queues.Keys
  {
    map id | id in queues :: if id in ids then queues[id] + chunk else queues[id]
  }

  lemma DeliverNext(queues: map<nat, string>, ids: seq<nat>, k: nat, chunk: string)
    requires Distinct(ids) && k < |ids|
    ensures Delivered(Delivered(queues, ids[..k], chunk), [ids[k]], chunk) == Delivered(queues, ids[..k + 1], chunk)
  {
    assert ids[k] !in ids[..k] && ids[..k + 1] == ids[..k] + [ids[k]];
  }

  /** The shared variables and what each thread does to them under or between its locks.
      `stream`, `taken` and `views` only record history; `queues` holds the text put for each client. */
  class Session {
    ghost var stream: string
    ghost var taken: string
    ghost var views: map<nat, View>
    var qemuLogBuffer: string
    var qemuBatchBuffer: string
    var alive: bool
    var reader: Reader
    var flusher: Flusher
    var clients: seq<nat>
    var queues: map<nat, string>
    var nextId: nat

    ghost function Now(): State
      reads this
    {
      State(stream, taken, qemuLogBuffer, qemuBatchBuffer, alive, reader, flusher, clients, views, nextId)
    }

    /** The queues hold what the history says. */
    ghost predicate Valid()
      reads this
    {
      queues.Keys == views.Keys && forall id :: id in queues ==> queues[id] == views[id].got
    }

    constructor ()
      ensures Valid() && Now() == START && Inv(Now())
    {
      stream, taken, views, qemuLogBuffer, qemuBatchBuffer := "", "", map[], "", "";
      alive, reader, flusher, clients, queues, nextId := true, Polling, Flushing(false), [], map[], 0;
    }

    /** `proc.poll()` in the reader's loop. */
    method Poll()
      requires Valid() && Enabled(Now(), PollReader)
      modifies this
      ensures Valid() && Now() == Step(old(Now()), PollReader)
    {
      reader := if alive then Reading else ReaderDone;
    }

    /** `proc.stdout.read(1)` returns a character. */
    method ReadChar(c: char)
      requires Valid() && Enabled(Now(), Read(c))
      modifies this
      ensures Valid() && Now() == Step(old(Now()), Read(c))
    {
      stream, reader := stream + [c], Holding(c);
    }

    /** The critical section under `qemu_lock`. */
    method AppendToLog()
      requires Valid() && Enabled(Now(), AppendLog)
      modifies this
      ensures Valid() && Now() == Step(old(Now()), AppendLog)
    {
      qemuLogBuffer := qemuLogBuffer + [reader.c];
      if |qemuLogBuffer| > LIMIT {
        qemuLogBuffer := qemuLogBuffer[|qemuLogBuffer| - KEEP..];
      }
      reader := Logged(reader.c);
    }

    /** The reader's critical section under `qemu_batch_lock`. */
    method AppendToBatch()
      requires Valid() && Enabled(Now(), AppendBatch)
      modifies this
      ensures Valid() && Now() == Step(old(Now()), AppendBatch)
    {
      qemuBatchBuffer := qemuBatchBuffer + [reader.c];
      reader := Polling;
    }

    /** `qemu_flusher` finds that the guest has ended: the next flush is its last. */
    method NoticeExit()
      requires Valid() && Enabled(Now(), FindGuestGone)
      modifies this
      ensures Valid() && Now() == Step(old(Now()), FindGuestGone)
    {
      flusher := Flushing(true);
    }

    /** The critical section of `flush_qemu_logs`. */
    method TakeTheBatch()
      requires Valid() && Enabled(Now(), TakeBatch)
      modifies this
      ensures Valid() && Now() == Step(old(Now()), TakeBatch)
    {
      if qemuBatchBuffer != "" {
        taken, flusher := taken + qemuBatchBuffer, Taken(qemuBatchBuffer, flusher.last);
        qemuBatchBuffer := "";
      } else {
        flusher := Flushed(flusher.last);
      }
    }

    /** One turn of its loop over the copied client list. */
    method PutChunk()
      requires Valid() && Enabled(Now(), PutNext)
      modifies this
      ensures Valid() && Now() == Step(old(Now()), PutNext)
      ensures flusher == Sending(old(flusher).chunk, old(flusher).rest[1..], old(flusher).last)
      ensures queues == Delivered(old(queues), [old(flusher).rest[0]], old(flusher).chunk)
    {
      var id := flusher.rest[0];
      if id in queues {
        queues := queues[id := queues[id] + flusher.chunk];
        views := views[id := views[id].(got := views[id].got + flusher.chunk)];
      }
      flusher := Sending(flusher.chunk, flusher.rest[1..], flusher.last);
    }

    /** The rest of `flush_qemu_logs` when no other thread gets in between: every client in
        the list when it was copied receives the chunk once, and nobody else does. */
    method SendToClients()
      requires Valid() && Distinct(clients) && flusher.Taken?
      modifies this
      ensures Valid() && flusher == Flushed(old(flusher).last)
      ensures queues == Delivered(old(queues), old(clients), old(flusher).chunk)
    {
      ghost var chunk, last, before, copied := flusher.chunk, flusher.last, queues, clients;
      ghost var sent := 0;
      flusher := Sending(flusher.chunk, clients, flusher.last);
      while flusher.rest != []
        invariant Valid() && 0 <= sent <= |copied| && flusher == Sending(chunk, copied[sent..], last)
        invariant queues == Delivered(before, copied[..sent], chunk)
        decreases |copied| - sent
      {
        DeliverNext(before, copied, sent, chunk);
        PutChunk();
        sent := sent + 1;
      }
      assert copied[..sent] == copied;
      flusher := Flushed(flusher.last);
    }

    /** A client connects to `/events`: first it is registered. */
    method Register() returns (id: nat)
      requires Valid()
      modifies this
      ensures Valid() && Now() == Step(old(Now()), Join) && id == old(nextId)
    {
      id := nextId;
      views := views[id := View(Served(Now(), id), "", NotYet)];
      clients, queues, nextId := clients + [id], queues[id := ""], nextId + 1;
    }

    /** It disconnects, possibly while the flusher still has it in its copy of the list. */
    method Unregister(id: nat)
      requires Valid() && Enabled(Now(), Leave(id))
      modifies this
      ensures Valid() && Now() == Step(old(Now()), Leave(id))
    {
      views := views - {id};
      clients, queues := Without(clients, id), queues - {id};
    }

    /** Then it is given the rolling buffer, read under `qemu_lock`. */
    method InitialLog(id: nat) returns (text: string)
      requires Valid() && Enabled(Now(), TakeSnapshot(id))
      modifies this
      ensures Valid() && Now() == Step(old(Now()), TakeSnapshot(id)) && text == qemuLogBuffer
    {
      text := qemuLogBuffer;
      views := views[id := views[id].(snapshot := Shown(text, |LoggedStream(Now())|))];
    }
  }
}
