/**
 Fork/join computations and the series-parallel order of their vertices.

 A task is named by the path of its forks (false = left, true = right) and by
 its dag depth.  The machine below keeps the whole history of executed
 vertices, so that "precedes" can be defined by reachability in the dag, with
 no mention of paths or depths.  The theorem `OrderedIsReachability` says that
 the test the runtime performs (two path comparisons and one read of a
 thread-local array) decides exactly that reachability.
 */
module ForkJoin {
  import opened Options

  type Path = seq<bool>

  const DEPTHS_LEN: nat := 32

  datatype TaskId = TaskId(path: Path, dag: nat)

  /** An executed vertex and the vertices its incoming edges start from. */
  datatype Vertex = Vertex(id: TaskId, preds: seq<nat>)

  /** A thread: its recorded id, its sync depths, the vertex it runs (or is
      about to run, while `settled` is false) and the vertex it started at. */
  datatype Worker = Worker(id: TaskId, sync: seq<nat>, vertex: nat, settled: bool, base: nat)

  /** `synch` is the slow specification of the thread-local arrays: the dag
      depth last recorded for each path.  `pending` maps the first vertex of
      each right-hand task not yet started to the thread that forked it, and
      `copies` those being stolen to what has been copied of that thread's array,
      entry by entry, in any order, while the thread runs on. */
  datatype State = State(
    hist: seq<Vertex>,
    synch: map<Path, nat>,
    threads: map<nat, Worker>,
    pending: map<nat, nat>,
    copies: map<nat, map<nat, nat>>)

  datatype Event =
    | Fork(t: nat)
    | BeginSteal(right: nat)
    | CopyEntry(right: nat, i: nat)
    | Steal(right: nat, thief: nat)
    | SetTid(t: nat)
    | Join(left: nat, right: nat)
    | FastJoin(left: nat, rightVertex: nat)

  // ----- the test -----

  function CommonPrefix(p: Path, q: Path): (n: nat)
    ensures n <= |p| && n <= |q|
    ensures p[..n] == q[..n]
    ensures n < |p| && n < |q| ==> p[n] != q[n]
  {
    if p == [] || q == [] || p[0] != q[0] then 0
    else
      var n := 1 + CommonPrefix(p[1..], q[1..]);
      assert p[..n] == [p[0]] + p[1..][..n - 1];
      assert q[..n] == [q[0]] + q[1..][..n - 1];
      n
  }

  /** What the runtime computes for allocator `u` and a thread at path `p`. */
  predicate IsOrdered(p: Path, sync: seq<nat>, u: TaskId)
    requires |p| < |sync|
  {
    || u.path == p
    || u.path == p[..CommonPrefix(u.path, p)]
    || u.dag <= sync[CommonPrefix(u.path, p)]
  }

  // ----- the order -----

  ghost predicate WfHist(h: seq<Vertex>) {
    forall v, i {:trigger h[v].preds[i]} :: 0 <= v < |h| && 0 <= i < |h[v].preds| ==> h[v].preds[i] < v
  }

  /** There is a path, possibly empty, from u to v in the dag. */
  ghost predicate Reaches(h: seq<Vertex>, u: nat, v: nat)
    requires WfHist(h) && v < |h|
    decreases v
  {
    u == v || exists i :: 0 <= i < |h[v].preds| && Reaches(h, u, h[v].preds[i])
  }

  // ----- the machine -----

  function Left(id: TaskId): TaskId { TaskId(id.path + [false], id.dag + 1) }

  function Right(id: TaskId): TaskId { TaskId(id.path + [true], id.dag + 1) }

  function Joined(l: TaskId, r: TaskId): TaskId
    requires |l.path| > 0
  {
    TaskId(l.path[..|l.path| - 1], (if l.dag < r.dag then r.dag else l.dag) + 1)
  }

  const ROOT := TaskId([], 0)

  function Init(t: nat): State {
    State([Vertex(ROOT, [])],
          map[[] := 0],
          map[t := Worker(ROOT, seq(DEPTHS_LEN, _ => 0), 0, true, 0)],
          map[],
          map[])
  }

  predicate Siblings(l: Path, r: Path) {
    |l| == |r| && |l| > 0 && l == r[..|r| - 1] + [false] && r[|r| - 1]
  }

  function ForkHist(h: seq<Vertex>, v: nat, l: TaskId, r: TaskId): seq<Vertex> {
    h + [Vertex(l, [v]), Vertex(r, [v])]
  }

  function DoFork(s: State, t: nat): Option<State> {
    if t in s.threads && s.threads[t].settled && s.threads[t].vertex < |s.hist|
       && |s.threads[t].id.path| < DEPTHS_LEN - 2
    then
      var w := s.threads[t];
      var n := |s.hist|;
      var l, r := Left(w.id), Right(w.id);
      Some(State(ForkHist(s.hist, w.vertex, l, r),
                 s.synch[l.path := l.dag][r.path := r.dag],
                 s.threads[t := w.(vertex := n, settled := false)],
                 s.pending[n + 1 := t],
                 s.copies))
    else None
  }

  function DoBeginSteal(s: State, right: nat): Option<State> {
    if right in s.pending && right !in s.copies then Some(s.(copies := s.copies[right := map[]])) else None
  }

  /** One entry, as it is at this moment. */
  function DoCopyEntry(s: State, right: nat, i: nat): Option<State> {
    if right in s.copies && right in s.pending && s.pending[right] in s.threads
       && i < DEPTHS_LEN && i < |s.threads[s.pending[right]].sync|
    then
      var c: map<nat, nat> := s.copies[right][i := s.threads[s.pending[right]].sync[i]];
      Some(s.(copies := s.copies[right := c]))
    else None
  }

  predicate AllCopied(c: map<nat, nat>) {
    forall i: nat :: i < DEPTHS_LEN ==> i in c
  }

  function Copied(c: map<nat, nat>): (sync: seq<nat>)
    requires AllCopied(c)
    ensures |sync| == DEPTHS_LEN && forall i :: 0 <= i < |sync| ==> sync[i] == c[i]
  {
    seq(DEPTHS_LEN, i requires 0 <= i < DEPTHS_LEN => c[i])
  }

  /** The stolen task's thread is there once all entries are. */
  function DoSteal(s: State, right: nat, thief: nat): Option<State> {
    if right in s.copies && right in s.pending && thief !in s.threads && AllCopied(s.copies[right]) then
      Some(s.(threads := s.threads[thief := Worker(ROOT, Copied(s.copies[right]), right, false, right)],
              pending := s.pending - {right}, copies := s.copies - {right}))
    else None
  }

  function SetTidOn(w: Worker, id: TaskId): Worker
    requires |id.path| < |w.sync|
  {
    w.(id := id, sync := w.sync[|id.path| := id.dag], settled := true)
  }

  function DoSetTid(s: State, t: nat): Option<State> {
    if t in s.threads && !s.threads[t].settled && s.threads[t].vertex < |s.hist|
       && |s.hist[s.threads[t].vertex].id.path| < |s.threads[t].sync|
    then
      var w := s.threads[t];
      Some(s.(threads := s.threads[t := SetTidOn(w, s.hist[w.vertex].id)]))
    else None
  }

  function JoinHist(h: seq<Vertex>, a: nat, b: nat, j: TaskId): seq<Vertex> {
    h + [Vertex(j, [a, b])]
  }

  /** The left thread goes on as the joined task. */
  function AfterJoin(s: State, left: nat, rv: nat, r: TaskId): Option<State>
    requires left in s.threads
  {
    var w := s.threads[left];
    if Siblings(w.id.path, r.path) && |w.id.path| <= |w.sync| then
      var j := Joined(w.id, r);
      Some(JoinedState(s, left, rv, j))
    else None
  }

  function JoinedState(s: State, left: nat, rv: nat, j: TaskId): State
    requires left in s.threads && |j.path| < |s.threads[left].sync|
  {
    var w := s.threads[left];
    s.(hist := JoinHist(s.hist, w.vertex, rv, j),
       synch := s.synch[j.path := j.dag],
       threads := s.threads[left := SetTidOn(w, j).(vertex := |s.hist|)])
  }

  function DoJoin(s: State, left: nat, right: nat): Option<State> {
    if left in s.threads && right in s.threads && left != right
       && s.threads[left].settled && s.threads[right].settled
    then
      AfterJoin(s.(threads := s.threads - {right}), left, s.threads[right].vertex, s.threads[right].id)
    else None
  }

  function DoFastJoin(s: State, left: nat, rv: nat): Option<State> {
    if left in s.threads && s.threads[left].settled && rv in s.pending && rv !in s.copies && rv < |s.hist| then
      AfterJoin(s.(pending := s.pending - {rv}), left, rv, s.hist[rv].id)
    else None
  }

  /** One event; None when the protocol does not allow it in this state. */
  function Exec(s: State, e: Event): Option<State> {
    match e
    case Fork(t) => DoFork(s, t)
    case BeginSteal(right) => DoBeginSteal(s, right)
    case CopyEntry(right, i) => DoCopyEntry(s, right, i)
    case Steal(right, thief) => DoSteal(s, right, thief)
    case SetTid(t) => DoSetTid(s, t)
    case Join(left, right) => DoJoin(s, left, right)
    case FastJoin(left, rv) => DoFastJoin(s, left, rv)
  }

  function Run(t: nat, es: seq<Event>): Option<State> {
    if es == [] then Some(Init(t))
    else
      match Run(t, es[..|es| - 1])
      case None => None
      case Some(s) => Exec(s, es[|es| - 1])
  }

  // ----- the invariant -----

  /** The vertices tasks are at: those of the threads and of the pending tasks. */
  function Live(s: State): set<nat> { s.pending.Keys + Vertices(s.threads) }

  function Vertices(threads: map<nat, Worker>): set<nat> {
    set t | t in threads :: threads[t].vertex
  }

  ghost predicate Distinct(threads: map<nat, Worker>) {
    forall t, u :: t in threads && u in threads && t != u ==> threads[t].vertex != threads[u].vertex
  }

  ghost predicate Diverge(q: Path, p: Path, i: nat) {
    i < |q| && i < |p| && q[..i] == p[..i] && q[i] != p[i]
  }

  ghost predicate Comparable(q: Path, p: Path) { q <= p || p <= q }

  ghost predicate DagGrows(h: seq<Vertex>)
    requires WfHist(h)
  {
    forall v, i {:trigger h[v].preds[i]} :: 0 <= v < |h| && 0 <= i < |h[v].preds| ==>
      h[h[v].preds[i]].id.dag < h[v].id.dag
  }

  /** The record kept for the path of a live vertex and for all its prefixes. */
  ghost predicate SynchFor(synch: map<Path, nat>, id: TaskId) {
    && (forall i {:trigger id.path[..i]} :: 0 <= i <= |id.path| ==>
          id.path[..i] in synch && synch[id.path[..i]] <= id.dag)
    && id.path in synch && synch[id.path] == id.dag
  }

  /** Which vertices precede the live vertex v. */
  ghost predicate OrderFor(h: seq<Vertex>, synch: map<Path, nat>, v: nat, u: nat)
    requires WfHist(h) && v < |h| && u < |h|
  {
    var p, q := h[v].id.path, h[u].id.path;
    && (Comparable(q, p) ==> Reaches(h, u, v))
    && forall i: nat :: Diverge(q, p, i) ==>
         p[..i] in synch && (Reaches(h, u, v) <==> h[u].id.dag <= synch[p[..i]])
  }

  ghost predicate InvHist(h: seq<Vertex>, synch: map<Path, nat>, live: set<nat>) {
    && WfHist(h) && DagGrows(h)
    && (forall v :: v in live ==> v < |h| && SynchFor(synch, h[v].id))
    && (forall v, u :: v in live && u in live && u != v ==> !Comparable(h[u].id.path, h[v].id.path))
    && (forall v, u :: v in live && 0 <= u < |h| ==> OrderFor(h, synch, v, u))
  }

  /** All of `p` beyond `b` are left turns. */
  ghost predicate LeftSpine(b: Path, p: Path) {
    b <= p && forall i :: |b| <= i < |p| ==> !p[i]
  }

  ghost predicate WorkerOk(h: seq<Vertex>, synch: map<Path, nat>, w: Worker) {
    && w.vertex < |h| && w.base < |h|
    && var p := h[w.vertex].id.path;
    && (w.settled ==> w.id == h[w.vertex].id)
    && |w.sync| == DEPTHS_LEN && |p| < DEPTHS_LEN - 1
    && (forall i {:trigger w.sync[i]} :: 0 <= i < |p| ==> p[..i] in synch && w.sync[i] == synch[p[..i]])
    && (w.settled ==> p in synch && w.sync[|p|] == synch[p])
    && LeftSpine(h[w.base].id.path, p) && BaseOk(h[w.base].id.path)
  }

  /** Threads start at the root or at a stolen right-hand task. */
  predicate BaseOk(b: Path) { b == [] || b[|b| - 1] }

  /** The forking thread is still below the left sibling of what it forked. */
  ghost predicate PendingOk(h: seq<Vertex>, threads: map<nat, Worker>, v: nat, t: nat) {
    && v < |h| && t in threads && threads[t].vertex < |h| && threads[t].base < |h|
    && var p := h[v].id.path;
    && 0 < |p| < DEPTHS_LEN - 1 && p[|p| - 1]
    && p[..|p| - 1] + [false] <= h[threads[t].vertex].id.path
    && h[threads[t].base].id.path <= p[..|p| - 1]
  }

  ghost predicate InvThreads(s: State) {
    && (forall t :: t in s.threads ==> s.threads[t].vertex !in s.pending)
    && Distinct(s.threads)
    && (forall t :: t in s.threads ==> WorkerOk(s.hist, s.synch, s.threads[t]))
    && (forall v :: v in s.pending ==> PendingOk(s.hist, s.threads, v, s.pending[v]))
  }

  /** What has been copied for v holds the records of the prefixes of its path. */
  ghost predicate CopyOk(h: seq<Vertex>, synch: map<Path, nat>, v: nat, c: map<nat, nat>) {
    && v < |h|
    && var p := h[v].id.path;
       forall i: nat :: i in c && i < |p| ==> p[..i] in synch && c[i] == synch[p[..i]]
  }

  ghost predicate InvCopies(s: State) {
    forall v :: v in s.copies ==> v in s.pending && CopyOk(s.hist, s.synch, v, s.copies[v])
  }

  ghost predicate Inv(s: State) { InvHist(s.hist, s.synch, Live(s)) && InvThreads(s) && InvCopies(s) }

  // ----- reachability -----

  /** Appending vertices changes no reachability between old ones. */
  lemma {:induction false} ReachesFrame(h: seq<Vertex>, more: seq<Vertex>, u: nat, v: nat)
    requires WfHist(h) && WfHist(h + more) && v < |h|
    ensures Reaches(h + more, u, v) <==> Reaches(h, u, v)
    decreases v
  {
    assert (h + more)[v] == h[v];
    forall i | 0 <= i < |h[v].preds|
      ensures Reaches(h + more, u, h[v].preds[i]) <==> Reaches(h, u, h[v].preds[i])
    {
      ReachesFrame(h, more, u, h[v].preds[i]);
    }
  }

  /** Edges go forward in time and dag depth grows along them. */
  lemma {:induction false} ReachesGrows(h: seq<Vertex>, u: nat, v: nat)
    requires WfHist(h) && DagGrows(h) && v < |h| && Reaches(h, u, v)
    ensures u <= v && h[u].id.dag <= h[v].id.dag
    ensures u != v ==> u < v && h[u].id.dag < h[v].id.dag
    decreases v
  {
    if u != v {
      var i :| 0 <= i < |h[v].preds| && Reaches(h, u, h[v].preds[i]);
      ReachesGrows(h, u, h[v].preds[i]);
    }
  }

  lemma {:induction false} ReachesBefore(h: seq<Vertex>, u: nat, v: nat)
    requires WfHist(h) && v < |h| && Reaches(h, u, v)
    ensures u <= v
    decreases v
  {
    if u != v {
      var i :| 0 <= i < |h[v].preds| && Reaches(h, u, h[v].preds[i]);
      ReachesBefore(h, u, h[v].preds[i]);
    }
  }

  // ----- steal and set-tid keep the invariant -----

  lemma InvInit(t: nat)
    ensures Inv(Init(t))
  {
    var s := Init(t);
    assert Live(s) == {0} by { assert s.threads[t].vertex == 0; }
    assert Reaches(s.hist, 0, 0);
  }

  lemma VerticesAfter(threads: map<nat, Worker>, t: nat, w: Worker)
    requires Distinct(threads)
    ensures t !in threads ==> Vertices(threads[t := w]) == Vertices(threads) + {w.vertex}
    ensures t in threads ==> Vertices(threads[t := w]) == Vertices(threads) - {threads[t].vertex} + {w.vertex}
    ensures t in threads ==> Vertices(threads - {t}) == Vertices(threads) - {threads[t].vertex}
    ensures Distinct(threads - {t})
    ensures w.vertex !in Vertices(threads - {t}) ==> Distinct(threads[t := w])
  {
    hide Vertices, Distinct;
    VerticesDrop(threads, t);
    VerticesPut(threads - {t}, t, w);
    assert (threads - {t})[t := w] == threads[t := w];
    if t !in threads { assert threads - {t} == threads; }
  }

  lemma VerticesDrop(threads: map<nat, Worker>, t: nat)
    requires Distinct(threads)
    ensures t in threads ==> Vertices(threads - {t}) == Vertices(threads) - {threads[t].vertex}
    ensures Distinct(threads - {t})
  {
    var rest := threads - {t};
    forall u | u in threads && u != t ensures threads[u].vertex in Vertices(rest) { assert rest[u] == threads[u]; }
  }

  lemma VerticesPut(threads: map<nat, Worker>, t: nat, w: Worker)
    requires Distinct(threads) && t !in threads
    ensures Vertices(threads[t := w]) == Vertices(threads) + {w.vertex}
    ensures w.vertex !in Vertices(threads) ==> Distinct(threads[t := w])
  {
    var after := threads[t := w];
    assert after[t].vertex in Vertices(after);
    forall u | u in threads ensures threads[u].vertex in Vertices(after) && threads[u].vertex in Vertices(threads) {
      assert after[u] == threads[u];
    }
  }

  lemma PendingFrame(h: seq<Vertex>, threads: map<nat, Worker>, v: nat, t: nat, u: nat, w: Worker)
    requires PendingOk(h, threads, v, t)
    requires u in threads ==> w.vertex == threads[u].vertex && w.base == threads[u].base
    ensures PendingOk(h, threads[u := w], v, t)
  {
  }

  /** An entry is correct for the stolen task however far its source has run. */
  lemma CopyEntryOk(h: seq<Vertex>, synch: map<Path, nat>, threads: map<nat, Worker>, v: nat, t: nat, i: nat)
    requires PendingOk(h, threads, v, t) && WorkerOk(h, synch, threads[t]) && i < |h[v].id.path|
    ensures i < |threads[t].sync| && h[v].id.path[..i] in synch && threads[t].sync[i] == synch[h[v].id.path[..i]]
  {
    var w, p, q := threads[t], h[v].id.path, h[threads[t].vertex].id.path;
    var sib := p[..|p| - 1] + [false];
    assert p[..i] == sib[..i];
    assert sib[..i] == q[..i];
    var d := w.sync[i];
    assert q[..i] in synch;
  }

  lemma StealWorker(h: seq<Vertex>, synch: map<Path, nat>, v: nat, c: map<nat, nat>)
    requires CopyOk(h, synch, v, c) && AllCopied(c) && |h[v].id.path| < DEPTHS_LEN - 1
    requires BaseOk(h[v].id.path)
    ensures WorkerOk(h, synch, Worker(ROOT, Copied(c), v, false, v))
  {
  }

  lemma BeginStealKeepsInv(s: State, right: nat)
    requires Inv(s) && DoBeginSteal(s, right).Some?
    ensures Inv(DoBeginSteal(s, right).value)
  {
    hide InvHist, WorkerOk, PendingOk, Distinct;
    PendingFacts(s, right);
    assert CopyOk(s.hist, s.synch, right, map[]) by { assert PendingOk(s.hist, s.threads, right, s.pending[right]); }
    hide CopyOk;
    assert Live(DoBeginSteal(s, right).value) == Live(s);
  }

  lemma CopyEntryKeepsInv(s: State, right: nat, i: nat)
    requires Inv(s) && DoCopyEntry(s, right, i).Some?
    ensures Inv(DoCopyEntry(s, right, i).value)
  {
    hide InvHist, WorkerOk, PendingOk, Distinct;
    PendingFacts(s, right);
    if i < |s.hist[right].id.path| { CopyEntryOk(s.hist, s.synch, s.threads, right, s.pending[right], i); }
    var c: map<nat, nat> := s.copies[right][i := s.threads[s.pending[right]].sync[i]];
    assert CopyOk(s.hist, s.synch, right, c);
    assert Live(DoCopyEntry(s, right, i).value) == Live(s);
  }

  lemma StealKeepsInv(s: State, right: nat, thief: nat)
    requires Inv(s) && DoSteal(s, right, thief).Some?
    ensures Inv(DoSteal(s, right, thief).value)
  {
    hide InvHist, WorkerOk, PendingOk, Distinct, CopyOk;
    var s' := DoSteal(s, right, thief).value;
    var w := s'.threads[thief];
    PendingPath(s, right);
    StealWorker(s.hist, s.synch, right, s.copies[right]);
    VerticesAfter(s.threads, thief, w);
    assert s.threads - {thief} == s.threads;
    assert right !in Vertices(s.threads);
    assert Live(s') == Live(s);
    forall v: nat | v in s'.pending
      ensures PendingOk(s.hist, s'.threads, v, s'.pending[v])
    {
      PendingFrame(s.hist, s.threads, v, s.pending[v], thief, w);
    }
  }

  lemma PendingPath(s: State, v: nat)
    requires Inv(s) && v in s.pending
    ensures v < |s.hist| && |s.hist[v].id.path| < DEPTHS_LEN - 1 && BaseOk(s.hist[v].id.path)
  {
    assert PendingOk(s.hist, s.threads, v, s.pending[v]);
  }

  lemma SetTidWorker(h: seq<Vertex>, synch: map<Path, nat>, w: Worker)
    requires WorkerOk(h, synch, w) && SynchFor(synch, h[w.vertex].id)
    ensures var w' := SetTidOn(w, h[w.vertex].id);
      WorkerOk(h, synch, w') && w'.vertex == w.vertex && w'.base == w.base
  {
  }

  /** The threads stand at the vertices they stood at. */
  lemma SetTidThreads(h: seq<Vertex>, synch: map<Path, nat>, threads: map<nat, Worker>, t: nat, w: Worker)
    requires t in threads && Distinct(threads) && w.vertex == threads[t].vertex
    requires WorkerOk(h, synch, w) && forall u :: u in threads ==> WorkerOk(h, synch, threads[u])
    ensures var after := threads[t := w];
      && Vertices(after) == Vertices(threads) && Distinct(after)
      && (forall u :: u in after ==> WorkerOk(h, synch, after[u]) && after[u].vertex == threads[u].vertex)
  {
    hide WorkerOk;
    assert w.vertex in Vertices(threads);
    VerticesAfter(threads, t, w);
  }

  lemma SetTidKeepsInv(s: State, t: nat)
    requires Inv(s) && DoSetTid(s, t).Some?
    ensures Inv(DoSetTid(s, t).value)
  {
    hide InvHist, SynchFor, Vertices, CopyOk, WorkerOk, PendingOk, Distinct, SetTidOn;
    var w, v := s.threads[t], s.threads[t].vertex;
    assert v in Live(s) by { InVertices(s.threads, t); }
    LiveFacts(s.hist, s.synch, Live(s), v, v);
    SetTidWorker(s.hist, s.synch, w);
    SetTidThreads(s.hist, s.synch, s.threads, t, SetTidOn(w, s.hist[v].id));
    forall u: nat | u in s.pending
      ensures PendingOk(s.hist, s.threads[t := SetTidOn(w, s.hist[v].id)], u, s.pending[u])
    {
      PendingFrame(s.hist, s.threads, u, s.pending[u], t, SetTidOn(w, s.hist[v].id));
    }
  }

  lemma InVertices(threads: map<nat, Worker>, t: nat)
    requires t in threads
    ensures threads[t].vertex in Vertices(threads)
  {
  }

  // ----- fork keeps the invariant -----

  lemma ForkReaches(h: seq<Vertex>, v: nat, l: TaskId, r: TaskId, u: nat, w: nat)
    requires WfHist(h) && v < |h| && w < |h| + 2
    ensures WfHist(ForkHist(h, v, l, r))
    ensures w < |h| ==> (Reaches(ForkHist(h, v, l, r), u, w) <==> Reaches(h, u, w))
    ensures w >= |h| ==> (Reaches(ForkHist(h, v, l, r), u, w) <==> u == w || Reaches(h, u, v))
  {
    var h' := ForkHist(h, v, l, r);
    assert forall x, i {:trigger h'[x].preds[i]} :: 0 <= x < |h'| && 0 <= i < |h'[x].preds| ==> h'[x].preds[i] < x;
    if w < |h| {
      ReachesFrame(h, [Vertex(l, [v]), Vertex(r, [v])], u, w);
    } else {
      ReachesFrame(h, [Vertex(l, [v]), Vertex(r, [v])], u, v);
      assert h'[w].preds == [v];
      assert h'[w].preds[0] == v;
    }
  }

  /** The two paths are incomparable, so they part at some fork. */
  lemma Incomparable(q: Path, p: Path) returns (i: nat)
    requires !Comparable(q, p)
    ensures Diverge(q, p, i)
  {
    i := CommonPrefix(q, p);
    assert i == |q| ==> q <= p;
    assert i == |p| ==> p <= q;
  }

  /** Extending an incomparable path keeps it incomparable. */
  lemma ChildIncomparable(p: Path, r: Path, b: bool)
    requires !Comparable(p, r)
    ensures !Comparable(p + [b], r)
    ensures forall i: nat :: Diverge(p + [b], r, i) <==> Diverge(p, r, i)
    ensures forall i: nat :: Diverge(r, p + [b], i) <==> Diverge(r, p, i)
    ensures forall i: nat :: i <= |r| ==> r[..i] != p + [b]
  {
    var c := p + [b];
    assert c[..|p|] == p;
    var k := Incomparable(p, r);
    assert c[..k] == p[..k] && c[k] == p[k];
    forall i: nat ensures (Diverge(c, r, i) <==> i == k) && (Diverge(p, r, i) <==> i == k) {
      if i < k { assert p[i] == p[..k][i] && r[i] == r[..k][i] && c[i] == c[..k][i]; }
      if i > k {
        if i <= |p| && i <= |r| { assert p[..i][k] == p[k] && r[..i][k] == r[k]; }
        if i <= |c| && i <= |r| { assert c[..i][k] == c[k] && r[..i][k] == r[k]; }
      }
    }
  }

  // The invariant's clauses, one instance at a time.

  lemma LiveFacts(h: seq<Vertex>, synch: map<Path, nat>, live: set<nat>, v: nat, w: nat)
    requires InvHist(h, synch, live) && v in live && w in live
    ensures WfHist(h) && DagGrows(h)
    ensures v < |h| && w < |h| && SynchFor(synch, h[v].id) && SynchFor(synch, h[w].id)
    ensures v != w ==> !Comparable(h[v].id.path, h[w].id.path)
  {
  }

  lemma OrderFact(h: seq<Vertex>, synch: map<Path, nat>, live: set<nat>, v: nat, u: nat)
    requires InvHist(h, synch, live) && v in live && u < |h|
    ensures WfHist(h) && v < |h| && OrderFor(h, synch, v, u)
  {
  }

  /** OrderFor depends on u and v only through their ids and reachability. */
  lemma OrderFrame(h: seq<Vertex>, synch: map<Path, nat>, v: nat, u: nat,
                   h': seq<Vertex>, synch': map<Path, nat>, v': nat, u': nat)
    requires WfHist(h) && v < |h| && u < |h| && WfHist(h') && v' < |h'| && u' < |h'|
    requires OrderFor(h, synch, v, u)
    requires h'[v'].id.path == h[v].id.path && h'[u'].id == h[u].id
    requires Reaches(h', u', v') <==> Reaches(h, u, v)
    requires forall i: nat :: i < |h[v].id.path| && h[v].id.path[..i] in synch ==>
               h[v].id.path[..i] in synch' && synch'[h[v].id.path[..i]] == synch[h[v].id.path[..i]]
    ensures OrderFor(h', synch', v', u')
  {
    hide Reaches, WfHist;
  }

  /** A vertex that does not precede v, and whose depth says so. */
  lemma OrderNever(h: seq<Vertex>, synch: map<Path, nat>, v: nat, u: nat)
    requires WfHist(h) && v < |h| && u < |h| && !Reaches(h, u, v)
    requires !Comparable(h[u].id.path, h[v].id.path)
    requires forall i: nat :: Diverge(h[u].id.path, h[v].id.path, i) ==>
               h[v].id.path[..i] in synch && synch[h[v].id.path[..i]] < h[u].id.dag
    ensures OrderFor(h, synch, v, u)
  {
    hide Reaches, WfHist;
  }

  ghost function ForkSynch(synch: map<Path, nat>, l: TaskId, r: TaskId): map<Path, nat> {
    synch[l.path := l.dag][r.path := r.dag]
  }

  /** A vertex other than the forking one keeps its record and its order. */
  lemma ForkKeepsOther(h: seq<Vertex>, synch: map<Path, nat>, live: set<nat>, v: nat, w: nat, u: nat)
    requires InvHist(h, synch, live) && v in live && w in live && w != v && u < |h| + 2
    ensures var l, r := Left(h[v].id), Right(h[v].id);
            var h', synch' := ForkHist(h, v, l, r), ForkSynch(synch, l, r);
            WfHist(h') && SynchFor(synch', h'[w].id) && OrderFor(h', synch', w, u)
  {
    hide InvHist, OrderFor, Reaches, WfHist, DagGrows, Comparable;
    LiveFacts(h, synch, live, v, w);
    var l, r := Left(h[v].id), Right(h[v].id);
    var h', synch' := ForkHist(h, v, l, r), ForkSynch(synch, l, r);
    var p, q := h[v].id.path, h[w].id.path;
    ChildIncomparable(p, q, false);
    ChildIncomparable(p, q, true);
    ForkReaches(h, v, l, r, u, w);
    assert h'[w] == h[w];
    assert q == q[..|q|];
    if u < |h| {
      OrderFact(h, synch, live, w, u);
      assert h'[u] == h[u];
      OrderFrame(h, synch, w, u, h', synch', w, u);
    } else {
      assert h'[u].id == l || h'[u].id == r;
      if Reaches(h, u, w) { ReachesBefore(h, u, w); }
      forall i: nat | Diverge(h'[u].id.path, q, i)
        ensures q[..i] in synch' && synch'[q[..i]] < h'[u].id.dag
      {
        assert Diverge(p, q, i);
        assert q[..i] == p[..i];
      }
      OrderNever(h', synch', w, u);
    }
  }

  /** A child's prefixes and record. */
  lemma ForkChildSynch(h: seq<Vertex>, synch: map<Path, nat>, live: set<nat>, v: nat, c: nat)
    requires InvHist(h, synch, live) && v in live && |h| <= c < |h| + 2
    ensures v < |h|
    ensures var l, r := Left(h[v].id), Right(h[v].id);
            SynchFor(ForkSynch(synch, l, r), ForkHist(h, v, l, r)[c].id)
  {
    hide InvHist, OrderFor, Reaches, WfHist, DagGrows, Comparable;
    LiveFacts(h, synch, live, v, v);
    var l, r := Left(h[v].id), Right(h[v].id);
    var p, id := h[v].id.path, ForkHist(h, v, l, r)[c].id;
    assert id == l || id == r;
    forall i | 0 <= i <= |id.path|
      ensures id.path[..i] in ForkSynch(synch, l, r) && ForkSynch(synch, l, r)[id.path[..i]] <= id.dag
    {
      if i <= |p| { assert id.path[..i] == p[..i]; } else { assert id.path[..i] == id.path; }
    }
  }

  /** Before a fork's child comes what came before the fork, and the fork. */
  lemma ForkChildOrder(h: seq<Vertex>, synch: map<Path, nat>, live: set<nat>, v: nat, c: nat, u: nat)
    requires InvHist(h, synch, live) && v in live && |h| <= c < |h| + 2 && u < |h| + 2
    ensures v < |h|
    ensures var l, r := Left(h[v].id), Right(h[v].id);
            var h', synch' := ForkHist(h, v, l, r), ForkSynch(synch, l, r);
            WfHist(h') && OrderFor(h', synch', c, u)
  {
    hide InvHist, Reaches, WfHist, DagGrows;
    LiveFacts(h, synch, live, v, v);
    var l, r := Left(h[v].id), Right(h[v].id);
    var h', synch' := ForkHist(h, v, l, r), ForkSynch(synch, l, r);
    var p, id := h[v].id.path, h'[c].id;
    ForkReaches(h, v, l, r, u, c);
    if u < |h| {
      OrderFact(h, synch, live, v, u);
      var q := h[u].id.path;
      assert h'[u] == h[u];
      if Reaches(h, u, v) { ReachesGrows(h, u, v); }
      forall i: nat | Diverge(q, id.path, i)
        ensures id.path[..i] in synch' && (Reaches(h, u, v) <==> h[u].id.dag <= synch'[id.path[..i]])
      {
        assert id.path[..i] == p[..i];
        if i < |p| { assert Diverge(q, p, i); } else { assert p == p[..i] == q[..i]; assert p <= q; }
      }
      if Comparable(q, id.path) {
        if q <= id.path && |q| <= |p| { assert q == id.path[..|q|] == p[..|q|]; }
        if |q| > |p| { assert q[..|p|] == id.path[..|p|] == p; }
        assert Comparable(q, p);
      }
    } else if u != c {
      if Reaches(h, u, v) { ReachesBefore(h, u, v); }
      var q := h'[u].id.path;
      assert q[..|p|] == id.path[..|p|] == p;
      assert q[|p|] != id.path[|p|];
      assert h'[u].id.dag == h[v].id.dag + 1;
      forall i: nat | Diverge(q, id.path, i)
        ensures id.path[..i] in synch' && synch'[id.path[..i]] < h'[u].id.dag
      {
        assert i == |p|;
        assert id.path[..i] == p;
      }
      OrderNever(h', synch', c, u);
    }
  }

  lemma ForkAntichain(h: seq<Vertex>, synch: map<Path, nat>, live: set<nat>, v: nat, u: nat, w: nat)
    requires InvHist(h, synch, live) && v in live && u != w
    requires u in live - {v} + {|h|, |h| + 1} && w in live - {v} + {|h|, |h| + 1}
    ensures v < |h| && u < |h| + 2 && w < |h| + 2
    ensures var h' := ForkHist(h, v, Left(h[v].id), Right(h[v].id));
            !Comparable(h'[u].id.path, h'[w].id.path)
  {
    hide InvHist, OrderFor, Reaches, WfHist, DagGrows, SynchFor;
    LiveFacts(h, synch, live, v, v);
    if u in live { LiveFacts(h, synch, live, u, v); }
    if w in live { LiveFacts(h, synch, live, w, v); }
    var h' := ForkHist(h, v, Left(h[v].id), Right(h[v].id));
    var p := h[v].id.path;
    if u < |h| && w < |h| {
      LiveFacts(h, synch, live, u, w);
    } else if u < |h| {
      ChildIncomparable(p, h[u].id.path, w == |h| + 1);
    } else if w < |h| {
      ChildIncomparable(p, h[w].id.path, u == |h| + 1);
    } else {
      assert h'[u].id.path[|p|] != h'[w].id.path[|p|];
    }
  }

  lemma ForkDagGrows(h: seq<Vertex>, v: nat, l: TaskId, r: TaskId)
    requires WfHist(h) && DagGrows(h) && v < |h| && h[v].id.dag < l.dag && h[v].id.dag < r.dag
    ensures WfHist(ForkHist(h, v, l, r)) && DagGrows(ForkHist(h, v, l, r))
  {
  }

  lemma ForkKeepsHist(h: seq<Vertex>, synch: map<Path, nat>, live: set<nat>, v: nat)
    requires InvHist(h, synch, live) && v in live
    ensures v < |h|
    ensures var l, r := Left(h[v].id), Right(h[v].id);
            InvHist(ForkHist(h, v, l, r), ForkSynch(synch, l, r), live - {v} + {|h|, |h| + 1})
  {
    hide OrderFor, Reaches, SynchFor, WfHist, DagGrows, Comparable;
    LiveFacts(h, synch, live, v, v);
    var l, r := Left(h[v].id), Right(h[v].id);
    var h', synch' := ForkHist(h, v, l, r), ForkSynch(synch, l, r);
    var live' := live - {v} + {|h|, |h| + 1};
    ForkReaches(h, v, l, r, 0, 0);
    ForkDagGrows(h, v, l, r);
    assert forall w :: w in live ==> w < |h|;
    forall w | w in live' ensures w < |h'| && SynchFor(synch', h'[w].id) {
      if w < |h| { ForkKeepsOther(h, synch, live, v, w, 0); } else { ForkChildSynch(h, synch, live, v, w); }
    }
    forall w, u: nat | w in live' && u < |h'| ensures OrderFor(h', synch', w, u) {
      if w < |h| { ForkKeepsOther(h, synch, live, v, w, u); } else { ForkChildOrder(h, synch, live, v, w, u); }
    }
    forall w, u | w in live' && u in live' && u != w ensures !Comparable(h'[u].id.path, h'[w].id.path) {
      ForkAntichain(h, synch, live, v, u, w);
    }
  }

  /** A worker whose path and prefixes keep their records stays correct. */
  lemma WorkerFrame(h: seq<Vertex>, synch: map<Path, nat>, h': seq<Vertex>, synch': map<Path, nat>, w: Worker)
    requires WorkerOk(h, synch, w) && h <= h'
    requires forall i: nat :: i <= |h[w.vertex].id.path| && h[w.vertex].id.path[..i] in synch ==>
               h[w.vertex].id.path[..i] in synch' && synch'[h[w.vertex].id.path[..i]] == synch[h[w.vertex].id.path[..i]]
    ensures WorkerOk(h', synch', w)
  {
    assert h'[w.vertex] == h[w.vertex] && h'[w.base] == h[w.base];
    var p := h[w.vertex].id.path;
    assert p[..|p|] == p;
    forall i | 0 <= i < |p| ensures p[..i] in synch' && w.sync[i] == synch'[p[..i]] {
      var d := w.sync[i];
      assert p[..i] in synch;
    }
  }

  /** Going left: the forking thread's array already serves its left child. */
  lemma ForkWorker(h: seq<Vertex>, synch: map<Path, nat>, w: Worker)
    requires WorkerOk(h, synch, w) && w.settled && |w.id.path| < DEPTHS_LEN - 2
    ensures w.vertex < |h|
    ensures var l, r := Left(h[w.vertex].id), Right(h[w.vertex].id);
            WorkerOk(ForkHist(h, w.vertex, l, r), ForkSynch(synch, l, r), w.(vertex := |h|, settled := false))
  {
    var l, r := Left(h[w.vertex].id), Right(h[w.vertex].id);
    var h', synch' := ForkHist(h, w.vertex, l, r), ForkSynch(synch, l, r);
    var p := h[w.vertex].id.path;
    assert h'[w.base] == h[w.base] && h'[|h|].id.path == p + [false];
    var b := h[w.base].id.path;
    assert LeftSpine(b, p);
    assert LeftSpine(b, p + [false]) by { assert b == (p + [false])[..|b|]; }
    forall i: nat | i <= |p|
      ensures (p + [false])[..i] in synch' && w.sync[i] == synch'[(p + [false])[..i]]
    {
      assert (p + [false])[..i] == p[..i];
      if i == |p| { assert p[..i] == p; } else { var d := w.sync[i]; assert p[..i] in synch; }
    }
  }

  lemma PendingGrows(h: seq<Vertex>, h': seq<Vertex>, threads: map<nat, Worker>, t: nat, w: Worker, v: nat, u: nat)
    requires PendingOk(h, threads, v, u) && h <= h'
    requires u == t ==>
      && w.vertex < |h'| && w.base == threads[t].base
      && h[threads[t].vertex].id.path <= h'[w.vertex].id.path
    ensures PendingOk(h', threads[t := w], v, u)
  {
    assert h'[v] == h[v];
    assert h'[threads[u].base] == h[threads[u].base] && h'[threads[u].vertex] == h[threads[u].vertex];
    if u == t {
      var p, a, b := h[v].id.path, h[threads[t].vertex].id.path, h'[w.vertex].id.path;
      var sib := p[..|p| - 1] + [false];
      assert sib == a[..|sib|] == b[..|a|][..|sib|] == b[..|sib|];
    }
  }

  lemma ForkPending(s: State, t: nat, v: nat)
    requires Inv(s) && DoFork(s, t).Some? && v in DoFork(s, t).value.pending
    ensures var s' := DoFork(s, t).value; PendingOk(s'.hist, s'.threads, v, s'.pending[v])
  {
    hide InvCopies, InvHist, WorkerOk, Distinct;
    var s' := DoFork(s, t).value;
    var w := s.threads[t];
    WorkerAt(s, t);
    var p := s.hist[w.vertex].id.path;
    assert s'.hist[|s.hist|].id.path == p + [false] && s'.hist[|s.hist| + 1].id.path == p + [true];
    if v == |s.hist| + 1 {
      assert (p + [true])[..|p|] == p;
      assert s'.hist[w.base] == s.hist[w.base];
    } else {
      PendingGrows(s.hist, s'.hist, s.threads, t, s'.threads[t], v, s.pending[v]);
    }
  }

  lemma WorkerAt(s: State, t: nat)
    requires Inv(s) && t in s.threads
    ensures s.threads[t].vertex in Live(s) && WorkerOk(s.hist, s.synch, s.threads[t])
    ensures s.threads[t].vertex < |s.hist| && s.threads[t].base < |s.hist|
    ensures s.threads[t].settled ==> s.threads[t].id == s.hist[s.threads[t].vertex].id
    ensures s.hist[s.threads[t].base].id.path <= s.hist[s.threads[t].vertex].id.path
  {
    assert s.threads[t].vertex in Vertices(s.threads);
  }

  /** The records of another live vertex's path and its prefixes stay. */
  ghost predicate RecordsKept(p: Path, synch: map<Path, nat>, synch': map<Path, nat>) {
    forall i: nat :: i <= |p| && p[..i] in synch ==> p[..i] in synch' && synch'[p[..i]] == synch[p[..i]]
  }

  lemma ForkKeepsRecords(s: State, t: nat, x: nat)
    requires Inv(s) && DoFork(s, t).Some? && x in Live(s) && x != s.threads[t].vertex
    ensures x < |s.hist| && RecordsKept(s.hist[x].id.path, s.synch, DoFork(s, t).value.synch)
  {
    hide InvHist, WorkerOk, PendingOk, OrderFor, Comparable, SynchFor, InvCopies;
    WorkerAt(s, t);
    var v := s.threads[t].vertex;
    LiveFacts(s.hist, s.synch, Live(s), v, x);
    ChildIncomparable(s.hist[v].id.path, s.hist[x].id.path, false);
    ChildIncomparable(s.hist[v].id.path, s.hist[x].id.path, true);
  }

  lemma ForkOtherWorker(s: State, t: nat, u: nat)
    requires Inv(s) && DoFork(s, t).Some? && u in s.threads && u != t
    ensures var s' := DoFork(s, t).value; WorkerOk(s'.hist, s'.synch, s.threads[u])
  {
    hide InvHist, WorkerOk, PendingOk, InvCopies;
    var s' := DoFork(s, t).value;
    WorkerAt(s, u);
    ForkKeepsRecords(s, t, s.threads[u].vertex);
    WorkerFrame(s.hist, s.synch, s'.hist, s'.synch, s.threads[u]);
  }

  lemma CopyFrame(h: seq<Vertex>, synch: map<Path, nat>, h': seq<Vertex>, synch': map<Path, nat>,
                  v: nat, c: map<nat, nat>)
    requires CopyOk(h, synch, v, c) && h <= h' && RecordsKept(h[v].id.path, synch, synch')
    ensures CopyOk(h', synch', v, c)
  {
    assert h'[v] == h[v];
  }

  lemma ForkKeepsCopies(s: State, t: nat)
    requires Inv(s) && DoFork(s, t).Some?
    ensures InvCopies(DoFork(s, t).value)
  {
    hide InvHist, WorkerOk, PendingOk, CopyOk, RecordsKept, Distinct;
    var s' := DoFork(s, t).value;
    forall v | v in s'.copies ensures v in s'.pending && CopyOk(s'.hist, s'.synch, v, s'.copies[v]) {
      ForkKeepsRecords(s, t, v);
      CopyFrame(s.hist, s.synch, s'.hist, s'.synch, v, s.copies[v]);
    }
  }

  lemma ForkKeepsThreads(s: State, t: nat)
    requires Inv(s) && DoFork(s, t).Some?
    ensures InvThreads(DoFork(s, t).value)
    ensures s.threads[t].vertex in Live(s)
    ensures Live(DoFork(s, t).value) == Live(s) - {s.threads[t].vertex} + {|s.hist|, |s.hist| + 1}
  {
    hide InvCopies, OrderFor, Reaches, WfHist, DagGrows, SynchFor, WorkerOk, PendingOk, Distinct, ForkHist, Comparable,
      LeftSpine;
    var s' := DoFork(s, t).value;
    var w, v := s.threads[t], s.threads[t].vertex;
    WorkerAt(s, t);
    assert forall x :: x in Live(s) ==> x < |s.hist|;
    VerticesAfter(s.threads, t, s'.threads[t]);
    ForkWorker(s.hist, s.synch, w);
    forall u | u in s.threads && u != t ensures WorkerOk(s'.hist, s'.synch, s.threads[u]) { ForkOtherWorker(s, t, u); }
    forall x | x in s'.pending ensures PendingOk(s'.hist, s'.threads, x, s'.pending[x]) { ForkPending(s, t, x); }
  }

  lemma ForkKeepsInv(s: State, t: nat)
    requires Inv(s) && DoFork(s, t).Some?
    ensures Inv(DoFork(s, t).value)
  {
    hide InvHist, InvThreads, InvCopies;
    WorkerAt(s, t);
    ForkKeepsThreads(s, t);
    ForkKeepsCopies(s, t);
    ForkKeepsHist(s.hist, s.synch, Live(s), s.threads[t].vertex);
  }

  // ----- join keeps the invariant -----

  lemma JoinReaches(h: seq<Vertex>, a: nat, b: nat, j: TaskId, u: nat, w: nat)
    requires WfHist(h) && a < |h| && b < |h| && w <= |h|
    ensures WfHist(JoinHist(h, a, b, j))
    ensures w < |h| ==> (Reaches(JoinHist(h, a, b, j), u, w) <==> Reaches(h, u, w))
    ensures w == |h| ==> (Reaches(JoinHist(h, a, b, j), u, w) <==> u == w || Reaches(h, u, a) || Reaches(h, u, b))
  {
    var h' := JoinHist(h, a, b, j);
    assert forall x, i {:trigger h'[x].preds[i]} :: 0 <= x < |h'| && 0 <= i < |h'[x].preds| ==> h'[x].preds[i] < x;
    if w < |h| {
      ReachesFrame(h, [Vertex(j, [a, b])], u, w);
    } else {
      ReachesFrame(h, [Vertex(j, [a, b])], u, a);
      ReachesFrame(h, [Vertex(j, [a, b])], u, b);
      assert h'[w].preds == [a, b];
      assert h'[w].preds[0] == a && h'[w].preds[1] == b;
    }
  }

  lemma JoinDagGrows(h: seq<Vertex>, a: nat, b: nat, j: TaskId)
    requires WfHist(h) && DagGrows(h) && a < |h| && b < |h| && h[a].id.dag < j.dag && h[b].id.dag < j.dag
    ensures WfHist(JoinHist(h, a, b, j)) && DagGrows(JoinHist(h, a, b, j))
  {
  }

  /** What is comparable with the parent is comparable with one of the children. */
  lemma ParentComparable(p: Path, r: Path)
    ensures Comparable(p, r) ==> Comparable(p + [false], r) || Comparable(p + [true], r)
  {
    if r <= p {
      assert r == p[..|r|] == (p + [false])[..|r|];
    } else if p <= r {
      assert r[..|p| + 1] == p + [r[|p|]];
      if r[|p|] { assert p + [true] <= r; } else { assert p + [false] <= r; }
    }
  }

  /** The joining vertices: live siblings at the paths below p. */
  ghost predicate Joining(h: seq<Vertex>, live: set<nat>, a: nat, b: nat, p: Path) {
    && a in live && b in live && a < |h| && b < |h| && a != b
    && h[a].id.path == p + [false] && h[b].id.path == p + [true]
  }

  ghost function JoinId(h: seq<Vertex>, a: nat, b: nat): TaskId
    requires a < |h| && b < |h| && |h[a].id.path| > 0
  {
    Joined(h[a].id, h[b].id)
  }

  lemma JoinKeepsOther(h: seq<Vertex>, synch: map<Path, nat>, live: set<nat>, a: nat, b: nat, p: Path, w: nat, u: nat)
    requires InvHist(h, synch, live) && Joining(h, live, a, b, p)
    requires w in live && w != a && w != b && u <= |h|
    ensures var j := JoinId(h, a, b);
            var h', synch' := JoinHist(h, a, b, j), synch[j.path := j.dag];
            && WfHist(h') && SynchFor(synch', h'[w].id) && OrderFor(h', synch', w, u)
            && !Comparable(p, h'[w].id.path)
  {
    hide InvHist, OrderFor, Reaches, WfHist, DagGrows, Comparable;
    LiveFacts(h, synch, live, a, w);
    LiveFacts(h, synch, live, b, w);
    var j := JoinId(h, a, b);
    var h', synch' := JoinHist(h, a, b, j), synch[j.path := j.dag];
    assert j.path == p;
    var q := h[w].id.path;
    assert !Comparable(p, q) by { ParentComparable(p, q); NotComparable(h, live, a, b, p, w); }
    PrefixIncomparable(p, q);
    ChildIncomparable(p, q, false);
    JoinReaches(h, a, b, j, u, w);
    assert h'[w] == h[w] && q == q[..|q|];
    if u < |h| {
      OrderFact(h, synch, live, w, u);
      assert h'[u] == h[u];
      OrderFrame(h, synch, w, u, h', synch', w, u);
    } else {
      assert h'[u].id == j;
      if Reaches(h, u, w) { ReachesBefore(h, u, w); }
      forall i: nat | Diverge(p, q, i)
        ensures q[..i] in synch' && synch'[q[..i]] < j.dag
      {
        assert Diverge(p + [false], q, i);
        assert q[..i] == (p + [false])[..i];
      }
      OrderNever(h', synch', w, u);
    }
  }

  lemma NotComparable(h: seq<Vertex>, live: set<nat>, a: nat, b: nat, p: Path, w: nat)
    requires w < |h| && Joining(h, live, a, b, p)
    requires !Comparable(h[a].id.path, h[w].id.path) && !Comparable(h[b].id.path, h[w].id.path)
    ensures !Comparable(p + [false], h[w].id.path) && !Comparable(p + [true], h[w].id.path)
  {
  }

  lemma PrefixIncomparable(p: Path, r: Path)
    requires !Comparable(p, r)
    ensures forall i: nat :: i <= |r| ==> r[..i] != p
  {
  }

  lemma JoinSynch(h: seq<Vertex>, synch: map<Path, nat>, live: set<nat>, a: nat, b: nat, p: Path)
    requires InvHist(h, synch, live) && Joining(h, live, a, b, p)
    ensures var j := JoinId(h, a, b); SynchFor(synch[j.path := j.dag], j)
  {
    hide InvHist, OrderFor, Reaches, WfHist, DagGrows, Comparable;
    LiveFacts(h, synch, live, a, b);
    var j := JoinId(h, a, b);
    assert j.path == p;
    forall i | 0 <= i <= |p|
      ensures p[..i] in synch[p := j.dag] && synch[p := j.dag][p[..i]] <= j.dag
    {
      assert (p + [false])[..i] == p[..i];
      if i == |p| { assert p[..i] == p; }
    }
  }

  /** What parts from the parent's path parts from both children's, at the same place. */
  lemma PartsFromBoth(p: Path, q: Path, i: nat)
    requires Diverge(q, p, i)
    ensures (p + [false])[..i] == p[..i] && (p + [true])[..i] == p[..i]
    ensures Diverge(q, p + [false], i) && Diverge(q, p + [true], i)
  {
  }

  lemma ComparableWithChild(p: Path, q: Path)
    requires Comparable(q, p)
    ensures Comparable(q, p + [false]) || Comparable(q, p + [true])
  {
    if q <= p {
      assert q == p[..|q|] == (p + [false])[..|q|];
    } else {
      assert q[..|p| + 1] == p + [q[|p|]];
      if q[|p|] { assert p + [true] <= q; } else { assert p + [false] <= q; }
    }
  }

  /** Before a join comes what came before one of its two sides. */
  lemma JoinOrder(h: seq<Vertex>, synch: map<Path, nat>, live: set<nat>, a: nat, b: nat, p: Path, u: nat)
    requires InvHist(h, synch, live) && Joining(h, live, a, b, p) && u <= |h|
    ensures var j := JoinId(h, a, b);
            var h' := JoinHist(h, a, b, j);
            WfHist(h') && OrderFor(h', synch[j.path := j.dag], |h|, u)
  {
    hide InvHist, Reaches, WfHist, DagGrows, Diverge, Comparable;
    LiveFacts(h, synch, live, a, b);
    var j := JoinId(h, a, b);
    var h', synch' := JoinHist(h, a, b, j), synch[j.path := j.dag];
    assert j.path == p;
    JoinReaches(h, a, b, j, u, |h|);
    var q := h'[u].id.path;
    if u < |h| {
      OrderFact(h, synch, live, a, u);
      OrderFact(h, synch, live, b, u);
      assert h'[u] == h[u];
      if Comparable(q, p) { ComparableWithChild(p, q); }
      PartsWithin(p, q);
      forall i: nat | i < |p| && Diverge(q, p, i)
        ensures p[..i] in synch' && (Reaches(h', u, |h|) <==> h[u].id.dag <= synch'[p[..i]])
      {
        JoinOrderAt(h, synch, live, a, b, p, u, i);
      }
    } else {
      NeverFromItself(p);
    }
  }

  lemma PartsWithin(p: Path, q: Path)
    ensures forall i: nat :: Diverge(q, p, i) ==> i < |p| && i < |q|
  {
  }

  lemma NeverFromItself(p: Path)
    ensures forall i: nat :: !Diverge(p, p, i)
  {
  }

  lemma JoinOrderAt(h: seq<Vertex>, synch: map<Path, nat>, live: set<nat>, a: nat, b: nat, p: Path, u: nat, i: nat)
    requires InvHist(h, synch, live) && Joining(h, live, a, b, p) && u < |h| && Diverge(h[u].id.path, p, i)
    ensures var j := JoinId(h, a, b);
            var h' := JoinHist(h, a, b, j);
            var synch' := synch[j.path := j.dag];
            && WfHist(h') && p[..i] in synch' && (Reaches(h', u, |h|) <==> h[u].id.dag <= synch'[p[..i]])
  {
    hide InvHist, Reaches, WfHist, DagGrows, Comparable, SynchFor;
    LiveFacts(h, synch, live, a, b);
    OrderFact(h, synch, live, a, u);
    OrderFact(h, synch, live, b, u);
    JoinReaches(h, a, b, JoinId(h, a, b), u, |h|);
    PartsFromBoth(p, h[u].id.path, i);
  }

  lemma JoinKeepsHist(h: seq<Vertex>, synch: map<Path, nat>, live: set<nat>, a: nat, b: nat, p: Path)
    requires InvHist(h, synch, live) && Joining(h, live, a, b, p)
    ensures var j := JoinId(h, a, b);
            InvHist(JoinHist(h, a, b, j), synch[j.path := j.dag], live - {a, b} + {|h|})
  {
    hide OrderFor, Reaches, SynchFor, WfHist, DagGrows, Comparable;
    assert forall w :: w in live ==> w < |h|;
    var j := JoinId(h, a, b);
    assert j.path == p;
    var h', synch' := JoinHist(h, a, b, j), synch[j.path := j.dag];
    var live' := live - {a, b} + {|h|};
    JoinReaches(h, a, b, j, 0, 0);
    JoinDagGrows(h, a, b, j);
    forall w | w in live' ensures w < |h'| && SynchFor(synch', h'[w].id) {
      if w < |h| { JoinKeepsOther(h, synch, live, a, b, p, w, 0); } else { JoinSynch(h, synch, live, a, b, p); }
    }
    forall w, u: nat | w in live' && u < |h'| ensures OrderFor(h', synch', w, u) {
      if w < |h| { JoinKeepsOther(h, synch, live, a, b, p, w, u); } else { JoinOrder(h, synch, live, a, b, p, u); }
    }
    forall w, u | w in live' && u in live' && u != w ensures !Comparable(h'[u].id.path, h'[w].id.path) {
      if w < |h| { JoinKeepsOther(h, synch, live, a, b, p, w, 0); }
      if u < |h| { JoinKeepsOther(h, synch, live, a, b, p, u, 0); }
      ComparableSymmetric(p, h'[u].id.path);
    }
  }

  lemma ComparableSymmetric(p: Path, q: Path)
    ensures Comparable(p, q) <==> Comparable(q, p)
  {
  }

  /** The state of a join before the right-hand side is taken out: either a
      settled thread or a pending task is at vertex rv with id r. */
  ghost predicate JoinReady(s: State, t: nat, rv: nat, r: TaskId) {
    && t in s.threads && s.threads[t].settled && rv in Live(s) && rv != s.threads[t].vertex
    && rv < |s.hist| && r == s.hist[rv].id
    && Siblings(s.threads[t].id.path, r.path)
  }

  lemma ReadyJoining(s: State, t: nat, rv: nat, r: TaskId)
    requires Inv(s) && JoinReady(s, t, rv, r)
    ensures Joining(s.hist, Live(s), s.threads[t].vertex, rv, r.path[..|r.path| - 1])
    ensures Joined(s.threads[t].id, r) == JoinId(s.hist, s.threads[t].vertex, rv)
    ensures Joined(s.threads[t].id, r).path == r.path[..|r.path| - 1]
    ensures s.threads[t].id == s.hist[s.threads[t].vertex].id
    ensures |r.path| < DEPTHS_LEN - 1
  {
    hide InvCopies, InvHist;
    WorkerAt(s, t);
    var p := r.path[..|r.path| - 1];
    assert r.path == p + [true];
    assert s.threads[t].id.path == p + [false];
  }

  /** The left thread's array serves the joined task. */
  lemma JoinWorker(s: State, t: nat, rv: nat, r: TaskId)
    requires Inv(s) && JoinReady(s, t, rv, r)
    ensures var w, j := s.threads[t], Joined(s.threads[t].id, r);
      && |j.path| < |w.sync| && w.vertex < |s.hist|
      && WorkerOk(JoinHist(s.hist, w.vertex, rv, j), s.synch[j.path := j.dag], SetTidOn(w, j).(vertex := |s.hist|))
      && s.hist[w.base].id.path <= j.path
  {
    hide InvCopies, InvHist;
    WorkerAt(s, t);
    ReadyJoining(s, t, rv, r);
    var w, j := s.threads[t], Joined(s.threads[t].id, r);
    var h' := JoinHist(s.hist, w.vertex, rv, j);
    var p, b := j.path, s.hist[w.base].id.path;
    var pl := p + [false];
    assert h'[w.base] == s.hist[w.base];
    assert LeftSpine(b, pl) && BaseOk(b);
    assert b != pl by { assert !pl[|p|]; }
    assert b == pl[..|b|] == p[..|b|];
    forall i | |b| <= i < |p| ensures !p[i] { assert pl[i] == p[i]; }
    forall i | 0 <= i < |p| ensures p[..i] in s.synch && w.sync[i] == s.synch[p[..i]] {
      assert p[..i] == pl[..i];
      var d := w.sync[i];
    }
  }

  lemma JoinKeepsRecords(s: State, t: nat, rv: nat, r: TaskId, x: nat)
    requires Inv(s) && JoinReady(s, t, rv, r) && x in Live(s) && x != rv && x != s.threads[t].vertex
    ensures var j := Joined(s.threads[t].id, r);
      x < |s.hist| && RecordsKept(s.hist[x].id.path, s.synch, s.synch[j.path := j.dag])
  {
    hide InvHist, WorkerOk, PendingOk, SynchFor, OrderFor, Comparable, WfHist, Reaches, InvCopies;
    ReadyJoining(s, t, rv, r);
    WorkerAt(s, t);
    var a, j := s.threads[t].vertex, Joined(s.threads[t].id, r);
    LiveFacts(s.hist, s.synch, Live(s), a, x);
    JoinKeepsOther(s.hist, s.synch, Live(s), a, rv, j.path, x, 0);
    assert JoinHist(s.hist, a, rv, j)[x] == s.hist[x];
    PrefixIncomparable(j.path, s.hist[x].id.path);
  }

  lemma JoinOtherWorker(s: State, t: nat, rv: nat, r: TaskId, u: nat)
    requires Inv(s) && JoinReady(s, t, rv, r)
    requires u in s.threads && u != t && s.threads[u].vertex != rv
    ensures var a, j := s.threads[t].vertex, Joined(s.threads[t].id, r);
            WorkerOk(JoinHist(s.hist, a, rv, j), s.synch[j.path := j.dag], s.threads[u])
  {
    hide InvHist, WorkerOk, PendingOk, InvCopies;
    WorkerAt(s, u);
    var a, j, x := s.threads[t].vertex, Joined(s.threads[t].id, r), s.threads[u].vertex;
    assert x != a by { assert Distinct(s.threads); }
    JoinKeepsRecords(s, t, rv, r, x);
    WorkerFrame(s.hist, s.synch, JoinHist(s.hist, a, rv, j), s.synch[j.path := j.dag], s.threads[u]);
  }

  /** A thread that forked a pending task stands at a left turn: a right-hand
      thread leaves no pending task behind when it joins. */
  lemma ForkerOnLeft(b: Path, up: Path, q: Path)
    requires LeftSpine(b, up) && |q| > 0 && q[..|q| - 1] + [false] <= up && b <= q[..|q| - 1]
    ensures |up| > 0 && !up[|up| - 1]
  {
  }

  /** When a thread joins, the other tasks it forked hang higher up. */
  lemma SiblingAbove(p: Path, q: Path)
    requires |q| > 0 && q[|q| - 1] && q[..|q| - 1] + [false] <= p + [false]
    ensures q == p + [true] || q[..|q| - 1] + [false] <= p
  {
    var sib, pl := q[..|q| - 1] + [false], p + [false];
    assert sib == pl[..|sib|];
    if |sib| == |pl| {
      assert p == pl[..|p|] == sib[..|p|] == q[..|p|];
      assert q == p + [true];
    } else {
      assert sib == p[..|sib|];
    }
  }

  lemma JoinPending(s: State, t: nat, rv: nat, r: TaskId, v: nat)
    requires Inv(s) && JoinReady(s, t, rv, r) && v in s.pending && v != rv
    ensures s.pending[v] in s.threads && s.threads[s.pending[v]].vertex != rv && s.threads[t].vertex < |s.hist|
    ensures PendingOk(JoinHist(s.hist, s.threads[t].vertex, rv, Joined(s.threads[t].id, r)),
                      s.threads[t := s.threads[t].(vertex := |s.hist|)], v, s.pending[v])
  {
    hide InvCopies, InvHist, InvThreads, Comparable, Distinct, SynchFor, WorkerOk, Live;
    ReadyJoining(s, t, rv, r);
    var u, p := s.pending[v], Joined(s.threads[t].id, r).path;
    PendingFacts(s, v);
    PendingOther(s, v, rv);
    var h' := JoinHist(s.hist, s.threads[t].vertex, rv, Joined(s.threads[t].id, r));
    assert h'[v] == s.hist[v] && h'[s.threads[u].vertex] == s.hist[s.threads[u].vertex];
    assert h'[s.threads[u].base] == s.hist[s.threads[u].base];
    if u == t { SiblingAbove(p, s.hist[v].id.path); }
  }

  lemma PendingFacts(s: State, v: nat)
    requires Inv(s) && v in s.pending
    ensures v in Live(s) && PendingOk(s.hist, s.threads, v, s.pending[v])
    ensures WorkerOk(s.hist, s.synch, s.threads[s.pending[v]])
  {
  }

  lemma NotItself(p: Path)
    ensures Comparable(p, p)
  {
  }

  lemma PendingOther(s: State, v: nat, w: nat)
    requires Inv(s) && v in s.pending && w in Live(s) && w != v
    ensures v < |s.hist| && w < |s.hist| && s.hist[v].id.path != s.hist[w].id.path
    ensures |s.hist[w].id.path| > 0 && s.hist[w].id.path[|s.hist[w].id.path| - 1] ==>
            s.threads[s.pending[v]].vertex != w
  {
    hide InvCopies, InvHist, InvThreads, SynchFor, Comparable;
    PendingFacts(s, v);
    LiveFacts(s.hist, s.synch, Live(s), v, w);
    NotItself(s.hist[w].id.path);
    var f := s.threads[s.pending[v]];
    ForkerOnLeft(s.hist[f.base].id.path, s.hist[f.vertex].id.path, s.hist[v].id.path);
  }

  /** What a join leaves: everything but the right-hand side rv. */
  ghost predicate Without(s: State, rv: nat, threads: map<nat, Worker>, pending: map<nat, nat>) {
    && (forall u :: u in threads <==> u in s.threads && s.threads[u].vertex != rv)
    && (forall u :: u in threads ==> threads[u] == s.threads[u])
    && (forall v :: v in pending <==> v in s.pending && v != rv)
    && (forall v :: v in pending ==> pending[v] == s.pending[v])
  }

  lemma WithoutLive(s: State, rv: nat, threads: map<nat, Worker>, pending: map<nat, nat>, t: nat, w: Worker)
    requires Without(s, rv, threads, pending) && t in threads && Distinct(s.threads)
    requires forall u :: u in s.threads ==> s.threads[u].vertex !in s.pending
    requires w.vertex !in s.pending.Keys + Vertices(s.threads)
    ensures pending.Keys + Vertices(threads[t := w]) == Live(s) - {s.threads[t].vertex, rv} + {w.vertex}
    ensures Distinct(threads[t := w])
  {
    assert Distinct(threads);
    VerticesAfter(threads, t, w);
    assert Vertices(threads) == Vertices(s.threads) - {rv} by {
      forall x | x in Vertices(s.threads) && x != rv ensures x in Vertices(threads) {
        var u :| u in s.threads && s.threads[u].vertex == x;
        assert threads[u].vertex == x;
      }
      forall x | x in Vertices(threads) ensures x in Vertices(s.threads) && x != rv {
        var u :| u in threads && threads[u].vertex == x;
        assert s.threads[u].vertex == x;
      }
    }
    assert pending.Keys == s.pending.Keys - {rv};
    assert s.threads[t].vertex !in s.pending;
  }

  lemma PendingSame(h: seq<Vertex>, threads: map<nat, Worker>, threads': map<nat, Worker>, v: nat, t: nat)
    requires PendingOk(h, threads, v, t)
    requires t in threads' && threads'[t].vertex == threads[t].vertex && threads'[t].base == threads[t].base
    ensures PendingOk(h, threads', v, t)
  {
  }

  lemma JoinPendingLeft(s: State, t: nat, rv: nat, r: TaskId, threads: map<nat, Worker>, pending: map<nat, nat>, v: nat)
    requires Inv(s) && JoinReady(s, t, rv, r) && Without(s, rv, threads, pending) && v in pending
    ensures var a, j := s.threads[t].vertex, Joined(s.threads[t].id, r);
            && |j.path| < |s.threads[t].sync|
            && PendingOk(JoinHist(s.hist, a, rv, j),
                         threads[t := SetTidOn(s.threads[t], j).(vertex := |s.hist|)], v, pending[v])
  {
    hide InvCopies, InvHist, WorkerOk, PendingOk, Distinct, JoinHist, Joined;
    JoinWorker(s, t, rv, r);
    JoinPending(s, t, rv, r, v);
    var a, j := s.threads[t].vertex, Joined(s.threads[t].id, r);
    PendingSame(JoinHist(s.hist, a, rv, j), s.threads[t := s.threads[t].(vertex := |s.hist|)],
                threads[t := SetTidOn(s.threads[t], j).(vertex := |s.hist|)], v, pending[v]);
  }

  lemma JoinKeepsCopies(s: State, t: nat, rv: nat, r: TaskId, v: nat)
    requires Inv(s) && JoinReady(s, t, rv, r) && v in s.copies && v != rv
    ensures var a, j := s.threads[t].vertex, Joined(s.threads[t].id, r);
            CopyOk(JoinHist(s.hist, a, rv, j), s.synch[j.path := j.dag], v, s.copies[v])
  {
    hide InvHist, WorkerOk, PendingOk, CopyOk, RecordsKept, Distinct, Joined;
    var a, j := s.threads[t].vertex, Joined(s.threads[t].id, r);
    JoinKeepsRecords(s, t, rv, r, v);
    CopyFrame(s.hist, s.synch, JoinHist(s.hist, a, rv, j), s.synch[j.path := j.dag], v, s.copies[v]);
  }

  lemma JoinThreads(s: State, t: nat, rv: nat, r: TaskId, threads: map<nat, Worker>, pending: map<nat, nat>)
    requires Inv(s) && JoinReady(s, t, rv, r) && Without(s, rv, threads, pending) && rv !in s.copies
    ensures t in threads && |Joined(s.threads[t].id, r).path| < |s.threads[t].sync|
    ensures var a, j := s.threads[t].vertex, Joined(s.threads[t].id, r);
            var s' := State(JoinHist(s.hist, a, rv, j), s.synch[j.path := j.dag],
                            threads[t := SetTidOn(s.threads[t], j).(vertex := |s.hist|)], pending, s.copies);
            InvThreads(s') && InvCopies(s') && Live(s') == Live(s) - {a, rv} + {|s.hist|}
  {
    hide OrderFor, Reaches, WfHist, DagGrows, SynchFor, WorkerOk, PendingOk, Comparable, JoinHist, Joined, Vertices,
      Distinct, CopyOk;
    var a, j := s.threads[t].vertex, Joined(s.threads[t].id, r);
    JoinWorker(s, t, rv, r);
    var w := SetTidOn(s.threads[t], j).(vertex := |s.hist|);
    var h', synch' := JoinHist(s.hist, a, rv, j), s.synch[j.path := j.dag];
    assert forall x :: x in Live(s) ==> x < |s.hist|;
    WithoutLive(s, rv, threads, pending, t, w);
    forall u | u in threads && u != t ensures WorkerOk(h', synch', threads[u]) { JoinOtherWorker(s, t, rv, r, u); }
    forall v | v in pending ensures PendingOk(h', threads[t := w], v, pending[v]) {
      JoinPendingLeft(s, t, rv, r, threads, pending, v);
    }
    forall v | v in s.copies ensures v in pending && CopyOk(h', synch', v, s.copies[v]) {
      JoinKeepsCopies(s, t, rv, r, v);
    }
    forall u | u in threads ensures threads[t := w][u].vertex !in pending {
      if u != t { assert s.threads[u].vertex !in s.pending; } else { FreshNotPending(s); }
    }
  }

  lemma FreshNotPending(s: State)
    requires Inv(s)
    ensures |s.hist| !in s.pending
  {
    assert forall x :: x in Live(s) ==> x < |s.hist|;
  }

  lemma JoinKeepsInv(s: State, t: nat, rv: nat, r: TaskId, threads: map<nat, Worker>, pending: map<nat, nat>)
    requires Inv(s) && JoinReady(s, t, rv, r) && Without(s, rv, threads, pending) && rv !in s.copies
    ensures t in threads && AfterJoin(State(s.hist, s.synch, threads, pending, s.copies), t, rv, r).Some?
    ensures Inv(AfterJoin(State(s.hist, s.synch, threads, pending, s.copies), t, rv, r).value)
  {
    hide InvHist, InvThreads, InvCopies, JoinHist;
    JoinThreads(s, t, rv, r, threads, pending);
    ReadyJoining(s, t, rv, r);
    JoinKeepsHist(s.hist, s.synch, Live(s), s.threads[t].vertex, rv, Joined(s.threads[t].id, r).path);
  }

  lemma DoJoinKeepsInv(s: State, left: nat, right: nat)
    requires Inv(s) && DoJoin(s, left, right).Some?
    ensures Inv(DoJoin(s, left, right).value)
  {
    hide InvHist, WorkerOk, PendingOk;
    WorkerAt(s, left);
    WorkerAt(s, right);
    JoinKeepsInv(s, left, s.threads[right].vertex, s.threads[right].id, s.threads - {right}, s.pending);
  }

  lemma DoFastJoinKeepsInv(s: State, left: nat, rv: nat)
    requires Inv(s) && DoFastJoin(s, left, rv).Some?
    ensures Inv(DoFastJoin(s, left, rv).value)
  {
    hide InvHist, WorkerOk, PendingOk;
    WorkerAt(s, left);
    JoinKeepsInv(s, left, rv, s.hist[rv].id, s.threads, s.pending - {rv});
  }

  lemma ExecKeepsInv(s: State, e: Event)
    requires Inv(s) && Exec(s, e).Some?
    ensures Inv(Exec(s, e).value)
  {
    hide Inv, DoFork, DoBeginSteal, DoCopyEntry, DoSteal, DoSetTid, DoJoin, DoFastJoin;
    match e
    case Fork(t) => ForkKeepsInv(s, t);
    case BeginSteal(right) => BeginStealKeepsInv(s, right);
    case CopyEntry(right, i) => CopyEntryKeepsInv(s, right, i);
    case Steal(right, thief) => StealKeepsInv(s, right, thief);
    case SetTid(t) => SetTidKeepsInv(s, t);
    case Join(left, right) => DoJoinKeepsInv(s, left, right);
    case FastJoin(left, rv) => DoFastJoinKeepsInv(s, left, rv);
  }

  /** Every reachable state satisfies the invariant. */
  lemma {:induction false} RunKeepsInv(t: nat, es: seq<Event>)
    requires Run(t, es).Some?
    ensures Inv(Run(t, es).value)
    decreases |es|
  {
    hide Inv, Exec;
    if es == [] {
      InvInit(t);
    } else {
      RunKeepsInv(t, es[..|es| - 1]);
      ExecKeepsInv(Run(t, es[..|es| - 1]).value, es[|es| - 1]);
    }
  }

  // ----- the theorems -----

  /** In every reachable state the array of a running thread holds the global
      record of every prefix of its path. */
  lemma SyncDepthsAreGlobal(t0: nat, es: seq<Event>, t: nat, i: nat)
    requires Run(t0, es).Some?
    requires var s := Run(t0, es).value; t in s.threads && s.threads[t].settled && i <= |s.threads[t].id.path|
    ensures var s := Run(t0, es).value;
            var w := s.threads[t];
            i < |w.sync| && w.id.path[..i] in s.synch && w.sync[i] == s.synch[w.id.path[..i]]
  {
    hide Exec, Run, InvHist;
    RunKeepsInv(t0, es);
    var s := Run(t0, es).value;
    WorkerAt(s, t);
    var p := s.threads[t].id.path;
    if i == |p| { assert p[..i] == p; } else { var d := s.threads[t].sync[i]; }
  }

  /** The test is exact: for every computation, every running thread and every
      executed vertex u, the test accepts u's id if and only if u is the
      thread's current vertex or precedes it in the dag. */
  lemma OrderedIsReachability(t0: nat, es: seq<Event>, t: nat, u: nat)
    requires Run(t0, es).Some?
    requires var s := Run(t0, es).value; t in s.threads && s.threads[t].settled && u < |s.hist|
    ensures var s := Run(t0, es).value;
            var w := s.threads[t];
            && WfHist(s.hist) && w.vertex < |s.hist| && |w.id.path| < |w.sync|
            && (IsOrdered(w.id.path, w.sync, s.hist[u].id) <==> Reaches(s.hist, u, w.vertex))
  {
    hide Exec, Run, Reaches, DagGrows;
    RunKeepsInv(t0, es);
    var s := Run(t0, es).value;
    var w := s.threads[t];
    WorkerAt(s, t);
    var p, q := w.id.path, s.hist[u].id.path;
    OrderFact(s.hist, s.synch, Live(s), w.vertex, u);
    var n := CommonPrefix(q, p);
    SyncDepthsAreGlobal(t0, es, t, n);
    if n < |p| && n < |q| {
      assert Diverge(q, p, n);
      assert q != p && q != p[..n];
    } else if n == |q| {
      assert q == p[..n];
      assert Comparable(q, p);
    } else {
      assert p == q[..n];
      assert Comparable(q, p);
      assert p[..n] == p;
      if Reaches(s.hist, u, w.vertex) { ReachesGrows(s.hist, u, w.vertex); }
    }
  }
}
