/**
 Fork/join runs over packed ids, matched step by step with `ForkJoin` runs.
 */
module DecheckRun {
  import opened PathWords
  import opened DecheckIds
  import opened Decheck
  import opened Options
  import FJ = ForkJoin

  datatype PVertex = PVertex(tid: Tid, preds: seq<nat>)

  datatype PWorker = PWorker(tid: Tid, sync: seq<Word>, vertex: nat, settled: bool, base: nat)

  /** An index of the global table: a normalised path. */
  datatype PathKey = PathKey(word: Word)

  function Key(t: Tid): PathKey
    requires TreeDepth(t) <= MAX_TREE_DEPTH
  {
    PathKey(NormPath(t))
  }

  /** `synch` is the table the assertions keep, from normalised paths to depths. */
  datatype PState = PState(
    hist: seq<PVertex>,
    synch: map<PathKey, Word>,
    threads: map<nat, PWorker>,
    pending: map<nat, nat>,
    copies: map<nat, map<nat, Word>>)

  const BOGUS_TID := Tid(0, 0)

  function Init(t: nat): PState {
    PState([PVertex(INIT_TID, [])], map[PathKey(1) := 0], map[t := PWorker(INIT_TID, Zeros(), 0, true, 0)],
           map[], map[])
  }

  function SetTidOn(w: PWorker, tid: Tid): PWorker
    requires Len(TreeDepth(tid)) < |w.sync|
  {
    w.(tid := tid, sync := SetSync(w.sync, tid), settled := true)
  }

  /** The scheduler forks only below the maximum depth; a fork whose dag depth
      would leave its 27 bits is outside the computations considered. */
  function DoFork(s: PState, t: nat): Option<PState> {
    if t in s.threads && s.threads[t].settled && s.threads[t].vertex < |s.hist|
       && TreeDepth(s.threads[t].tid) < MAX_TREE_DEPTH && DagDepth(s.threads[t].tid) != MAX_DAG_DEPTH
    then
      var w := s.threads[t];
      var l, r := ForkLeft(w.tid), ForkRight(w.tid);
      if TreeDepth(l) <= MAX_TREE_DEPTH && TreeDepth(r) <= MAX_TREE_DEPTH then
        Some(PState(s.hist + [PVertex(l, [w.vertex]), PVertex(r, [w.vertex])],
                       s.synch[Key(l) := DagDepth(l)][Key(r) := DagDepth(r)],
                       s.threads[t := w.(vertex := |s.hist|, settled := false)],
                       s.pending[|s.hist| + 1 := t],
                       s.copies))
      else None
    else None
  }

  function DoBeginSteal(s: PState, right: nat): Option<PState> {
    if right in s.pending && right !in s.copies then Some(s.(copies := s.copies[right := map[]])) else None
  }

  function DoCopyEntry(s: PState, right: nat, i: nat): Option<PState> {
    if right in s.copies && right in s.pending && s.pending[right] in s.threads
       && i < FJ.DEPTHS_LEN && i < |s.threads[s.pending[right]].sync|
    then
      var c: map<nat, Word> := s.copies[right][i := s.threads[s.pending[right]].sync[i]];
      Some(s.(copies := s.copies[right := c]))
    else None
  }

  predicate AllCopied(c: map<nat, Word>) {
    forall i: nat :: i < FJ.DEPTHS_LEN ==> i in c
  }

  function Copied(c: map<nat, Word>): (sync: seq<Word>)
    requires AllCopied(c)
    ensures |sync| == FJ.DEPTHS_LEN && forall i :: 0 <= i < |sync| ==> sync[i] == c[i]
  {
    seq(FJ.DEPTHS_LEN, i requires 0 <= i < FJ.DEPTHS_LEN => c[i])
  }

  function DoSteal(s: PState, right: nat, thief: nat): Option<PState> {
    if right in s.copies && right in s.pending && thief !in s.threads && AllCopied(s.copies[right]) then
      Some(s.(threads := s.threads[thief := PWorker(BOGUS_TID, Copied(s.copies[right]), right, false, right)],
              pending := s.pending - {right}, copies := s.copies - {right}))
    else None
  }

  function DoSetTid(s: PState, t: nat): Option<PState> {
    if t in s.threads && !s.threads[t].settled && s.threads[t].vertex < |s.hist|
       && Len(TreeDepth(s.hist[s.threads[t].vertex].tid)) < |s.threads[t].sync|
    then
      var w := s.threads[t];
      Some(s.(threads := s.threads[t := SetTidOn(w, s.hist[w.vertex].tid)]))
    else None
  }

  /** Tasks join with their siblings, both dag depths below the maximum. */
  function AfterJoin(s: PState, left: nat, rv: nat, r: Tid): Option<PState>
    requires left in s.threads
  {
    var w := s.threads[left];
    if CanJoin(w.tid, r) && |w.sync| == FJ.DEPTHS_LEN then
      Some(JoinedState(s, left, rv, JoinSiblings(w.tid, r)))
    else None
  }

  predicate CanJoin(l: Tid, r: Tid) {
    && WellFormed(l) && WellFormed(r) && 1 <= TreeDepth(l)
    && FJ.Siblings(View(l).path, View(r).path)
    && DagDepth(l) != MAX_DAG_DEPTH && DagDepth(r) != MAX_DAG_DEPTH
  }

  function JoinSiblings(l: Tid, r: Tid): (j: Tid)
    requires CanJoin(l, r)
    ensures WellFormed(j) && Len(TreeDepth(j)) < FJ.DEPTHS_LEN
  {
    JoinView(l, r);
    Small(TreeDepth(JoinTid(l, r)));
    JoinTid(l, r)
  }

  function JoinedState(s: PState, left: nat, rv: nat, j: Tid): PState
    requires left in s.threads && WellFormed(j) && Len(TreeDepth(j)) < |s.threads[left].sync|
  {
    var w := s.threads[left];
    s.(hist := s.hist + [PVertex(j, [w.vertex, rv])],
       synch := s.synch[Key(j) := DagDepth(j)],
       threads := s.threads[left := SetTidOn(w, j).(vertex := |s.hist|)])
  }

  function DoJoin(s: PState, left: nat, right: nat): Option<PState> {
    if left in s.threads && right in s.threads && left != right
       && s.threads[left].settled && s.threads[right].settled
    then
      AfterJoin(s.(threads := s.threads - {right}), left, s.threads[right].vertex, s.threads[right].tid)
    else None
  }

  function DoFastJoin(s: PState, left: nat, rv: nat): Option<PState> {
    if left in s.threads && s.threads[left].settled && rv in s.pending && rv !in s.copies && rv < |s.hist| then
      AfterJoin(s.(pending := s.pending - {rv}), left, rv, s.hist[rv].tid)
    else None
  }

  function Exec(s: PState, e: FJ.Event): Option<PState> {
    match e
    case Fork(t) => DoFork(s, t)
    case BeginSteal(right) => DoBeginSteal(s, right)
    case CopyEntry(right, i) => DoCopyEntry(s, right, i)
    case Steal(right, thief) => DoSteal(s, right, thief)
    case SetTid(t) => DoSetTid(s, t)
    case Join(left, right) => DoJoin(s, left, right)
    case FastJoin(left, rv) => DoFastJoin(s, left, rv)
  }

  function Run(t: nat, es: seq<FJ.Event>): Option<PState> {
    if es == [] then Some(Init(t))
    else
      match Run(t, es[..|es| - 1])
      case None => None
      case Some(s) => Exec(s, es[|es| - 1])
  }

  // ----- the simulation -----

  ghost predicate VertexRel(pv: PVertex, v: FJ.Vertex) {
    WellFormed(pv.tid) && v.id == View(pv.tid) && v.preds == pv.preds
  }

  ghost predicate HistRel(ph: seq<PVertex>, h: seq<FJ.Vertex>) {
    |ph| == |h| && forall i :: 0 <= i < |h| ==> VertexRel(ph[i], h[i])
  }

  ghost predicate WorkerRel(pw: PWorker, w: FJ.Worker) {
    && (pw.settled ==> WellFormed(pw.tid))
    && w.id == View(pw.tid) && w.sync == Values(pw.sync)
    && w.vertex == pw.vertex && w.settled == pw.settled && w.base == pw.base
  }

  ghost predicate ThreadsRel(pt: map<nat, PWorker>, t: map<nat, FJ.Worker>) {
    pt.Keys == t.Keys && forall i :: i in pt ==> WorkerRel(pt[i], t[i])
  }

  /** Both maps record the same depth for the path of any well-formed id. */
  ghost predicate SynchRel(ps: map<PathKey, Word>, s: map<FJ.Path, nat>) {
    forall tid {:trigger Key(tid)} {:trigger View(tid)} :: WellFormed(tid) && View(tid).path in s ==>
      Key(tid) in ps && Value(ps[Key(tid)]) == s[View(tid).path]
  }

  ghost predicate CopyRel(pc: map<nat, Word>, c: map<nat, nat>) {
    pc.Keys == c.Keys && forall i :: i in pc ==> Value(pc[i]) == c[i]
  }

  ghost predicate CopiesRel(pc: map<nat, map<nat, Word>>, c: map<nat, map<nat, nat>>) {
    pc.Keys == c.Keys && forall v :: v in pc ==> CopyRel(pc[v], c[v])
  }

  ghost predicate Rel(ps: PState, s: FJ.State) {
    && HistRel(ps.hist, s.hist) && SynchRel(ps.synch, s.synch)
    && ThreadsRel(ps.threads, s.threads) && ps.pending == s.pending && CopiesRel(ps.copies, s.copies)
  }

  lemma SynchUpdate(ps: map<PathKey, Word>, s: map<FJ.Path, nat>, tid: Tid)
    requires SynchRel(ps, s) && WellFormed(tid)
    ensures SynchRel(ps[Key(tid) := DagDepth(tid)], s[View(tid).path := View(tid).dag])
  {
    hide TreeDepth, Bit, View, NormPath, DagDepth, Value;
    ViewDag(tid);
    var ps', s' := ps[Key(tid) := DagDepth(tid)], s[View(tid).path := View(tid).dag];
    forall u | WellFormed(u) && View(u).path in s'
      ensures Key(u) in ps' && Value(ps'[Key(u)]) == s'[View(u).path]
    {
      NormPathIsPath(u, tid);
      if View(u).path == View(tid).path {
        assert ps'[Key(u)] == DagDepth(tid);
      } else {
        assert Key(u) in ps && Value(ps[Key(u)]) == s[View(u).path];
      }
    }
  }

  lemma ViewDag(tid: Tid)
    ensures View(tid).dag == Value(DagDepth(tid))
  {
  }

  lemma ValuesUpdate(sync: seq<Word>, i: nat, w: Word)
    requires i < |sync|
    ensures Values(sync[i := w]) == Values(sync)[i := Value(w)]
  {
  }

  lemma PathLength(t: Tid)
    requires TreeDepth(t) <= MAX_TREE_DEPTH
    ensures |View(t).path| == Len(TreeDepth(t)) < FJ.DEPTHS_LEN - 1
    ensures TreeDepth(t) < MAX_TREE_DEPTH <==> |View(t).path| < FJ.DEPTHS_LEN - 2
    ensures 1 <= TreeDepth(t) <==> |View(t).path| > 0
  {
  }

  lemma SetTidRel(pw: PWorker, w: FJ.Worker, tid: Tid)
    requires WorkerRel(pw, w) && WellFormed(tid) && |pw.sync| == FJ.DEPTHS_LEN
    ensures Len(TreeDepth(tid)) < |pw.sync| && |View(tid).path| < |w.sync|
    ensures WorkerRel(SetTidOn(pw, tid), FJ.SetTidOn(w, View(tid)))
  {
    hide TreeDepth, Bit, View, DagDepth, Value, Len;
    ViewDag(tid);
    PathLength(tid);
    ValuesUpdate(pw.sync, Len(TreeDepth(tid)), DagDepth(tid));
  }

  lemma InitRel(t: nat)
    ensures Rel(Init(t), FJ.Init(t))
  {
    InitTidView();
    assert Values(Zeros()) == seq(FJ.DEPTHS_LEN, _ => 0);
    forall tid | WellFormed(tid) && View(tid).path in map[[] := 0 as nat]
      ensures Key(tid) in map[PathKey(1) := 0 as Word]
      ensures Value(map[PathKey(1) := 0 as Word][Key(tid)]) == map[[] := 0 as nat][View(tid).path]
    {
      NormPathIsPath(tid, INIT_TID);
    }
  }

  lemma InitTidView()
    ensures WellFormed(INIT_TID) && View(INIT_TID) == FJ.ROOT && Key(INIT_TID) == PathKey(1)
    ensures View(BOGUS_TID) == FJ.ROOT
  {
  }

  lemma ForkSim(ps: PState, s: FJ.State, t: nat)
    requires Rel(ps, s) && DoFork(ps, t).Some?
    ensures FJ.DoFork(s, t).Some? && Rel(DoFork(ps, t).value, FJ.DoFork(s, t).value)
  {
    hide TreeDepth, Bit, View, DagDepth, Value, Len, Key, ForkLeft, ForkRight, SynchRel, Values;
    var tid := ps.threads[t].tid;
    assert WorkerRel(ps.threads[t], s.threads[t]);
    ForkView(tid);
    PathLength(tid);
    SynchUpdate(ps.synch, s.synch, ForkLeft(tid));
    SynchUpdate(ps.synch[Key(ForkLeft(tid)) := DagDepth(ForkLeft(tid))],
                s.synch[View(ForkLeft(tid)).path := View(ForkLeft(tid)).dag], ForkRight(tid));
  }

  lemma BeginStealSim(ps: PState, s: FJ.State, right: nat)
    requires Rel(ps, s) && DoBeginSteal(ps, right).Some?
    ensures FJ.DoBeginSteal(s, right).Some?
    ensures Rel(DoBeginSteal(ps, right).value, FJ.DoBeginSteal(s, right).value)
  {
    hide SynchRel, HistRel, ThreadsRel, Value;
  }

  lemma CopyEntrySim(ps: PState, s: FJ.State, right: nat, i: nat)
    requires Rel(ps, s) && DoCopyEntry(ps, right, i).Some?
    ensures FJ.DoCopyEntry(s, right, i).Some?
    ensures Rel(DoCopyEntry(ps, right, i).value, FJ.DoCopyEntry(s, right, i).value)
  {
    hide TreeDepth, Bit, View, SynchRel, HistRel, WellFormed, Value;
    var pw, w := ps.threads[ps.pending[right]], s.threads[s.pending[right]];
    assert WorkerRel(pw, w);
    assert w.sync[i] == Value(pw.sync[i]);
    assert CopyRel(ps.copies[right], s.copies[right]);
  }

  lemma CopiedRel(pc: map<nat, Word>, c: map<nat, nat>)
    requires CopyRel(pc, c) && AllCopied(pc)
    ensures FJ.AllCopied(c) && Values(Copied(pc)) == FJ.Copied(c)
  {
    hide Value;
  }

  lemma StealSim(ps: PState, s: FJ.State, right: nat, thief: nat)
    requires Rel(ps, s) && DoSteal(ps, right, thief).Some?
    ensures FJ.DoSteal(s, right, thief).Some? && Rel(DoSteal(ps, right, thief).value, FJ.DoSteal(s, right, thief).value)
  {
    hide TreeDepth, Bit, View, Values, SynchRel, HistRel, WellFormed, Copied, FJ.Copied, AllCopied, FJ.AllCopied,
      CopyRel;
    InitTidView();
    CopiedRel(ps.copies[right], s.copies[right]);
  }

  lemma SetTidSim(ps: PState, s: FJ.State, t: nat)
    requires Rel(ps, s) && DoSetTid(ps, t).Some? && |ps.threads[t].sync| == FJ.DEPTHS_LEN
    ensures FJ.DoSetTid(s, t).Some? && Rel(DoSetTid(ps, t).value, FJ.DoSetTid(s, t).value)
  {
    hide TreeDepth, Bit, View, Values, SynchRel, WellFormed, Len, DagDepth, SetTidOn, FJ.SetTidOn;
    var v := ps.threads[t].vertex;
    assert WorkerRel(ps.threads[t], s.threads[t]);
    assert VertexRel(ps.hist[v], s.hist[v]);
    SetTidRel(ps.threads[t], s.threads[t], ps.hist[v].tid);
  }

  lemma HistAppend(ph: seq<PVertex>, h: seq<FJ.Vertex>, pv: PVertex, v: FJ.Vertex)
    requires HistRel(ph, h) && VertexRel(pv, v)
    ensures HistRel(ph + [pv], h + [v])
  {
    hide VertexRel;
  }

  lemma VertexIs(tid: Tid, preds: seq<nat>)
    requires WellFormed(tid)
    ensures VertexRel(PVertex(tid, preds), FJ.Vertex(View(tid), preds))
  {
  }

  lemma WorkerMoved(pw: PWorker, w: FJ.Worker, n: nat)
    requires WorkerRel(pw, w)
    ensures WorkerRel(pw.(vertex := n), w.(vertex := n))
  {
  }

  lemma ThreadsUpdate(pt: map<nat, PWorker>, t: map<nat, FJ.Worker>, i: nat, pw: PWorker, w: FJ.Worker)
    requires ThreadsRel(pt, t) && WorkerRel(pw, w)
    ensures ThreadsRel(pt[i := pw], t[i := w])
  {
    hide WorkerRel;
  }

  lemma JoinedWorker(w: PWorker, aw: FJ.Worker, r: Tid, n: nat)
    requires WorkerRel(w, aw) && CanJoin(w.tid, r) && |w.sync| == FJ.DEPTHS_LEN
    ensures var j := JoinSiblings(w.tid, r);
      && FJ.Siblings(aw.id.path, View(r).path)
      && aw.id == View(w.tid) && View(j) == FJ.Joined(aw.id, View(r))
      && |aw.id.path| <= |aw.sync| && |View(j).path| < |aw.sync|
      && WorkerRel(SetTidOn(w, j).(vertex := n), FJ.SetTidOn(aw, View(j)).(vertex := n))
  {
    hide TreeDepth, Bit, View, Values, Len, DagDepth, SetTidOn, FJ.SetTidOn, JoinTid, FJ.Joined;
    ValuesLength(w.sync);
    JoinView(w.tid, r);
    var j := JoinTid(w.tid, r);
    PathLengthOf(w.tid);
    SetTidRel(w, aw, j);
    WorkerMoved(SetTidOn(w, j), FJ.SetTidOn(aw, View(j)), n);
  }

  lemma JoinedStateRel(ps: PState, s: FJ.State, left: nat, rv: nat, j: Tid)
    requires Rel(ps, s) && left in ps.threads && WellFormed(j)
    requires Len(TreeDepth(j)) < |ps.threads[left].sync| && |View(j).path| < |s.threads[left].sync|
    requires WorkerRel(SetTidOn(ps.threads[left], j).(vertex := |s.hist|),
                       FJ.SetTidOn(s.threads[left], View(j)).(vertex := |s.hist|))
    ensures Rel(JoinedState(ps, left, rv, j), FJ.JoinedState(s, left, rv, View(j)))
  {
    hide TreeDepth, Bit, View, SynchRel, VertexRel, Len, DagDepth, Key, FJ.SetTidOn, SetTidOn;
    var w, aw := ps.threads[left], s.threads[left];
    assert w.vertex == aw.vertex by { assert WorkerRel(w, aw); }
    hide WorkerRel;
    SynchUpdate(ps.synch, s.synch, j);
    VertexIs(j, [w.vertex, rv]);
    HistAppend(ps.hist, s.hist, PVertex(j, [w.vertex, rv]), FJ.Vertex(View(j), [aw.vertex, rv]));
    ThreadsUpdate(ps.threads, s.threads, left, SetTidOn(w, j).(vertex := |s.hist|),
                  FJ.SetTidOn(aw, View(j)).(vertex := |s.hist|));
  }

  lemma WorkerOf(ps: PState, s: FJ.State, t: nat)
    requires Rel(ps, s) && t in ps.threads
    ensures t in s.threads && WorkerRel(ps.threads[t], s.threads[t])
  {
  }

  lemma AfterJoinSim(ps: PState, s: FJ.State, left: nat, rv: nat, r: Tid)
    requires Rel(ps, s) && left in ps.threads && AfterJoin(ps, left, rv, r).Some? && ps.threads[left].settled
    ensures left in s.threads && FJ.AfterJoin(s, left, rv, View(r)).Some?
    ensures Rel(AfterJoin(ps, left, rv, r).value, FJ.AfterJoin(s, left, rv, View(r)).value)
  {
    hide TreeDepth, Bit, View, Values, WellFormed, Len, DagDepth, Rel, WorkerRel, CanJoin, JoinSiblings,
      FJ.SetTidOn, SetTidOn, JoinTid, FJ.Joined, JoinedState, FJ.JoinedState, FJ.Siblings;
    WorkerOf(ps, s, left);
    JoinedWorker(ps.threads[left], s.threads[left], r, |s.hist|);
    JoinedStateRel(ps, s, left, rv, JoinSiblings(ps.threads[left].tid, r));
  }

  lemma ValuesLength(sync: seq<Word>)
    ensures |Values(sync)| == |sync|
  {
  }

  lemma PathLengthOf(t: Tid)
    requires WellFormed(t)
    ensures |View(t).path| < FJ.DEPTHS_LEN - 1
  {
    PathLength(t);
  }

  lemma JoinSim(ps: PState, s: FJ.State, left: nat, right: nat)
    requires Rel(ps, s) && DoJoin(ps, left, right).Some?
    ensures FJ.DoJoin(s, left, right).Some? && Rel(DoJoin(ps, left, right).value, FJ.DoJoin(s, left, right).value)
  {
    hide AfterJoin, FJ.AfterJoin, SynchRel, HistRel, Values, View, WellFormed;
    assert WorkerRel(ps.threads[left], s.threads[left]) && WorkerRel(ps.threads[right], s.threads[right]);
    AfterJoinSim(ps.(threads := ps.threads - {right}), s.(threads := s.threads - {right}),
                 left, ps.threads[right].vertex, ps.threads[right].tid);
  }

  lemma FastJoinSim(ps: PState, s: FJ.State, left: nat, rv: nat)
    requires Rel(ps, s) && DoFastJoin(ps, left, rv).Some?
    ensures FJ.DoFastJoin(s, left, rv).Some? && Rel(DoFastJoin(ps, left, rv).value, FJ.DoFastJoin(s, left, rv).value)
  {
    hide AfterJoin, FJ.AfterJoin, SynchRel, Values, View, WellFormed;
    assert WorkerRel(ps.threads[left], s.threads[left]) && VertexRel(ps.hist[rv], s.hist[rv]);
    AfterJoinSim(ps.(pending := ps.pending - {rv}), s.(pending := s.pending - {rv}), left, rv, ps.hist[rv].tid);
  }

  lemma SyncLength(ps: PState, s: FJ.State, t: nat)
    requires Rel(ps, s) && FJ.Inv(s) && t in ps.threads
    ensures |ps.threads[t].sync| == FJ.DEPTHS_LEN
  {
    hide FJ.InvHist, SynchRel, HistRel;
    assert FJ.WorkerOk(s.hist, s.synch, s.threads[t]);
    assert WorkerRel(ps.threads[t], s.threads[t]);
    ValuesLength(ps.threads[t].sync);
  }

  /** Each event on packed ids is the same event on the tasks they stand for. */
  lemma ExecSim(ps: PState, s: FJ.State, e: FJ.Event)
    requires Rel(ps, s) && FJ.Inv(s) && Exec(ps, e).Some?
    ensures FJ.Exec(s, e).Some? && Rel(Exec(ps, e).value, FJ.Exec(s, e).value)
  {
    hide Rel, FJ.Inv, DoFork, DoBeginSteal, DoCopyEntry, DoSteal, DoJoin, DoFastJoin, FJ.DoFork, FJ.DoBeginSteal,
      FJ.DoCopyEntry, FJ.DoSteal, FJ.DoJoin, FJ.DoFastJoin, FJ.DoSetTid;
    match e
    case Fork(t) => ForkSim(ps, s, t);
    case BeginSteal(right) => BeginStealSim(ps, s, right);
    case CopyEntry(right, i) => CopyEntrySim(ps, s, right, i);
    case Steal(right, thief) => StealSim(ps, s, right, thief);
    case SetTid(t) => SyncLength(ps, s, t); SetTidSim(ps, s, t);
    case Join(left, right) => JoinSim(ps, s, left, right);
    case FastJoin(left, rv) => FastJoinSim(ps, s, left, rv);
  }

  lemma {:induction false} RunSim(t: nat, es: seq<FJ.Event>)
    requires Run(t, es).Some?
    ensures FJ.Run(t, es).Some? && FJ.Inv(FJ.Run(t, es).value) && Rel(Run(t, es).value, FJ.Run(t, es).value)
    decreases |es|
  {
    hide Rel, FJ.Inv, Exec, FJ.Exec;
    if es == [] {
      InitRel(t);
    } else {
      RunSim(t, es[..|es| - 1]);
      ExecSim(Run(t, es[..|es| - 1]).value, FJ.Run(t, es[..|es| - 1]).value, es[|es| - 1]);
    }
    FJ.RunKeepsInv(t, es);
  }

  // ----- the theorems on packed ids -----

  /** The history as a dag of tasks. */
  ghost function Dag(ph: seq<PVertex>): seq<FJ.Vertex> {
    seq(|ph|, i requires 0 <= i < |ph| => FJ.Vertex(View(ph[i].tid), ph[i].preds))
  }

  lemma DagIsHist(ph: seq<PVertex>, h: seq<FJ.Vertex>)
    requires HistRel(ph, h)
    ensures Dag(ph) == h
  {
    hide View;
    forall i | 0 <= i < |h| ensures Dag(ph)[i] == h[i] { assert VertexRel(ph[i], h[i]); }
  }

  /** The detector's bit tests on reused ids decide exactly the series-parallel
      order: for every run, every running thread t and every executed vertex u,
      `IsOrdered` holds of u's stored id if and only if u is the thread's
      current vertex or precedes it in the dag. */
  lemma DetectorIsExact(t0: nat, es: seq<FJ.Event>, t: nat, u: nat)
    requires Run(t0, es).Some?
    requires var ps := Run(t0, es).value; t in ps.threads && ps.threads[t].settled && u < |ps.hist|
    ensures var ps := Run(t0, es).value;
      var w := ps.threads[t];
      && FJ.WfHist(Dag(ps.hist)) && w.vertex < |ps.hist|
      && WellFormed(w.tid) && WellFormed(ps.hist[u].tid) && |w.sync| == FJ.DEPTHS_LEN
      && (IsOrdered(w.tid, w.sync, ps.hist[u].tid) <==> FJ.Reaches(Dag(ps.hist), u, w.vertex))
  {
    hide Run, FJ.Run, FJ.InvHist, FJ.InvThreads, IsOrdered, FJ.IsOrdered, FJ.Reaches, SynchRel, Values, View,
      WellFormed, FJ.WfHist;
    RunSim(t0, es);
    var ps, s := Run(t0, es).value, FJ.Run(t0, es).value;
    FJ.OrderedIsReachability(t0, es, t, u);
    DagIsHist(ps.hist, s.hist);
    SyncLength(ps, s, t);
    assert WorkerRel(ps.threads[t], s.threads[t]) && VertexRel(ps.hist[u], s.hist[u]);
    IsOrderedView(ps.threads[t].tid, ps.threads[t].sync, ps.hist[u].tid);
  }

  /** A running thread's array holds the global table's entry for the path of
      every ancestor-or-self of its task. */
  lemma SyncDepthsMatchTable(t0: nat, es: seq<FJ.Event>, t: nat, a: Tid)
    requires Run(t0, es).Some? && WellFormed(a)
    requires var ps := Run(t0, es).value;
      t in ps.threads && ps.threads[t].settled && View(a).path <= View(ps.threads[t].tid).path
    ensures var ps := Run(t0, es).value;
      var w := ps.threads[t];
      && |w.sync| == FJ.DEPTHS_LEN && Len(TreeDepth(a)) < FJ.DEPTHS_LEN
      && Key(a) in ps.synch && Value(w.sync[Len(TreeDepth(a))]) == Value(ps.synch[Key(a)])
  {
    hide Run, FJ.Run, FJ.InvHist, FJ.InvThreads, View, Key, Value, Len, TreeDepth, Bit, HistRel;
    RunSim(t0, es);
    var ps, s := Run(t0, es).value, FJ.Run(t0, es).value;
    SyncLength(ps, s, t);
    assert WorkerRel(ps.threads[t], s.threads[t]);
    PathLength(a);
    var p, i := View(ps.threads[t].tid).path, Len(TreeDepth(a));
    assert View(a).path == p[..i];
    FJ.SyncDepthsAreGlobal(t0, es, t, i);
  }
}
