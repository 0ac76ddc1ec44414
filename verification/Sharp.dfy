/** The service threads of the SHARP path (tcclSharpWork and tcclAllreduceInterFunc in
    src/misc/sharp.cc): one thread a node, which execute posted reductions in an order that
    node 0 broadcasts.

    The SHARP library's broadcast and allreduce are rendezvous of all nodes. */
module Sharp {
  /** A posted reduction is filed under its communicator's port and the rank's number. */
  datatype Entry = Entry(port: nat, rankNo: nat)

  /** Per node: the ports in its g_sharpMap, in order; how many ranks of every communicator
      its thread looks at, which is the number that the first communicator has; and what its
      ranks will post. */
  datatype Net = Net(ports: seq<seq<nat>>, bound: seq<nat>, posts: seq<multiset<Entry>>)

  predicate Distinct(ports: seq<nat>) {
    forall a, b :: 0 <= a < b < |ports| ==> ports[a] != ports[b]
  }

  /** Ranks post only into maps that their node has. */
  ghost predicate Valid(p: Net) {
    && |p.ports| == |p.bound| == |p.posts| >= 2
    && (forall i :: 0 <= i < |p.ports| ==> Distinct(p.ports[i]))
    && forall i, e :: 0 <= i < |p.posts| && e in p.posts[i] ==> e.port in p.ports[i]
  }

  function Nodes(p: Net): nat {
    |p.ports|
  }

  function Posts(p: Net, i: nat, e: Entry): nat
    requires i < |p.posts|
  {
    p.posts[i][e]
  }

  /** Where a service thread is: looking for work, having found some and in the broadcast,
      told what to do, in the reduction, done with it. */
  datatype Thread = Idle | InBcast(own: Entry) | Chosen(e: Entry) | InReduce(e: Entry) | Reduced(e: Entry)

  /** `posted[i]` is what has been posted on node i, `log[i]` what it has executed, in order;
      `order` is every reduction that was completed, as node 0 chose it. */
  datatype State = State(
    thread: seq<Thread>, posted: seq<multiset<Entry>>, log: seq<seq<Entry>>, order: seq<Entry>)

  predicate Shape(p: Net, s: State) {
    |s.thread| == |s.posted| == |s.log| == Nodes(p)
  }

  function Count(log: seq<Entry>, e: Entry): nat {
    multiset(log)[e]
  }

  function Posted(s: State, i: nat, e: Entry): nat
    requires i < |s.posted|
  {
    s.posted[i][e]
  }

  /** The entry's status is WORK; otherwise it is FREE. */
  predicate Work(s: State, i: nat, e: Entry)
    requires i < |s.posted| && i < |s.log|
  {
    Posted(s, i, e) > Count(s.log[i], e)
  }

  // ---- the search for work -----------------------------------------------------------------

  /** The thread of node i looks at this entry at all. */
  predicate Visible(p: Net, i: nat, e: Entry)
    requires i < |p.ports| && i < |p.bound|
  {
    e.rankNo < p.bound[i] && e.port in p.ports[i]
  }

  function Index(ports: seq<nat>, port: nat): (c: nat)
    ensures port in ports ==> c < |ports| && ports[c] == port && port !in ports[..c]
    decreases |ports|, 1
  {
    if ports == [] || ports[0] == port then 0 else Later(ports, port)
  }

  function Later(ports: seq<nat>, port: nat): (c: nat)
    requires ports != [] && ports[0] != port
    ensures port in ports ==> c < |ports| && ports[c] == port && port !in ports[..c]
    decreases |ports|, 0
  {
    var c := Index(ports[1..], port);
    assert port in ports ==> port in ports[1..];
    assert port in ports ==> ports[..c + 1] == [ports[0]] + ports[1..][..c];
    c + 1
  }

  lemma IndexIs(ports: seq<nat>, c: nat)
    requires Distinct(ports) && c < |ports|
    ensures Index(ports, ports[c]) == c
  {
    var d := Index(ports, ports[c]);
    assert ports[d] == ports[c];
  }

  /** The search comes to f before e: rank by rank, and then by communicator. */
  predicate Before(p: Net, i: nat, f: Entry, e: Entry)
    requires i < |p.ports|
  {
    f.rankNo < e.rankNo || (f.rankNo == e.rankNo && Index(p.ports[i], f.port) < Index(p.ports[i], e.port))
  }

  /** What the search of node i returns. */
  ghost predicate Finds(p: Net, s: State, i: nat, e: Entry)
    requires Valid(p) && Shape(p, s) && i < Nodes(p)
  {
    && Visible(p, i, e) && Work(s, i, e)
    && forall f :: Work(s, i, f) && Visible(p, i, f) ==> !Before(p, i, f, e)
  }

  lemma {:induction false} SomethingFound(p: Net, s: State, i: nat, e: Entry) returns (first: Entry)
    requires Valid(p) && Shape(p, s) && i < Nodes(p) && Visible(p, i, e) && Work(s, i, e)
    ensures Finds(p, s, i, first)
    decreases e.rankNo, Index(p.ports[i], e.port)
  {
    if f :| Work(s, i, f) && Visible(p, i, f) && Before(p, i, f, e) {
      first := SomethingFound(p, s, i, f);
    } else {
      first := e;
    }
  }

  /** Entries past a communicator's ranks were never written: they are not WORK. */
  predicate IsWork(work: seq<seq<bool>>, c: nat, r: nat) {
    c < |work| && r < |work[c]| && work[c][r]
  }

  /** `work` is what node i's thread reads, and `total` the rank count of communicator 0. */
  ghost predicate Reads(p: Net, s: State, i: nat, work: seq<seq<bool>>, total: nat)
    requires Valid(p) && Shape(p, s) && i < Nodes(p)
  {
    && |work| == |p.ports[i]| && total == p.bound[i]
    && forall c: nat, r: nat :: c < |work| ==> (IsWork(work, c, r) <==> Work(s, i, Entry(p.ports[i][c], r)))
  }

  /** The search of tcclSharpWork. */
  method FindWork(work: seq<seq<bool>>, total: nat) returns (found: bool, comm: nat, rankNo: nat)
    ensures found ==> rankNo < total && IsWork(work, comm, rankNo)
    ensures found ==> forall c: nat, r: nat :: r < total && IsWork(work, c, r) ==>
                                                rankNo < r || (rankNo == r && comm <= c)
    ensures !found ==> forall c: nat, r: nat :: r < total ==> !IsWork(work, c, r)
  {
    found, comm, rankNo := false, 0, 0;
    while rankNo < total && !found
      invariant rankNo <= total && (found ==> rankNo < total && IsWork(work, comm, rankNo))
      invariant found ==> forall c: nat :: c < comm ==> !IsWork(work, c, rankNo)
      invariant forall c: nat, r: nat :: r < rankNo ==> !IsWork(work, c, r)
      decreases total - rankNo, !found
    {
      comm := 0;
      while comm < |work| && !(rankNo < |work[comm]| && work[comm][rankNo])
        invariant comm <= |work| && forall c: nat :: c < comm ==> !IsWork(work, c, rankNo)
      {
        comm := comm + 1;
      }
      if comm < |work| {
        found := true;
      } else {
        assert forall c: nat :: !IsWork(work, c, rankNo);
        rankNo := rankNo + 1;
      }
    }
  }

  /** What the search returns is what the model's threads pick up; it returns nothing exactly
      when no entry that it looks at has work. */
  lemma SearchIsFinds(p: Net, s: State, i: nat, work: seq<seq<bool>>, total: nat, found: bool, comm: nat, rankNo: nat)
    requires Valid(p) && Shape(p, s) && i < Nodes(p) && Reads(p, s, i, work, total)
    requires found ==> rankNo < total && IsWork(work, comm, rankNo)
    requires found ==> forall c: nat, r: nat :: r < total && IsWork(work, c, r) ==>
                                                 rankNo < r || (rankNo == r && comm <= c)
    requires !found ==> forall c: nat, r: nat :: r < total ==> !IsWork(work, c, r)
    ensures found ==> comm < |p.ports[i]| && Finds(p, s, i, Entry(p.ports[i][comm], rankNo))
    ensures !found ==> forall e :: Visible(p, i, e) ==> !Work(s, i, e)
  {
    var ports := p.ports[i];
    if found { IndexIs(ports, comm); }
    forall e | Visible(p, i, e) && Work(s, i, e) ensures IsWork(work, Index(ports, e.port), e.rankNo) {
      assert e == Entry(ports[Index(ports, e.port)], e.rankNo);
    }
  }

  /** What a node other than 0 makes of the broadcast port: the communicator that has it, or
      else the one whose work it had found. */
  method FindPort(ports: seq<nat>, port: nat, own: nat) returns (comm: nat)
    requires own < |ports|
    ensures comm < |ports|
    ensures if port in ports then ports[comm] == port && port !in ports[..comm] else comm == own
  {
    comm := own;
    for i := 0 to |ports|
      invariant port !in ports[..i] && comm == own
    {
      if port == ports[i] {
        comm := i;
        break;
      }
    }
  }

  /** What node i makes of the broadcast: the entry if it has the port, else what it found. */
  function Target(p: Net, i: nat, own: Entry, e: Entry): Entry
    requires i < |p.ports|
  {
    if i == 0 || e.port in p.ports[i] then e else own
  }

  // ---- all nodes -----------------------------------------------------------------------------

  datatype Action =
    | Post(i: nat, e: Entry) | Pick(i: nat, e: Entry) | Bcast | Ready(i: nat) | Reduce | Finish(i: nat)

  predicate AllInBcast(p: Net, s: State) {
    Shape(p, s) && forall i :: 0 <= i < Nodes(p) ==> s.thread[i].InBcast?
  }

  predicate AllInReduce(p: Net, s: State) {
    Shape(p, s) && forall i :: 0 <= i < Nodes(p) ==> s.thread[i].InReduce?
  }

  /** A rank posts when its entry is FREE; a thread that was told what to do waits until that
      entry is WORK. */
  ghost predicate Enabled(p: Net, s: State, a: Action)
    requires Valid(p)
  {
    && Shape(p, s)
    && match a
       case Post(i, e) => i < Nodes(p) && Posted(s, i, e) < Posts(p, i, e) && !Work(s, i, e)
       case Pick(i, e) => i < Nodes(p) && s.thread[i] == Idle && Finds(p, s, i, e)
       case Bcast => AllInBcast(p, s)
       case Ready(i) => i < Nodes(p) && s.thread[i].Chosen? && Work(s, i, s.thread[i].e)
       case Reduce => AllInReduce(p, s)
       case Finish(i) => i < Nodes(p) && s.thread[i].Reduced?
  }

  function Apply(p: Net, s: State, a: Action): (s': State)
    requires Valid(p) && Enabled(p, s, a)
    ensures Shape(p, s')
  {
    match a
    case Post(i, e) => s.(posted := s.posted[i := s.posted[i] + multiset{e}])
    case Pick(i, e) => s.(thread := s.thread[i := InBcast(e)])
    case Bcast =>
      var e := s.thread[0].own;
      s.(thread := seq(Nodes(p), i requires 0 <= i < Nodes(p) => Chosen(Target(p, i, s.thread[i].own, e))))
    case Ready(i) => s.(thread := s.thread[i := InReduce(s.thread[i].e)])
    case Reduce =>
      State(seq(Nodes(p), i requires 0 <= i < Nodes(p) => Reduced(s.thread[i].e)),
            s.posted, s.log, s.order + [s.thread[0].e])
    case Finish(i) => s.(thread := s.thread[i := Idle], log := s.log[i := s.log[i] + [s.thread[i].e]])
  }

  predicate Init(p: Net, s: State) {
    && Shape(p, s) && s.order == []
    && forall i :: 0 <= i < Nodes(p) ==> s.thread[i] == Idle && s.posted[i] == multiset{} && s.log[i] == []
  }

  ghost predicate Step(p: Net, s: State, s': State)
    requires Valid(p)
  {
    exists a :: Enabled(p, s, a) && s' == Apply(p, s, a)
  }

  ghost predicate Run(p: Net, tr: seq<State>)
    requires Valid(p)
  {
    && tr != [] && Init(p, tr[0])
    && (forall k :: 0 <= k < |tr| ==> Shape(p, tr[k]))
    && forall k :: 0 < k < |tr| ==> Step(p, tr[k - 1], tr[k])
  }

  lemma CountAppend(log: seq<Entry>, x: Entry, e: Entry)
    ensures Count(log + [x], e) == Count(log, e) + if x == e then 1 else 0
  {
  }

  // ---- posts and executions --------------------------------------------------------------------

  /** At most one post of an entry is not executed, what a thread works on is posted, and what
      it found is visible. */
  ghost predicate PostOk(p: Net, s: State, i: nat, e: Entry)
    requires Valid(p) && Shape(p, s) && i < Nodes(p)
  {
    && Count(s.log[i], e) <= Posted(s, i, e) <= Count(s.log[i], e) + 1
    && Posted(s, i, e) <= Posts(p, i, e)
    && (s.thread[i] == InBcast(e) || s.thread[i] == InReduce(e) || s.thread[i] == Reduced(e) ==> Work(s, i, e))
    && (s.thread[i] == InBcast(e) ==> Visible(p, i, e))
    && (i == 0 && s.thread[i] == Chosen(e) ==> Work(s, i, e))
  }

  ghost predicate PostsOk(p: Net, s: State) {
    Valid(p) && Shape(p, s) && forall i: nat, e :: i < Nodes(p) ==> PostOk(p, s, i, e)
  }

  lemma PostStep(p: Net, s: State, a: Action, i: nat, e: Entry)
    requires PostsOk(p, s) && Enabled(p, s, a) && i < Nodes(p)
    ensures PostOk(p, Apply(p, s, a), i, e)
  {
    assert PostOk(p, s, i, e);
    match a
    case Post(j, f) =>
    case Pick(j, f) =>
    case Bcast => if i == 0 { assert PostOk(p, s, 0, s.thread[0].own); }
    case Ready(j) =>
    case Reduce =>
    case Finish(j) => if j == i { CountAppend(s.log[i], s.thread[i].e, e); }
  }

  lemma {:induction false} RunPosts(p: Net, tr: seq<State>)
    requires Valid(p) && Run(p, tr)
    ensures PostsOk(p, tr[|tr| - 1])
    decreases |tr|
  {
    if |tr| > 1 {
      var s, a := LastStep(p, tr);
      var s' := tr[|tr| - 1];
      RunPosts(p, tr[..|tr| - 1]);
      forall i: nat, e | i < Nodes(p) ensures PostOk(p, s', i, e) { PostStep(p, s, a, i, e); }
    }
  }

  lemma LastStep(p: Net, tr: seq<State>) returns (s: State, a: Action)
    requires Valid(p) && Run(p, tr) && |tr| > 1
    ensures Run(p, tr[..|tr| - 1]) && s == tr[..|tr| - 1][|tr| - 2] == tr[|tr| - 2]
    ensures Enabled(p, s, a) && tr[|tr| - 1] == Apply(p, s, a)
  {
    s := tr[|tr| - 2];
    assert Step(p, s, tr[|tr| - 1]);
    a :| Enabled(p, s, a) && tr[|tr| - 1] == Apply(p, s, a);
  }

  /** Each post is executed exactly once before its rank goes on: never more executions than
      posts, and a rank posts again only when all its posts have been executed. */
  lemma PostsAreExecutedOnce(p: Net, tr: seq<State>, i: nat, e: Entry)
    requires Valid(p) && Run(p, tr) && i < Nodes(p)
    ensures
      var s := tr[|tr| - 1];
      && Count(s.log[i], e) <= Posted(s, i, e) <= Count(s.log[i], e) + 1
      && (Enabled(p, s, Post(i, e)) ==> Posted(s, i, e) == Count(s.log[i], e))
      && (s.thread[i] == Reduced(e) ==> Posted(s, i, e) == Count(s.log[i], e) + 1)
  {
    RunPosts(p, tr);
    assert PostOk(p, tr[|tr| - 1], i, e);
  }

  // ---- runs are bounded ------------------------------------------------------------------------------

  function Rank(t: Thread): nat {
    match t case Idle => 0 case InBcast(_) => 1 case Chosen(_) => 2 case InReduce(_) => 3 case Reduced(_) => 4
  }

  function Progress(s: State, i: nat): nat
    requires i < |s.thread| == |s.posted| == |s.log|
  {
    |s.posted[i]| + 5 * |s.log[i]| + Rank(s.thread[i])
  }

  function Total(p: Net, s: State, k: nat): nat
    requires Shape(p, s) && k <= Nodes(p)
  {
    if k == 0 then 0 else Total(p, s, k - 1) + Progress(s, k - 1)
  }

  /** Posts of nodes 0..k-1, and the stages of the reduction under way. */
  function Budget(p: Net, k: nat): nat
    requires k <= |p.posts|
  {
    if k == 0 then 0 else Budget(p, k - 1) + 6 * |p.posts[k - 1]| + 4
  }

  predicate AtMost(a: multiset<Entry>, b: multiset<Entry>, e: Entry) {
    a[e] <= b[e]
  }

  lemma Fewer(a: multiset<Entry>, b: multiset<Entry>)
    requires forall e :: AtMost(a, b, e)
    ensures |a| <= |b|
  {
    forall e ensures a[e] + (b - a)[e] == b[e] { assert AtMost(a, b, e); }
    assert b == a + (b - a);
  }

  lemma {:induction false} WithinBudget(p: Net, s: State, k: nat)
    requires PostsOk(p, s) && k <= Nodes(p)
    ensures Total(p, s, k) <= Budget(p, k)
    decreases k
  {
    if k > 0 {
      WithinBudget(p, s, k - 1);
      var (log, posted, posts) := (multiset(s.log[k - 1]), s.posted[k - 1], p.posts[k - 1]);
      forall e ensures AtMost(log, posted, e) && AtMost(posted, posts, e) { assert PostOk(p, s, k - 1, e); }
      Fewer(posted, posts);
      Fewer(log, posted);
    }
  }

  /** The node that every action moves: its own, or node 0. */
  function Mover(a: Action): nat {
    match a case Post(i, _) => i case Pick(i, _) => i case Ready(i) => i case Finish(i) => i case _ => 0
  }

  lemma ProgressStep(p: Net, s: State, a: Action, i: nat)
    requires Valid(p) && Enabled(p, s, a) && i < Nodes(p)
    ensures Progress(Apply(p, s, a), i) >= Progress(s, i) + if i == Mover(a) then 1 else 0
  {
  }

  lemma {:induction false} TotalStep(p: Net, s: State, a: Action, k: nat)
    requires Valid(p) && Enabled(p, s, a) && k <= Nodes(p)
    ensures Total(p, Apply(p, s, a), k) >= Total(p, s, k) + if Mover(a) < k then 1 else 0
    decreases k
  {
    if k > 0 {
      TotalStep(p, s, a, k - 1);
      ProgressStep(p, s, a, k - 1);
    }
  }

  lemma {:induction false} RunTotal(p: Net, tr: seq<State>)
    requires Valid(p) && Run(p, tr)
    ensures |tr| <= 1 + Total(p, tr[|tr| - 1], Nodes(p))
    decreases |tr|
  {
    if |tr| > 1 {
      var s, a := LastStep(p, tr);
      RunTotal(p, tr[..|tr| - 1]);
      TotalStep(p, s, a, Nodes(p));
    }
  }

  /** Runs are bounded by what there is to post, whatever is posted where. */
  lemma SharpTerminates(p: Net, tr: seq<State>)
    requires Valid(p) && Run(p, tr)
    ensures |tr| <= 1 + Budget(p, Nodes(p))
  {
    RunPosts(p, tr);
    RunTotal(p, tr);
    WithinBudget(p, tr[|tr| - 1], Nodes(p));
  }

  // ---- when the nodes can be confused ---------------------------------------------------

  predicate Knows(p: Net, j: nat, e: Entry)
    requires Valid(p) && j < Nodes(p)
  {
    e.port in p.ports[j]
  }

  /** Some rank of node j will post f, and node j's thread will see it. */
  predicate Offers(p: Net, j: nat, f: Entry)
    requires Valid(p) && j < Nodes(p)
  {
    Visible(p, j, f) && Posts(p, j, f) > 0
  }

  /** Node j can follow a broadcast of e to the end: it finds work to enter the broadcast with
      and, if it has the port, will have work for e. */
  ghost predicate CanFollow(p: Net, j: nat, e: Entry)
    requires Valid(p) && j < Nodes(p)
  {
    (exists f :: Offers(p, j, f)) && (Knows(p, j, e) ==> Posts(p, j, e) > 0)
  }

  ghost predicate Confuses(p: Net, e: Entry)
    requires Valid(p)
  {
    && Offers(p, 0, e)
    && (forall j :: 0 < j < Nodes(p) ==> CanFollow(p, j, e))
    && exists j :: 0 < j < Nodes(p) && !Knows(p, j, e)
  }

  /** Node 0 has visible work under a port that some node does not have, and all can go on. */
  ghost predicate Confusable(p: Net)
    requires Valid(p)
  {
    exists e :: Confuses(p, e)
  }

  // ---- invariant ----------------------------------------------------------------------------

  predicate Busy(t: Thread) {
    t.Chosen? || t.InReduce?
  }

  function Doing(t: Thread): Entry
    requires Busy(t)
  {
    match t case Chosen(e) => e case InReduce(e) => e
  }

  /** A thread that has finished its part of the last reduction has logged all, the others
      all but the last. */
  predicate LogOk(p: Net, s: State, i: nat)
    requires Shape(p, s) && i < Nodes(p)
  {
    if s.thread[i].Reduced? then s.log[i] + [s.thread[i].e] == s.order else s.log[i] == s.order
  }

  /** Between broadcast and reduction all nodes do the same, or one of them waits for ever. */
  ghost predicate RoundOk(p: Net, s: State, i: nat)
    requires Valid(p) && Shape(p, s) && i < Nodes(p)
  {
    Busy(s.thread[i]) ==>
      && (forall j :: 0 <= j < Nodes(p) ==> Busy(s.thread[j]))
      && (AllDoTheSame(p, s) || SomeoneStuck(p, s))
  }

  predicate AllDoTheSame(p: Net, s: State)
    requires Valid(p) && Shape(p, s)
  {
    forall j :: 0 <= j < Nodes(p) && Busy(s.thread[0]) && Busy(s.thread[j]) ==> Doing(s.thread[j]) == Doing(s.thread[0])
  }

  ghost predicate SomeoneStuck(p: Net, s: State)
    requires Valid(p) && Shape(p, s)
  {
    exists j :: 0 <= j < Nodes(p) && s.thread[j].Chosen? && Posts(p, j, s.thread[j].e) == 0
  }

  ghost predicate Inv(p: Net, s: State) {
    PostsOk(p, s) && forall i :: 0 <= i < Nodes(p) ==> LogOk(p, s, i) && RoundOk(p, s, i)
  }

  lemma InitInv(p: Net, s: State)
    requires Valid(p) && Init(p, s)
    ensures Inv(p, s)
  {
  }

  lemma LogStep(p: Net, s: State, a: Action, i: nat)
    requires Inv(p, s) && Enabled(p, s, a) && i < Nodes(p)
    ensures LogOk(p, Apply(p, s, a), i)
  {
    assert LogOk(p, s, i);
    if a.Reduce? { AllTheSame(p, s); }
  }

  /** When the reduction completes, nobody was stuck: all did the same. */
  lemma AllTheSame(p: Net, s: State)
    requires Inv(p, s) && AllInReduce(p, s)
    ensures forall j :: 0 <= j < Nodes(p) ==> s.thread[j].e == s.thread[0].e
  {
    assert RoundOk(p, s, 0);
    forall j | 0 <= j < Nodes(p) ensures Doing(s.thread[j]) == Doing(s.thread[0]) { }
  }

  lemma RoundStep(p: Net, s: State, a: Action, i: nat)
    requires Inv(p, s) && Enabled(p, s, a) && !Confusable(p) && i < Nodes(p)
    ensures RoundOk(p, Apply(p, s, a), i)
  {
    var s' := Apply(p, s, a);
    assert RoundOk(p, s, i);
    match a
    case Bcast => BcastRound(p, s);
    case Ready(k) => ReadyRound(p, s, k, i);
    case _ =>
  }

  lemma ReadyRound(p: Net, s: State, k: nat, i: nat)
    requires Inv(p, s) && Enabled(p, s, Ready(k)) && i < Nodes(p)
    ensures RoundOk(p, Apply(p, s, Ready(k)), i)
  {
    var s' := Apply(p, s, Ready(k));
    assert RoundOk(p, s, k) && PostOk(p, s, k, s.thread[k].e);
    if SomeoneStuck(p, s) {
      var j: nat :| j < Nodes(p) && s.thread[j].Chosen? && Posts(p, j, s.thread[j].e) == 0;
      assert s'.thread[j].Chosen?;
    }
  }

  /** A broadcast that not everyone understands leaves somebody stuck. */
  lemma BcastRound(p: Net, s: State)
    requires Inv(p, s) && AllInBcast(p, s) && !Confusable(p)
    ensures
      var s' := Apply(p, s, Bcast);
      (forall j :: 0 <= j < Nodes(p) ==> s'.thread[j] == Chosen(s.thread[0].own)) || SomeoneStuck(p, s')
  {
    var (s', e) := (Apply(p, s, Bcast), s.thread[0].own);
    assert PostOk(p, s, 0, e);
    if k: nat :| 0 < k < Nodes(p) && !Knows(p, k, e) {
      assert !Confuses(p, e) && Offers(p, 0, e);
      var j: nat :| 0 < j < Nodes(p) && !CanFollow(p, j, e);
      var own := s.thread[j].own;
      assert PostOk(p, s, j, own);
      assert Offers(p, j, own);
      assert s'.thread[j] == Chosen(e);
    } else {
      forall j: nat | j < Nodes(p) ensures s'.thread[j] == Chosen(e) { assert j == 0 || Knows(p, j, e); }
    }
  }

  lemma StepInv(p: Net, s: State, a: Action)
    requires Inv(p, s) && Enabled(p, s, a) && !Confusable(p)
    ensures Inv(p, Apply(p, s, a))
  {
    var s' := Apply(p, s, a);
    forall i | 0 <= i < Nodes(p) ensures LogOk(p, s', i) && RoundOk(p, s', i) {
      LogStep(p, s, a, i);
      RoundStep(p, s, a, i);
    }
    forall i: nat, e | i < Nodes(p) ensures PostOk(p, s', i, e) { PostStep(p, s, a, i, e); }
  }

  lemma {:induction false} RunInv(p: Net, tr: seq<State>)
    requires Valid(p) && Run(p, tr) && !Confusable(p)
    ensures Inv(p, tr[|tr| - 1])
    decreases |tr|
  {
    if |tr| == 1 {
      InitInv(p, tr[0]);
    } else {
      var s, a := LastStep(p, tr);
      RunInv(p, tr[..|tr| - 1]);
      StepInv(p, s, a);
    }
  }

  // ---- exactly when the nodes agree ---------------------------------------------------------------

  predicate IsPrefix(a: seq<Entry>, b: seq<Entry>) {
    |a| <= |b| && b[..|a|] == a
  }

  /** The nodes agree: what two of them have executed is one sequence, as far as both are. */
  predicate Agree(s: State, i: nat, j: nat)
    requires i < |s.log| && j < |s.log|
  {
    IsPrefix(s.log[i], s.log[j]) || IsPrefix(s.log[j], s.log[i])
  }

  lemma LogsAgree(p: Net, s: State, i: nat, j: nat)
    requires Inv(p, s) && i < Nodes(p) && j < Nodes(p)
    ensures Agree(s, i, j)
  {
    assert LogOk(p, s, i) && LogOk(p, s, j);
    forall k | k == i || k == j ensures IsPrefix(s.log[k], s.order) && |s.log[k]| + 1 >= |s.order| {
      if s.thread[k].Reduced? { assert (s.log[k] + [s.thread[k].e])[..|s.log[k]|] == s.log[k]; }
    }
    Prefixes(s.log[i], s.log[j], s.order);
  }

  lemma Prefixes(a: seq<Entry>, b: seq<Entry>, c: seq<Entry>)
    requires IsPrefix(a, c) && IsPrefix(b, c)
    ensures IsPrefix(a, b) || IsPrefix(b, a)
  {
  }

  /** The m-th execution of an entry combines the m-th posts of all nodes: when the nodes meet
      in a reduction they do the same entry, have executed it equally often, and the post that
      each contributes is the one after as many posts. */
  lemma ReductionPairsPosts(p: Net, tr: seq<State>, i: nat, j: nat)
    requires Valid(p) && Run(p, tr) && !Confusable(p) && i < Nodes(p) && j < Nodes(p) && AllInReduce(p, tr[|tr| - 1])
    ensures
      var s := tr[|tr| - 1];
      && s.thread[i] == s.thread[j]
      && var (e, m) := (s.thread[i].e, Count(s.log[i], s.thread[i].e));
         Count(s.log[j], e) == m && Posted(s, i, e) == Posted(s, j, e) == m + 1
  {
    var s := tr[|tr| - 1];
    RunInv(p, tr);
    AllTheSame(p, s);
    assert LogOk(p, s, i) && LogOk(p, s, j) && PostOk(p, s, i, s.thread[i].e) && PostOk(p, s, j, s.thread[j].e);
  }

  ghost predicate AlwaysAgree(p: Net)
    requires Valid(p)
  {
    forall tr: seq<State>, i: nat, j: nat :: AgreeAfter(p, tr, i, j)
  }

  ghost predicate AgreeAfter(p: Net, tr: seq<State>, i: nat, j: nat)
    requires Valid(p)
  {
    Run(p, tr) && i < Nodes(p) && j < Nodes(p) ==> Agree(tr[|tr| - 1], i, j)
  }

  /** In every run the nodes execute one common order, exactly when node 0 can never have
      visible work under a port that some node lacks while all nodes can go on. */
  lemma AgreementExact(p: Net)
    requires Valid(p)
    ensures AlwaysAgree(p) <==> !Confusable(p)
  {
    if !Confusable(p) {
      forall tr: seq<State>, i: nat, j: nat ensures AgreeAfter(p, tr, i, j) {
        if Run(p, tr) && i < Nodes(p) && j < Nodes(p) {
          RunInv(p, tr);
          LogsAgree(p, tr[|tr| - 1], i, j);
        }
      }
    } else {
      var e :| Confuses(p, e);
      var j: nat :| 0 < j < Nodes(p) && !Knows(p, j, e);
      var tr := Disagreement(p, e, j);
      assert !AgreeAfter(p, tr, 0, j);
    }
  }

  /** What node j will execute when node 0 broadcasts e. */
  function Does(p: Net, e: Entry, fs: seq<Entry>, j: nat): Entry
    requires Valid(p) && j < Nodes(p) == |fs|
  {
    if j == 0 || Knows(p, j, e) then e else fs[j]
  }

  /** What every node finds: e on node 0, anything visible on the others. */
  ghost predicate Found(p: Net, e: Entry, fs: seq<Entry>)
    requires Valid(p)
  {
    && |fs| == Nodes(p) && fs[0] == e
    && forall j :: 0 <= j < Nodes(p) ==> Offers(p, j, fs[j]) && Posts(p, j, Does(p, e, fs, j)) > 0
  }

  lemma {:induction false} OwnWork(p: Net, e: Entry, n: nat) returns (fs: seq<Entry>)
    requires Valid(p) && Confuses(p, e) && n <= Nodes(p)
    ensures |fs| == n && (n > 0 ==> fs[0] == e) && forall j :: 0 <= j < n ==> Offers(p, j, fs[j])
    decreases n
  {
    if n == 0 {
      fs := [];
    } else {
      fs := OwnWork(p, e, n - 1);
      var f := e;
      if n > 1 {
        assert CanFollow(p, n - 1, e);
        f :| Offers(p, n - 1, f);
      }
      fs := fs + [f];
    }
  }

  /** A run in which every node posts and finds fs[j], and executes it or e. */
  lemma Disagreement(p: Net, e: Entry, j: nat) returns (tr: seq<State>)
    requires Valid(p) && Confuses(p, e) && 0 < j < Nodes(p) && !Knows(p, j, e)
    ensures Run(p, tr) && !Agree(tr[|tr| - 1], 0, j)
  {
    var fs := OwnWork(p, e, Nodes(p));
    assert Found(p, e, fs) by {
      forall k: nat | k < Nodes(p) ensures Posts(p, k, Does(p, e, fs, k)) > 0 { assert k > 0 ==> CanFollow(p, k, e); }
    }
    tr := AllPost(p, e, fs, Nodes(p));
    tr := AllPick(p, e, fs, tr, Nodes(p));
    tr := Told(p, e, fs, tr);
    tr := AllReady(p, e, fs, tr, Nodes(p));
    tr := Done(p, e, fs, tr);
    tr := AllFinish(p, e, fs, tr, Nodes(p));
    assert fs[j] != e by { assert Offers(p, j, fs[j]); }
  }

  lemma Extend(p: Net, tr: seq<State>, a: Action) returns (tr': seq<State>)
    requires Valid(p) && Run(p, tr) && Enabled(p, tr[|tr| - 1], a)
    ensures Run(p, tr') && tr'[|tr'| - 1] == Apply(p, tr[|tr| - 1], a)
  {
    var s' := Apply(p, tr[|tr| - 1], a);
    tr' := tr + [s'];
    assert Step(p, tr[|tr| - 1], s');
  }

  predicate Empty(p: Net, s: State) {
    Shape(p, s) && s.order == [] && forall j :: 0 <= j < Nodes(p) ==> s.log[j] == []
  }

  /** The first k nodes have posted. */
  ghost predicate PostedTo(p: Net, fs: seq<Entry>, s: State, k: nat)
    requires |fs| == Nodes(p)
  {
    && Empty(p, s)
    && forall j :: 0 <= j < Nodes(p) ==>
         s.thread[j] == Idle && s.posted[j] == if j < k then multiset{fs[j]} else multiset{}
  }

  lemma AtRest(p: Net) returns (s: State)
    requires Valid(p)
    ensures Init(p, s) && Run(p, [s])
  {
    var n := Nodes(p);
    s := State(seq(n, _ => Idle), seq(n, _ => multiset{}), seq(n, _ => []), []);
  }

  lemma {:induction false} AllPost(p: Net, e: Entry, fs: seq<Entry>, k: nat) returns (tr: seq<State>)
    requires Valid(p) && Found(p, e, fs) && k <= Nodes(p)
    ensures Run(p, tr) && PostedTo(p, fs, tr[|tr| - 1], k)
    decreases k
  {
    if k == 0 {
      var s := AtRest(p);
      tr := [s];
    } else {
      tr := AllPost(p, e, fs, k - 1);
      assert Offers(p, k - 1, fs[k - 1]);
      tr := Extend(p, tr, Post(k - 1, fs[k - 1]));
    }
  }

  /** All have posted, the first k have found it. */
  ghost predicate PickedTo(p: Net, fs: seq<Entry>, s: State, k: nat)
    requires |fs| == Nodes(p)
  {
    && Empty(p, s)
    && (forall j :: 0 <= j < Nodes(p) ==> s.thread[j] == if j < k then InBcast(fs[j]) else Idle)
    && forall j :: 0 <= j < Nodes(p) ==> s.posted[j] == multiset{fs[j]}
  }

  lemma {:induction false} AllPick(p: Net, e: Entry, fs: seq<Entry>, tr0: seq<State>, k: nat) returns (tr: seq<State>)
    requires Valid(p) && Found(p, e, fs) && k <= Nodes(p) && Run(p, tr0) && PostedTo(p, fs, tr0[|tr0| - 1], Nodes(p))
    ensures Run(p, tr) && PickedTo(p, fs, tr[|tr| - 1], k)
    decreases k
  {
    if k == 0 {
      tr := tr0;
    } else {
      tr := AllPick(p, e, fs, tr0, k - 1);
      assert Offers(p, k - 1, fs[k - 1]);
      tr := OnePick(p, fs, tr, k - 1);
    }
  }

  lemma OnePick(p: Net, fs: seq<Entry>, tr0: seq<State>, j: nat) returns (tr: seq<State>)
    requires Valid(p) && |fs| == Nodes(p) && j < Nodes(p) && Run(p, tr0) && PickedTo(p, fs, tr0[|tr0| - 1], j)
    requires Offers(p, j, fs[j])
    ensures Run(p, tr) && PickedTo(p, fs, tr[|tr| - 1], j + 1)
  {
    OnlyWork(p, fs, tr0[|tr0| - 1], j);
    tr := Extend(p, tr0, Pick(j, fs[j]));
  }

  /** An entry that is the only one with work is found. */
  lemma OnlyWork(p: Net, fs: seq<Entry>, s: State, j: nat)
    requires Valid(p) && |fs| == Nodes(p) && j < Nodes(p) && PickedTo(p, fs, s, j) && Offers(p, j, fs[j])
    ensures Finds(p, s, j, fs[j])
  {
    assert s.posted[j] == multiset{fs[j]} && s.log[j] == [];
    forall f | Work(s, j, f) ensures f == fs[j] { }
  }

  /** The broadcast is over, and the first k are in the reduction, having posted what they
      were told. */
  ghost predicate ReadyTo(p: Net, e: Entry, fs: seq<Entry>, s: State, k: nat)
    requires Valid(p) && |fs| == Nodes(p)
  {
    && Empty(p, s)
    && forall j :: 0 <= j < Nodes(p) ==>
         if j < k then s.thread[j] == InReduce(Does(p, e, fs, j))
         else s.thread[j] == Chosen(Does(p, e, fs, j)) && s.posted[j] == multiset{fs[j]}
  }

  lemma Told(p: Net, e: Entry, fs: seq<Entry>, tr0: seq<State>) returns (tr: seq<State>)
    requires Valid(p) && Found(p, e, fs) && Run(p, tr0) && PickedTo(p, fs, tr0[|tr0| - 1], Nodes(p))
    ensures Run(p, tr) && ReadyTo(p, e, fs, tr[|tr| - 1], 0)
  {
    tr := Extend(p, tr0, Bcast);
  }

  lemma {:induction false} AllReady(p: Net, e: Entry, fs: seq<Entry>, tr0: seq<State>, k: nat) returns (tr: seq<State>)
    requires Valid(p) && Found(p, e, fs) && k <= Nodes(p) && Run(p, tr0) && ReadyTo(p, e, fs, tr0[|tr0| - 1], 0)
    ensures Run(p, tr) && ReadyTo(p, e, fs, tr[|tr| - 1], k)
    decreases k
  {
    if k == 0 {
      tr := tr0;
    } else {
      tr := AllReady(p, e, fs, tr0, k - 1);
      tr := OneReady(p, e, fs, tr, k - 1);
    }
  }

  lemma OneReady(p: Net, e: Entry, fs: seq<Entry>, tr0: seq<State>, j: nat) returns (tr: seq<State>)
    requires Valid(p) && Found(p, e, fs) && j < Nodes(p) && Run(p, tr0) && ReadyTo(p, e, fs, tr0[|tr0| - 1], j)
    ensures Run(p, tr) && ReadyTo(p, e, fs, tr[|tr| - 1], j + 1)
  {
    tr := tr0;
    var d := Does(p, e, fs, j);
    assert tr0[|tr0| - 1].posted[j] == multiset{fs[j]};
    if d != fs[j] { tr := Extend(p, tr, Post(j, d)); }
    assert Work(tr[|tr| - 1], j, d);
    tr := Extend(p, tr, Ready(j));
  }

  /** The reduction is over, and the first k have logged it. */
  predicate FinishedTo(p: Net, e: Entry, fs: seq<Entry>, s: State, k: nat)
    requires Valid(p) && |fs| == Nodes(p)
  {
    && Shape(p, s)
    && (forall j :: 0 <= j < Nodes(p) ==> s.thread[j] == if j < k then Idle else Reduced(Does(p, e, fs, j)))
    && forall j :: 0 <= j < Nodes(p) ==> s.log[j] == if j < k then [Does(p, e, fs, j)] else []
  }

  lemma Done(p: Net, e: Entry, fs: seq<Entry>, tr0: seq<State>) returns (tr: seq<State>)
    requires Valid(p) && |fs| == Nodes(p) && Run(p, tr0) && ReadyTo(p, e, fs, tr0[|tr0| - 1], Nodes(p))
    ensures Run(p, tr) && FinishedTo(p, e, fs, tr[|tr| - 1], 0)
  {
    var s := tr0[|tr0| - 1];
    assert forall j :: 0 <= j < Nodes(p) ==> s.thread[j] == InReduce(Does(p, e, fs, j));
    tr := Extend(p, tr0, Reduce);
  }

  lemma {:induction false} AllFinish(p: Net, e: Entry, fs: seq<Entry>, tr0: seq<State>, k: nat) returns (tr: seq<State>)
    requires Valid(p) && |fs| == Nodes(p) && k <= Nodes(p) && Run(p, tr0) && FinishedTo(p, e, fs, tr0[|tr0| - 1], 0)
    ensures Run(p, tr) && FinishedTo(p, e, fs, tr[|tr| - 1], k)
    decreases k
  {
    if k == 0 {
      tr := tr0;
    } else {
      tr := AllFinish(p, e, fs, tr0, k - 1);
      var d := Does(p, e, fs, k - 1);
      assert [] + [d] == [d];
      tr := Extend(p, tr, Finish(k - 1));
    }
  }

  // ---- exactly when everybody finishes -----------------------------------------------------------------

  /** All ranks of a reduction take part: equal posts on all nodes. */
  ghost predicate Collective(p: Net)
    requires Valid(p)
  {
    forall i, j, e :: 0 <= i < Nodes(p) && 0 <= j < Nodes(p) ==> Posts(p, i, e) == Posts(p, j, e)
  }

  /** Every rank that posts has a number that its node's thread looks at. */
  ghost predicate AllVisible(p: Net)
    requires Valid(p)
  {
    forall i: nat, e :: i < Nodes(p) && e in p.posts[i] ==> e.rankNo < p.bound[i]
  }

  ghost predicate CanStep(p: Net, s: State, a: Action)
    requires Valid(p)
  {
    Enabled(p, s, a)
  }

  ghost predicate SomeoneCanStep(p: Net, s: State)
    requires Valid(p)
  {
    exists a :: CanStep(p, s, a)
  }

  /** Some post of e on node i is not executed yet, or has not been made yet. */
  predicate Unserved(p: Net, s: State, i: nat, e: Entry)
    requires i < |p.posts| && i < |s.log|
  {
    Count(s.log[i], e) < Posts(p, i, e)
  }

  lemma CollectiveKnows(p: Net, e: Entry, j: nat)
    requires Valid(p) && Collective(p) && Posts(p, 0, e) > 0 && j < Nodes(p)
    ensures Knows(p, j, e)
  {
    assert Posts(p, j, e) == Posts(p, 0, e);
  }

  /** Collective posting leaves nobody confused. */
  lemma CollectiveAgrees(p: Net)
    requires Valid(p) && Collective(p)
    ensures !Confusable(p)
  {
    forall e ensures !Confuses(p, e) {
      if Posts(p, 0, e) > 0 {
        forall j: nat | j < Nodes(p) ensures Knows(p, j, e) { CollectiveKnows(p, e, j); }
      }
    }
  }

  /** Then all nodes do the same between broadcast and reduction. */
  lemma {:induction false} RunSame(p: Net, tr: seq<State>)
    requires Valid(p) && Collective(p) && Run(p, tr)
    ensures AllDoTheSame(p, tr[|tr| - 1])
    decreases |tr|
  {
    if |tr| > 1 {
      var s, a := LastStep(p, tr);
      var before := tr[..|tr| - 1];
      RunSame(p, before);
      CollectiveAgrees(p);
      RunInv(p, before);
      SameStep(p, s, a);
    }
  }

  lemma SameStep(p: Net, s: State, a: Action)
    requires Inv(p, s) && Collective(p) && Enabled(p, s, a) && AllDoTheSame(p, s)
    ensures AllDoTheSame(p, Apply(p, s, a))
  {
    if a.Bcast? {
      var e := s.thread[0].own;
      assert PostOk(p, s, 0, e);
      forall j: nat | j < Nodes(p) ensures Apply(p, s, a).thread[j] == Chosen(e) { CollectiveKnows(p, e, j); }
    }
  }

  /** If all that is posted is visible, then as long as some post is not executed on some
      node, something can happen. */
  lemma SharpNeverDeadlocks(p: Net, tr: seq<State>, i: nat, e: Entry)
    requires Valid(p) && Collective(p) && AllVisible(p) && Run(p, tr) && i < Nodes(p) && Unserved(p, tr[|tr| - 1], i, e)
    ensures SomeoneCanStep(p, tr[|tr| - 1])
  {
    var s := tr[|tr| - 1];
    CollectiveAgrees(p);
    RunInv(p, tr);
    RunSame(p, tr);
    if k: nat :| k < Nodes(p) && s.thread[k].Reduced? {
      assert CanStep(p, s, Finish(k));
    } else if Busy(s.thread[0]) {
      BusyGoesOn(p, s);
    } else {
      QuietGoesOn(p, s, i, e);
    }
  }

  lemma PostOrWork(p: Net, s: State, i: nat, e: Entry)
    requires Inv(p, s) && i < Nodes(p) && Unserved(p, s, i, e)
    ensures Work(s, i, e) || CanStep(p, s, Post(i, e))
  {
    assert PostOk(p, s, i, e);
  }

  lemma BusyGoesOn(p: Net, s: State)
    requires Inv(p, s) && Collective(p) && AllDoTheSame(p, s) && Busy(s.thread[0])
    ensures SomeoneCanStep(p, s)
  {
    assert RoundOk(p, s, 0);
    if k: nat :| k < Nodes(p) && s.thread[k].Chosen? {
      var e := Doing(s.thread[0]);
      assert PostOk(p, s, 0, e) && LogOk(p, s, 0) && LogOk(p, s, k);
      assert Posts(p, k, e) == Posts(p, 0, e);
      PostOrWork(p, s, k, e);
      assert CanStep(p, s, Ready(k)) || CanStep(p, s, Post(k, e));
    } else {
      assert forall k :: 0 <= k < Nodes(p) ==> Busy(s.thread[k]);
      assert CanStep(p, s, Reduce);
    }
  }

  lemma QuietGoesOn(p: Net, s: State, i: nat, e: Entry)
    requires Inv(p, s) && Collective(p) && AllVisible(p) && i < Nodes(p) && Unserved(p, s, i, e)
    requires !Busy(s.thread[0]) && forall k :: 0 <= k < Nodes(p) ==> !s.thread[k].Reduced?
    ensures SomeoneCanStep(p, s)
  {
    if k: nat :| k < Nodes(p) && !s.thread[k].InBcast? {
      assert RoundOk(p, s, k);
      assert s.thread[k] == Idle;
      assert LogOk(p, s, i) && LogOk(p, s, k) && Posts(p, i, e) == Posts(p, k, e);
      PostOrWork(p, s, k, e);
      if Work(s, k, e) {
        assert e in p.posts[k];
        var first := SomethingFound(p, s, k, e);
        assert CanStep(p, s, Pick(k, first));
      }
    } else {
      assert CanStep(p, s, Bcast);
    }
  }

  // ---- a rank that nobody sees ------------------------------------------------------------------------

  /** A thread that is at work has visible work, and the last thing that a node executed was
      visible to it or something is left. */
  ghost predicate LastOk(p: Net, s: State, i: nat)
    requires Valid(p) && Shape(p, s) && i < Nodes(p)
  {
    && (s.thread[i] != Idle ==> exists f :: Visible(p, i, f) && Work(s, i, f))
    && (s.log[i] != [] && !Visible(p, i, s.log[i][|s.log[i]| - 1]) ==> exists f :: Unserved(p, s, i, f))
  }

  lemma LastStepOk(p: Net, s: State, a: Action, i: nat)
    requires PostsOk(p, s) && Enabled(p, s, a) && i < Nodes(p) && LastOk(p, s, i)
    ensures LastOk(p, Apply(p, s, a), i)
  {
    var s' := Apply(p, s, a);
    if s'.thread[i] != Idle {
      if a.Pick? && a.i == i {
        assert Work(s', i, a.e);
      } else {
        var f :| Visible(p, i, f) && Work(s, i, f);
        assert Work(s', i, f);
      }
    }
    if a == Finish(i) {
      FinishLeaves(p, s, i);
    } else if s.log[i] != [] && !Visible(p, i, s.log[i][|s.log[i]| - 1]) {
      var f :| Unserved(p, s, i, f);
      assert Unserved(p, s', i, f);
    }
  }

  /** Finishing an invisible entry leaves the one that the thread had found. */
  lemma FinishLeaves(p: Net, s: State, i: nat)
    requires PostsOk(p, s) && i < Nodes(p) && Enabled(p, s, Finish(i)) && LastOk(p, s, i)
    ensures
      var s' := Apply(p, s, Finish(i));
      !Visible(p, i, s'.log[i][|s'.log[i]| - 1]) ==> exists f :: Unserved(p, s', i, f)
  {
    var (s', d) := (Apply(p, s, Finish(i)), s.thread[i].e);
    var f :| Visible(p, i, f) && Work(s, i, f);
    assert PostOk(p, s, i, f);
    if !Visible(p, i, d) {
      CountAppend(s.log[i], d, f);
      assert Unserved(p, s', i, f);
    }
  }

  lemma {:induction false} RunLast(p: Net, tr: seq<State>, i: nat)
    requires Valid(p) && Run(p, tr) && i < Nodes(p)
    ensures LastOk(p, tr[|tr| - 1], i)
    decreases |tr|
  {
    if |tr| > 1 {
      var s, a := LastStep(p, tr);
      RunPosts(p, tr[..|tr| - 1]);
      RunLast(p, tr[..|tr| - 1], i);
      LastStepOk(p, s, a, i);
    }
  }

  predicate Grown(s: State, s': State) {
    |s.log| == |s'.log| && forall i :: 0 <= i < |s.log| ==> IsPrefix(s.log[i], s'.log[i])
  }

  /** A run can be extended until nothing more can happen. */
  lemma {:induction false} Exhaust(p: Net, tr: seq<State>) returns (tr': seq<State>)
    requires Valid(p) && Run(p, tr)
    ensures Run(p, tr') && !SomeoneCanStep(p, tr'[|tr'| - 1])
    ensures Grown(tr[|tr| - 1], tr'[|tr'| - 1])
    decreases 1 + Budget(p, Nodes(p)) - |tr|
  {
    SharpTerminates(p, tr);
    if SomeoneCanStep(p, tr[|tr| - 1]) {
      var a :| CanStep(p, tr[|tr| - 1], a);
      var s' := Apply(p, tr[|tr| - 1], a);
      assert Step(p, tr[|tr| - 1], s');
      var longer := tr + [s'];
      SharpTerminates(p, longer);
      tr' := Exhaust(p, longer);
    } else {
      tr' := tr;
    }
  }

  predicate Everywhere(p: Net, e: Entry)
    requires Valid(p)
  {
    forall j :: 0 <= j < Nodes(p) ==> Visible(p, j, e)
  }

  ghost predicate KeptOk(p: Net, m: multiset<Entry>, kept: multiset<Entry>, e: Entry)
    requires Valid(p)
  {
    kept[e] == if Everywhere(p, e) then m[e] else 0
  }

  lemma {:induction false} Kept(p: Net, m: multiset<Entry>) returns (kept: multiset<Entry>)
    requires Valid(p)
    ensures forall e :: KeptOk(p, m, kept, e)
    decreases |m|
  {
    if m == multiset{} {
      kept := multiset{};
    } else {
      var e :| e in m;
      var before := Kept(p, m - multiset{e});
      kept := if Everywhere(p, e) then before + multiset{e} else before;
      forall f ensures KeptOk(p, m, kept, f) { assert KeptOk(p, m - multiset{e}, before, f); }
    }
  }

  /** The same net without the posts that some node does not see. */
  lemma OnlySeen(p: Net) returns (q: Net)
    requires Valid(p) && Collective(p)
    ensures q.ports == p.ports && q.bound == p.bound && Valid(q) && Collective(q) && AllVisible(q)
    ensures forall i: nat, e :: i < Nodes(p) ==> Posts(q, i, e) == if Everywhere(p, e) then Posts(p, i, e) else 0
  {
    var kept := Kept(p, p.posts[0]);
    q := Net(p.ports, p.bound, seq(Nodes(p), _ => kept));
    forall i: nat, e | i < Nodes(p) ensures Posts(q, i, e) == if Everywhere(p, e) then Posts(p, i, e) else 0 {
      assert Posts(p, i, e) == Posts(p, 0, e) && KeptOk(p, p.posts[0], kept, e);
    }
    forall i: nat, e | i < Nodes(p) && e in q.posts[i] ensures Visible(p, i, e) && e.port in q.ports[i] {
      assert Posts(q, i, e) > 0;
    }
  }

  /** With fewer posts there are fewer runs. */
  lemma RunsAgain(q: Net, p: Net, tr: seq<State>)
    requires Valid(p) && Valid(q) && q.ports == p.ports && q.bound == p.bound && Run(q, tr)
    requires forall i: nat, e :: i < Nodes(p) ==> Posts(q, i, e) <= Posts(p, i, e)
    ensures Run(p, tr)
  {
    forall k | 0 < k < |tr| ensures Step(p, tr[k - 1], tr[k]) {
      var (s, s') := (tr[k - 1], tr[k]);
      assert Step(q, s, s');
      var a :| Enabled(q, s, a) && s' == Apply(q, s, a);
      StepAgain(q, p, s, a);
    }
  }

  lemma StepAgain(q: Net, p: Net, s: State, a: Action)
    requires Valid(p) && Valid(q) && q.ports == p.ports && q.bound == p.bound && Enabled(q, s, a)
    requires forall i: nat, e :: i < Nodes(p) ==> Posts(q, i, e) <= Posts(p, i, e)
    ensures Enabled(p, s, a) && Apply(p, s, a) == Apply(q, s, a)
  {
    if a.Pick? { assert Finds(q, s, a.i, a.e); }
  }

  ghost predicate NeverBlocks(p: Net)
    requires Valid(p)
  {
    forall tr: seq<State>, i: nat, e :: GoesOn(p, tr, i, e)
  }

  ghost predicate GoesOn(p: Net, tr: seq<State>, i: nat, e: Entry)
    requires Valid(p)
  {
    Run(p, tr) && i < Nodes(p) && Unserved(p, tr[|tr| - 1], i, e) ==> SomeoneCanStep(p, tr[|tr| - 1])
  }

  /** When all nodes post the same, no run ever blocks before everything is executed, exactly
      when the number of every rank that posts is below the rank count of the communicator that
      its node registered first. */
  lemma DeadlockExact(p: Net)
    requires Valid(p) && Collective(p)
    ensures NeverBlocks(p) <==> AllVisible(p)
  {
    if AllVisible(p) {
      forall tr: seq<State>, i: nat, e ensures GoesOn(p, tr, i, e) {
        if Run(p, tr) && i < Nodes(p) && Unserved(p, tr[|tr| - 1], i, e) { SharpNeverDeadlocks(p, tr, i, e); }
      }
    } else {
      var i: nat, e :| i < Nodes(p) && e in p.posts[i] && !(e.rankNo < p.bound[i]);
      UnseenBlocks(p, i, e);
    }
  }

  /** What some node does not see can be left to the end; then something stays. */
  lemma UnseenBlocks(p: Net, i: nat, e: Entry)
    requires Valid(p) && Collective(p) && i < Nodes(p) && Posts(p, i, e) > 0 && !Visible(p, i, e)
    ensures !NeverBlocks(p)
  {
    var seen, s := AllSeenDone(p);
    var tr := Exhaust(p, seen);
    var j, f := SomethingLeft(p, s, tr, i, e);
    assert !GoesOn(p, tr, j, f);
  }

  /** If all posts were executed, the last of them would be one that some node does not see; but
      what a node executes last it has seen, or something is left. */
  lemma SomethingLeft(p: Net, s: State, tr: seq<State>, i: nat, e: Entry) returns (j: nat, f: Entry)
    requires Valid(p) && Collective(p) && i < Nodes(p) && Posts(p, i, e) > 0 && !Visible(p, i, e)
    requires Shape(p, s) && forall i: nat, e :: i < Nodes(p) ==> SeenDone(p, s.log[i], i, e)
    requires Run(p, tr) && !SomeoneCanStep(p, tr[|tr| - 1]) && Grown(s, tr[|tr| - 1])
    ensures j < Nodes(p) && Unserved(p, tr[|tr| - 1], j, f)
  {
    var s' := tr[|tr| - 1];
    if Unserved(p, s', i, e) {
      j, f := i, e;
    } else {
      RunPosts(p, tr);
      assert SeenDone(p, s.log[i], i, e) && !Everywhere(p, e);
      var d := LastIsUnseen(p, s.log[i], i, s', e);
      j :| j < Nodes(p) && !Visible(p, j, d);
      RunLast(p, tr, j);
      SameLogs(p, tr, i, j);
      f :| Unserved(p, s', j, f);
    }
  }

  /** A node has executed e if all see it, and not otherwise. */
  predicate SeenDone(p: Net, log: seq<Entry>, i: nat, e: Entry)
    requires Valid(p) && i < Nodes(p)
  {
    Count(log, e) == if Everywhere(p, e) then Posts(p, i, e) else 0
  }

  /** All that every node sees can be executed before anything else is posted. */
  lemma AllSeenDone(p: Net) returns (tr: seq<State>, s': State)
    requires Valid(p) && Collective(p)
    ensures Run(p, tr) && s' == tr[|tr| - 1]
    ensures forall i: nat, e :: i < Nodes(p) ==> SeenDone(p, s'.log[i], i, e)
  {
    var q := OnlySeen(p);
    var s := AtRest(q);
    tr := Exhaust(q, [s]);
    RunsAgain(q, p, tr);
    RunPosts(q, tr);
    s' := tr[|tr| - 1];
    forall i: nat, e | i < Nodes(p) ensures SeenDone(p, s'.log[i], i, e) {
      assert PostOk(q, s', i, e) && Posts(q, i, e) == if Everywhere(p, e) then Posts(p, i, e) else 0;
      if Unserved(q, s', i, e) {
        SharpNeverDeadlocks(q, tr, i, e);
        assert false;
      }
    }
  }

  /** What is executed after that is not seen everywhere. */
  lemma LastIsUnseen(p: Net, before: seq<Entry>, i: nat, s: State, e: Entry) returns (d: Entry)
    requires PostsOk(p, s) && i < Nodes(p) && IsPrefix(before, s.log[i]) && Count(before, e) < Count(s.log[i], e)
    requires forall f: Entry :: SeenDone(p, before, i, f)
    ensures s.log[i] != [] && d == s.log[i][|s.log[i]| - 1] && !Everywhere(p, d)
  {
    var (log, more) := (s.log[i], s.log[i][|before|..]);
    assert log == before + more && multiset(log) == multiset(before) + multiset(more);
    assert e in more;
    d := more[|more| - 1];
    assert d in more && SeenDone(p, before, i, d) && PostOk(p, s, i, d);
  }

  /** When nothing more can happen the logs are equal. */
  lemma SameLogs(p: Net, tr: seq<State>, i: nat, j: nat)
    requires Valid(p) && Collective(p) && Run(p, tr) && i < Nodes(p) && j < Nodes(p) && !SomeoneCanStep(p, tr[|tr| - 1])
    ensures tr[|tr| - 1].log[i] == tr[|tr| - 1].log[j]
  {
    var s := tr[|tr| - 1];
    CollectiveAgrees(p);
    RunInv(p, tr);
    assert LogOk(p, s, i) && LogOk(p, s, j);
    assert !CanStep(p, s, Finish(i)) && !CanStep(p, s, Finish(j));
  }

  /** Two nodes; the first communicator has one rank a node, the second four.  Ranks 1 to 3 of
      the second are never found. */
  lemma HiddenRanksBlock() returns (p: Net)
    ensures p.bound == [1, 1] && p.ports == [[0, 1], [0, 1]]
    ensures p.posts == seq(2, _ => multiset{Entry(1, 0), Entry(1, 1), Entry(1, 2), Entry(1, 3)})
    ensures Valid(p) && Collective(p) && !NeverBlocks(p)
  {
    var m := multiset{Entry(1, 0), Entry(1, 1), Entry(1, 2), Entry(1, 3)};
    p := Net([[0, 1], [0, 1]], [1, 1], seq(2, _ => m));
    assert forall i, e :: 0 <= i < 2 && e in p.posts[i] ==> e.port == 1;
    assert Valid(p);
    assert Entry(1, 3) in p.posts[0] && !AllVisible(p);
    DeadlockExact(p);
  }
}
