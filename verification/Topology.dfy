/** The order that tcclNicRankList derives from the device table (src/init.cc): cards,
    nodes, and the ring over all cards. */
module Topology {
  const MAX_CARD_NUM: nat := 8

  /** A rank's device: address of its node, number of its card there (the device number
      divided by the devices of a card), physical number of the card. */
  datatype Dev = Dev(ip: int, card: int, phy: nat)

  /** What every rank knows: all devices, by rank; and which ranks are the first of a card. */
  datatype Table = Table(dev: seq<Dev>, lead: seq<bool>)

  predicate Sized(t: Table) {
    |t.lead| == |t.dev|
  }

  /** No device has the address that marks a claimed one; cards have known places. */
  ghost predicate Valid(t: Table) {
    && Sized(t)
    && (forall i :: 0 <= i < |t.dev| ==> t.dev[i].ip != -1 && t.dev[i].phy < MAX_CARD_NUM)
    && (forall i :: 0 <= i < |t.dev| ==> (t.lead[i] <==> Leader(t, i)))
  }

  /** tcclIsOneCard. */
  predicate OneCard(t: Table, i: nat, j: nat)
    requires i < |t.dev| && j < |t.dev|
  {
    t.dev[i].ip == t.dev[j].ip && t.dev[i].card == t.dev[j].card
  }

  /** The ranks below j on the card of rank i, in order. */
  function Members(t: Table, i: nat, j: nat): (ms: seq<nat>)
    requires i < |t.dev| && j <= |t.dev|
    ensures forall k :: 0 <= k < |ms| ==> ms[k] < j && OneCard(t, i, ms[k])
  {
    if j == 0 then [] else Members(t, i, j - 1) + if OneCard(t, i, j - 1) then [j - 1] else []
  }

  /** The first rank of a card stands for the card. */
  predicate Leader(t: Table, i: nat)
    requires i < |t.dev|
  {
    Members(t, i, i) == []
  }

  lemma {:induction false} MembersAre(t: Table, i: nat, j: nat, r: nat)
    requires i < |t.dev| && j <= |t.dev|
    ensures r in Members(t, i, j) <==> r < j && OneCard(t, i, r)
    decreases j
  {
    if j > 0 { MembersAre(t, i, j - 1, r); }
  }

  lemma {:induction false} MembersSame(t: Table, i: nat, h: nat, j: nat)
    requires i < |t.dev| && h < |t.dev| && j <= |t.dev| && OneCard(t, i, h)
    ensures Members(t, i, j) == Members(t, h, j)
    decreases j
  {
    if j > 0 { MembersSame(t, i, h, j - 1); }
  }

  lemma {:induction false} MembersGrow(t: Table, i: nat, j: nat, k: nat)
    requires i < |t.dev| && j <= k <= |t.dev|
    ensures |Members(t, i, j)| <= |Members(t, i, k)| && Members(t, i, k)[..|Members(t, i, j)|] == Members(t, i, j)
    decreases k
  {
    if j < k { MembersGrow(t, i, j, k - 1); }
  }

  lemma {:induction false} MembersDistinct(t: Table, i: nat, j: nat)
    requires i < |t.dev| && j <= |t.dev|
    ensures Distinct(Members(t, i, j))
    decreases j
  {
    if j > 0 { MembersDistinct(t, i, j - 1); }
  }

  /** The leader of the card of rank r. */
  function LeaderOf(t: Table, r: nat): (l: nat)
    requires r < |t.dev|
    ensures l < |t.dev| && OneCard(t, l, r)
  {
    Members(t, r, r + 1)[0]
  }

  lemma LeaderIs(t: Table, r: nat)
    requires r < |t.dev|
    ensures Leader(t, LeaderOf(t, r)) && r in Members(t, LeaderOf(t, r), |t.dev|)
    ensures forall l :: 0 <= l < |t.dev| && Leader(t, l) && OneCard(t, l, r) ==> l == LeaderOf(t, r)
  {
    var l := LeaderOf(t, r);
    FirstIsLeader(t, r, r + 1);
    MembersAre(t, l, |t.dev|, r);
    forall h | 0 <= h < |t.dev| && Leader(t, h) && OneCard(t, h, r) ensures h == l {
      MembersAre(t, h, h, l);
      MembersAre(t, l, l, h);
    }
  }

  lemma {:induction false} FirstIsLeader(t: Table, r: nat, j: nat)
    requires r < |t.dev| && j <= |t.dev| && Members(t, r, j) != []
    ensures Leader(t, Members(t, r, j)[0])
    decreases j
  {
    if Members(t, r, j - 1) != [] {
      FirstIsLeader(t, r, j - 1);
    } else {
      MembersSame(t, r, j - 1, j - 1);
    }
  }

  /** A leader is the first of its own list. */
  lemma LeaderFirst(t: Table, i: nat)
    requires i < |t.dev| && Leader(t, i)
    ensures Members(t, i, |t.dev|) != [] && Members(t, i, |t.dev|)[0] == i
  {
    assert Members(t, i, i + 1) == [i];
    MembersGrow(t, i, i + 1, |t.dev|);
  }

  // ---- cards of a node, in order ------------------------------------------------------

  predicate CardOf(t: Table, ip: int, j: nat)
    requires Sized(t) && j < |t.dev|
  {
    t.lead[j] && t.dev[j].ip == ip
  }

  function Pick(t: Table, ip: int, idx: nat, r: nat): (cs: seq<nat>)
    requires Sized(t) && r < |t.dev|
    ensures cs == if CardOf(t, ip, r) && t.dev[r].phy == idx then [r] else []
  {
    if CardOf(t, ip, r) && t.dev[r].phy == idx then [r] else []
  }

  /** The cards of a node with physical numbers below idx, or equal to it and below j. */
  function Collect(t: Table, ip: int, idx: nat, j: nat): (cs: seq<nat>)
    requires Sized(t) && j <= |t.dev|
    ensures forall k :: 0 <= k < |cs| ==> cs[k] < |t.dev| && CardOf(t, ip, cs[k])
    decreases idx, j
  {
    if j > 0 then Collect(t, ip, idx, j - 1) + Pick(t, ip, idx, j - 1)
    else if idx > 0 then Collect(t, ip, idx - 1, |t.dev|)
    else []
  }

  function NodeCards(t: Table, ip: int): (cs: seq<nat>)
    requires Sized(t)
    ensures forall k :: 0 <= k < |cs| ==> cs[k] < |t.dev| && CardOf(t, ip, cs[k])
  {
    Collect(t, ip, MAX_CARD_NUM, 0)
  }

  predicate Before(t: Table, idx: nat, j: nat, r: nat)
    requires r < |t.dev|
  {
    t.dev[r].phy < idx || (t.dev[r].phy == idx && r < j)
  }

  lemma {:induction false} CollectAre(t: Table, ip: int, idx: nat, j: nat, r: nat)
    requires Sized(t) && j <= |t.dev| && r < |t.dev|
    ensures r in Collect(t, ip, idx, j) <==> CardOf(t, ip, r) && Before(t, idx, j, r)
    decreases idx, j
  {
    if j > 0 {
      CollectAre(t, ip, idx, j - 1, r);
      assert r in Collect(t, ip, idx, j) <==> r in Collect(t, ip, idx, j - 1) || r in Pick(t, ip, idx, j - 1);
    } else if idx > 0 {
      CollectAre(t, ip, idx - 1, |t.dev|, r);
    }
  }

  lemma {:induction false} CollectDistinct(t: Table, ip: int, idx: nat, j: nat)
    requires Sized(t) && j <= |t.dev|
    ensures Distinct(Collect(t, ip, idx, j))
    decreases idx, j
  {
    if j > 0 {
      CollectDistinct(t, ip, idx, j - 1);
      CollectAre(t, ip, idx, j - 1, j - 1);
    } else if idx > 0 {
      CollectDistinct(t, ip, idx - 1, |t.dev|);
    }
  }

  // ---- nodes, in order --------------------------------------------------------------------

  /** The nodes of the cards whose leaders are below i, in the order of their first cards. */
  function NodeIps(t: Table, i: nat): (ips: seq<int>)
    requires Sized(t) && i <= |t.dev|
  {
    if i == 0 then []
    else
      var before := NodeIps(t, i - 1);
      if t.lead[i - 1] && t.dev[i - 1].ip !in before then before + [t.dev[i - 1].ip] else before
  }

  lemma {:induction false} NodeIpsAre(t: Table, i: nat, r: nat)
    requires Sized(t) && i <= |t.dev| && r < i && t.lead[r]
    ensures t.dev[r].ip in NodeIps(t, i)
    decreases i
  {
    if r < i - 1 { NodeIpsAre(t, i - 1, r); }
  }

  lemma {:induction false} NodeIpsDistinct(t: Table, i: nat)
    requires Sized(t) && i <= |t.dev|
    ensures forall a, b :: 0 <= a < b < |NodeIps(t, i)| ==> NodeIps(t, i)[a] != NodeIps(t, i)[b]
    decreases i
  {
    if i > 0 { NodeIpsDistinct(t, i - 1); }
  }

  /** All cards of the first i nodes: the order of the ring. */
  function Cards(t: Table, i: nat): (cs: seq<nat>)
    requires Sized(t) && i <= |NodeIps(t, |t.dev|)|
    ensures forall k :: 0 <= k < |cs| ==> cs[k] < |t.dev| && t.lead[cs[k]]
  {
    if i == 0 then [] else Cards(t, i - 1) + NodeCards(t, NodeIps(t, |t.dev|)[i - 1])
  }

  function AllCards(t: Table): (cs: seq<nat>)
    requires Sized(t)
    ensures forall k :: 0 <= k < |cs| ==> cs[k] < |t.dev| && t.lead[cs[k]]
  {
    Cards(t, |NodeIps(t, |t.dev|)|)
  }

  lemma NodeCardsAre(t: Table, ip: int, r: nat)
    requires Sized(t) && r < |t.dev| && t.dev[r].phy < MAX_CARD_NUM
    ensures r in NodeCards(t, ip) <==> CardOf(t, ip, r)
  {
    CollectAre(t, ip, MAX_CARD_NUM, 0, r);
  }

  lemma {:induction false} CardsAre(t: Table, i: nat, r: nat)
    requires Sized(t) && i <= |NodeIps(t, |t.dev|)| && r < |t.dev| && t.dev[r].phy < MAX_CARD_NUM
    ensures r in Cards(t, i) <==> t.lead[r] && t.dev[r].ip in NodeIps(t, |t.dev|)[..i]
    decreases i
  {
    if i > 0 {
      var ips := NodeIps(t, |t.dev|);
      CardsAre(t, i - 1, r);
      NodeCardsAre(t, ips[i - 1], r);
      assert ips[..i] == ips[..i - 1] + [ips[i - 1]];
      assert r in Cards(t, i) <==> r in Cards(t, i - 1) || r in NodeCards(t, ips[i - 1]);
    }
  }

  predicate Distinct(cs: seq<nat>) {
    forall a, b :: 0 <= a < b < |cs| ==> cs[a] != cs[b]
  }

  lemma DistinctAppend(xs: seq<nat>, ys: seq<nat>)
    requires Distinct(xs) && Distinct(ys) && forall a :: 0 <= a < |xs| ==> xs[a] !in ys
    ensures Distinct(xs + ys)
  {
  }

  predicate Phys(t: Table) {
    forall i :: 0 <= i < |t.dev| ==> t.dev[i].phy < MAX_CARD_NUM
  }

  lemma {:induction false} CardsDistinct(t: Table, i: nat)
    requires Sized(t) && Phys(t) && i <= |NodeIps(t, |t.dev|)|
    ensures Distinct(Cards(t, i))
    decreases i
  {
    if i > 0 {
      var (before, ip) := (Cards(t, i - 1), NodeIps(t, |t.dev|)[i - 1]);
      CardsDistinct(t, i - 1);
      CollectDistinct(t, ip, MAX_CARD_NUM, 0);
      forall a: nat | a < |before| ensures before[a] !in NodeCards(t, ip) { OtherNode(t, i, before[a]); }
      DistinctAppend(before, NodeCards(t, ip));
      assert Cards(t, i) == before + NodeCards(t, ip);
    }
  }

  lemma OtherNode(t: Table, i: nat, r: nat)
    requires Sized(t) && 0 < i <= |NodeIps(t, |t.dev|)| && r < |t.dev| && t.dev[r].phy < MAX_CARD_NUM
      && r in Cards(t, i - 1)
    ensures r !in NodeCards(t, NodeIps(t, |t.dev|)[i - 1])
  {
    CardsAre(t, i - 1, r);
    NodeCardsAre(t, NodeIps(t, |t.dev|)[i - 1], r);
    NodeIpsDistinct(t, |t.dev|);
    NotAgain(NodeIps(t, |t.dev|), i, t.dev[r].ip);
  }

  lemma NotAgain(ips: seq<int>, i: nat, ip: int)
    requires 0 < i <= |ips| && ip in ips[..i - 1] && forall a, b :: 0 <= a < b < |ips| ==> ips[a] != ips[b]
    ensures ip != ips[i - 1]
  {
  }

  /** The ring's order names every card exactly once. */
  lemma RingIsComplete(t: Table, r: nat)
    requires Valid(t) && r < |t.dev|
    ensures r in AllCards(t) <==> t.lead[r]
    ensures Distinct(AllCards(t))
  {
    var ips := NodeIps(t, |t.dev|);
    CardsAre(t, |ips|, r);
    CardsDistinct(t, |ips|);
    assert ips[..|ips|] == ips;
    if t.lead[r] { NodeIpsAre(t, |t.dev|, r); }
  }

  /** Every rank is on exactly one card's list: the lists partition the ranks, and two ranks
      share a list exactly when they are on one card. */
  lemma ListsPartition(t: Table, r: nat, l: nat)
    requires Valid(t) && r < |t.dev| && l < |t.dev| && t.lead[l]
    ensures r in Members(t, l, |t.dev|) <==> l == LeaderOf(t, r)
  {
    LeaderIs(t, r);
    MembersAre(t, l, |t.dev|, r);
  }

  // ---- uniform tables --------------------------------------------------------------------

  /** Every card has `ranks` ranks and every node `cards` cards. */
  ghost predicate Uniform(t: Table, ranks: nat, cards: nat) {
    && Valid(t) && ranks > 0 && cards > 0
    && (forall l :: 0 <= l < |t.dev| && t.lead[l] ==> |Members(t, l, |t.dev|)| == ranks)
    && EqualNodes(t, cards)
  }

  ghost predicate EqualNodes(t: Table, cards: nat)
    requires Sized(t)
  {
    forall i :: 0 <= i < |NodeIps(t, |t.dev|)| ==> |NodeCards(t, NodeIps(t, |t.dev|)[i])| == cards
  }
}
