/** The loops of tcclNicRankList (src/init.cc), and the ring they make. */
module TopologyHost {
  import opened Arith
  import opened Cycle
  import opened Topology

  /** What a rank learns about itself and its ring. */
  datatype Info = Info(rankList: seq<nat>, rankId: nat, cardId: nat, cardNum: nat, nodeId: nat, nodeNum: nat,
                       phyNextRank: nat, phyPrevRank: nat, phyCardRank: nat, allCardNum: nat, phyRankList: seq<nat>)

  // ---- rank lists ---------------------------------------------------------------------

  /** Some rank below i is on the card of rank j: its list has claimed j. */
  function Claimed(t: Table, i: nat, j: nat): bool
    requires i <= |t.dev| && j < |t.dev|
  {
    i > 0 && (OneCard(t, i - 1, j) || Claimed(t, i - 1, j))
  }

  lemma {:induction false} ClaimedIs(t: Table, i: nat, j: nat)
    requires i <= |t.dev| && j < |t.dev|
    ensures Claimed(t, i, j) <==> Members(t, j, i) != []
    decreases i
  {
    if i > 0 { ClaimedIs(t, i - 1, j); }
  }

  lemma ClaimedTogether(t: Table, i: nat, j: nat)
    requires Valid(t) && i < |t.dev| && j < |t.dev| && OneCard(t, i, j)
    ensures Claimed(t, i, j) <==> !t.lead[i]
  {
    ClaimedIs(t, i, j);
    MembersSame(t, i, j, i);
  }

  predicate TmpOk(t: Table, devtmp: seq<Dev>, i: nat, j: nat)
    requires i <= |t.dev| && j <= |t.dev|
  {
    && |devtmp| == |t.dev|
    && forall b :: 0 <= b < |t.dev| ==>
         devtmp[b] == if Claimed(t, i, b) || (b < j && i < |t.dev| && OneCard(t, i, b))
           then t.dev[b].(ip := -1, card := 0) else t.dev[b]
  }

  function ListOf(t: Table, i: nat): seq<nat>
    requires Sized(t) && i < |t.dev|
  {
    if t.lead[i] then Members(t, i, |t.dev|) else []
  }

  method RankLists(dev: seq<Dev>, ghost t: Table) returns (rankList: seq<seq<nat>>)
    requires Valid(t) && t.dev == dev
    ensures |rankList| == |dev| && forall i :: 0 <= i < |dev| ==> rankList[i] == ListOf(t, i)
  {
    var nranks := |dev|;
    var devtmp := dev;
    rankList := seq(nranks, _ => []);
    var i := 0;
    while i < nranks
      invariant i <= nranks && |rankList| == nranks && TmpOk(t, devtmp, i, 0)
      invariant forall a :: 0 <= a < i ==> rankList[a] == ListOf(t, a)
      invariant forall a :: i <= a < nranks ==> rankList[a] == []
    {
      var list;
      list, devtmp := OneList(dev, devtmp, i, t);
      rankList := rankList[i := list];
      i := i + 1;
    }
  }

  /** The inner loop: the list of rank i, and what is left unclaimed. */
  method OneList(dev: seq<Dev>, devtmp0: seq<Dev>, i: nat, ghost t: Table) returns (list: seq<nat>, devtmp: seq<Dev>)
    requires Valid(t) && t.dev == dev && i < |dev| && TmpOk(t, devtmp0, i, 0)
    ensures list == ListOf(t, i) && TmpOk(t, devtmp, i + 1, 0)
  {
    list, devtmp := [], devtmp0;
    var j := 0;
    while j < |dev|
      invariant j <= |dev| && TmpOk(t, devtmp, i, j)
      invariant list == if t.lead[i] then Members(t, i, j) else []
    {
      list, devtmp := ClaimNext(dev, devtmp, i, j, list, t);
      j := j + 1;
    }
    AllClaimed(t, devtmp, i);
  }

  method ClaimNext(dev: seq<Dev>, devtmp0: seq<Dev>, i: nat, j: nat, list0: seq<nat>, ghost t: Table)
    returns (list: seq<nat>, devtmp: seq<Dev>)
    requires Valid(t) && t.dev == dev && i < |dev| && j < |dev| && TmpOk(t, devtmp0, i, j)
    ensures TmpOk(t, devtmp, i, j + 1) && list == list0 + if t.lead[i] && OneCard(t, i, j) then [j] else []
  {
    list, devtmp := list0, devtmp0;
    MatchMeans(t, devtmp, i, j);
    if dev[i].ip == devtmp[j].ip && dev[i].card == devtmp[j].card {
      list := list + [j];
      devtmp := devtmp[j := devtmp[j].(ip := -1, card := 0)];
    }
  }

  /** An entry that is not blanked out matches exactly when the ranks share a card. */
  lemma MatchMeans(t: Table, devtmp: seq<Dev>, i: nat, j: nat)
    requires Valid(t) && i < |t.dev| && j < |t.dev| && TmpOk(t, devtmp, i, j)
    ensures t.dev[i].ip == devtmp[j].ip && t.dev[i].card == devtmp[j].card <==> t.lead[i] && OneCard(t, i, j)
    ensures t.dev[i].ip == devtmp[j].ip ==> devtmp[j] == t.dev[j]
    ensures TmpOk(t, if t.lead[i] && OneCard(t, i, j) then devtmp[j := devtmp[j].(ip := -1, card := 0)]
      else devtmp, i, j + 1)
  {
    if OneCard(t, i, j) { ClaimedTogether(t, i, j); }
  }

  lemma AllClaimed(t: Table, devtmp: seq<Dev>, i: nat)
    requires i < |t.dev| && TmpOk(t, devtmp, i, |t.dev|)
    ensures TmpOk(t, devtmp, i + 1, 0)
  {
  }

  // ---- card and node numbers -----------------------------------------------------------

  /** Cards of `cs` are numbered in order, the numbers of all others are as before. */
  predicate Numbered(cs: seq<nat>, cardId: seq<int>, was: seq<int>) {
    && |cardId| == |was|
    && (forall x :: 0 <= x < |cs| ==> cs[x] < |cardId| && cardId[cs[x]] == x)
    && (forall r :: 0 <= r < |was| && r !in cs ==> cardId[r] == was[r])
  }

  lemma NumberNext(cs: seq<nat>, cardId: seq<int>, was: seq<int>, r: nat)
    requires Numbered(cs, cardId, was) && r < |was| && r !in cs
    ensures Numbered(cs + [r], cardId[r := |cs|], was)
  {
  }

  /** What the numbering uses of the rank lists: a card's list is at its first rank. */
  predicate Known(t: Table, rankList: seq<seq<nat>>) {
    && Sized(t) && |rankList| == |t.dev|
    && (forall i :: 0 <= i < |t.dev| ==> t.dev[i].phy < MAX_CARD_NUM)
    && (forall i :: 0 <= i < |t.dev| ==> if t.lead[i] then rankList[i] != [] && rankList[i][0] == i
      else rankList[i] == [])
  }

  lemma ListsKnown(t: Table, rankList: seq<seq<nat>>)
    requires Valid(t) && |rankList| == |t.dev| && forall i :: 0 <= i < |t.dev| ==> rankList[i] == ListOf(t, i)
    ensures Known(t, rankList)
  {
    forall i: nat | i < |t.dev| && t.lead[i] ensures rankList[i] != [] && rankList[i][0] == i { LeaderFirst(t, i); }
  }

  /** One card, if it is the node's and has this physical number. */
  method NumberCard(dev: seq<Dev>, list: seq<nat>, ip: int, idx: nat, j: nat, cardId0: seq<int>, cardcnt0: nat,
                    ghost was: seq<int>, ghost t: Table) returns (cardId: seq<int>, cardcnt: nat)
    requires Sized(t) && t.dev == dev && j < |dev| && (list != [] && dev[j].ip == ip <==> CardOf(t, ip, j))
    requires Numbered(Collect(t, ip, idx, j), cardId0, was) && cardcnt0 == |Collect(t, ip, idx, j)| && |was| == |dev|
    ensures Numbered(Collect(t, ip, idx, j + 1), cardId, was) && cardcnt == |Collect(t, ip, idx, j + 1)|
  {
    cardId, cardcnt := cardId0, cardcnt0;
    CollectAre(t, ip, idx, j, j);
    if list != [] && dev[j].phy == idx && dev[j].ip == ip {
      NumberNext(Collect(t, ip, idx, j), cardId, was, j);
      cardId := cardId[j := cardcnt];
      cardcnt := cardcnt + 1;
    }
  }

  /** The cards of one node, by physical number and then by rank. */
  method NumberNode(dev: seq<Dev>, lists: seq<seq<nat>>, ip: int, cardId0: seq<int>, ghost t: Table)
      returns (cardId: seq<int>, cardcnt: nat)
    requires Sized(t) && t.dev == dev && |lists| == |cardId0| == |dev|
    requires forall j :: 0 <= j < |dev| ==> (lists[j] != [] && dev[j].ip == ip <==> CardOf(t, ip, j))
    ensures Numbered(NodeCards(t, ip), cardId, cardId0) && cardcnt == |NodeCards(t, ip)|
  {
    cardId, cardcnt := cardId0, 0;
    var idx := 0;
    while idx < MAX_CARD_NUM
      invariant idx <= MAX_CARD_NUM && Numbered(Collect(t, ip, idx, 0), cardId, cardId0)
        && cardcnt == |Collect(t, ip, idx, 0)|
    {
      var j := 0;
      while j < |dev|
        invariant j <= |dev| && Numbered(Collect(t, ip, idx, j), cardId, cardId0) && cardcnt == |Collect(t, ip, idx, j)|
      {
        cardId, cardcnt := NumberCard(dev, lists[j], ip, idx, j, cardId, cardcnt, cardId0, t);
        j := j + 1;
      }
      idx := idx + 1;
    }
  }

  /** Card x of a numbered node is where its numbers say. */
  predicate Placed(t: Table, x: nat, cardId: int, cardNum: nat, nodeId: int, ips: seq<int>)
    requires Sized(t) && x < |t.dev|
  {
    var cs := NodeCards(t, t.dev[x].ip);
    && 0 <= nodeId < |ips| && ips[nodeId] == t.dev[x].ip
    && 0 <= cardId < |cs| && cs[cardId] == x && cardNum == |cs|
  }

  /** After the cards below i: all cards of the nodes seen so far are placed. */
  predicate PlacedTo(t: Table, ips: seq<int>, cardId: seq<int>, cardNum: seq<nat>, nodeId: seq<int>)
    requires Sized(t)
  {
    && |cardId| == |cardNum| == |nodeId| == |t.dev|
    && forall x: nat :: x < |t.dev| ==> NumbersOk(t, x, ips, cardId[x], cardNum[x], nodeId[x])
  }

  predicate NumbersOk(t: Table, x: nat, ips: seq<int>, cardId: int, cardNum: nat, nodeId: int)
    requires Sized(t) && x < |t.dev|
  {
    t.lead[x] && t.dev[x].ip in ips ==> Placed(t, x, cardId, cardNum, nodeId, ips)
  }

  /** The lists of cards whose nodes have not been seen. */
  predicate Unseen(t: Table, ips: seq<int>, rankList: seq<seq<nat>>, lists: seq<seq<nat>>) {
    && |lists| == |rankList| == |t.dev|
    && forall x :: 0 <= x < |t.dev| ==> lists[x] == if t.dev[x].ip in ips then [] else rankList[x]
  }

  method Numbers(dev: seq<Dev>, rankList: seq<seq<nat>>, ghost t: Table)
    returns (cardId: seq<int>, cardNum: seq<nat>, nodeId: seq<int>, nodecnt: nat)
    requires Known(t, rankList) && t.dev == dev
    ensures PlacedTo(t, NodeIps(t, |dev|), cardId, cardNum, nodeId) && nodecnt == |NodeIps(t, |dev|)|
  {
    cardId, cardNum, nodeId := Unnumbered(|dev|);
    NoneSeen(t, rankList, cardId, cardNum, nodeId);
    var lists;
    cardId, cardNum, nodeId, nodecnt, lists := NumberAll(dev, rankList, cardId, cardNum, nodeId, t);
  }

  method Unnumbered(nranks: nat) returns (cardId: seq<int>, cardNum: seq<nat>, nodeId: seq<int>)
    ensures |cardId| == |cardNum| == |nodeId| == nranks
    ensures forall x :: 0 <= x < nranks ==> cardId[x] == nodeId[x] == -1 && cardNum[x] == 0
  {
    cardId, cardNum, nodeId := seq(nranks, _ => -1), seq(nranks, _ => 0), seq(nranks, _ => -1);
  }

  method NumberAll(dev: seq<Dev>,
      rankList: seq<seq<nat>>, cardId0: seq<int>, cardNum0: seq<nat>, nodeId0: seq<int>, ghost t: Table)
    returns (cardId: seq<int>, cardNum: seq<nat>, nodeId: seq<int>, nodecnt: nat, lists: seq<seq<nat>>)
    requires Known(t, rankList) && t.dev == dev && Seen(t, 0, rankList, rankList, cardId0, cardNum0, nodeId0, 0)
    ensures Seen(t, |dev|, rankList, lists, cardId, cardNum, nodeId, nodecnt)
  {
    lists := rankList;
    cardId, cardNum, nodeId, nodecnt := cardId0, cardNum0, nodeId0, 0;
    var i := 0;
    while i < |dev|
      invariant i <= |dev| && Seen(t, i, rankList, lists, cardId, cardNum, nodeId, nodecnt)
    {
      lists, cardId, cardNum, nodeId,
        nodecnt := NumberFrom(dev, i, rankList, lists, cardId, cardNum, nodeId, nodecnt, t);
      i := i + 1;
    }
  }

  /** The nodes of ranks 0 .. i-1 are numbered. */
  predicate Seen(t: Table, i: nat,
      rankList: seq<seq<nat>>, lists: seq<seq<nat>>, cardId: seq<int>, cardNum: seq<nat>, nodeId: seq<int>,
        nodecnt: nat)
    requires Sized(t) && i <= |t.dev|
  {
    PlacedTo(t, NodeIps(t, i), cardId, cardNum, nodeId) && nodecnt == |NodeIps(t, i)|
      && Unseen(t, NodeIps(t, i), rankList, lists)
  }

  lemma NoneSeen(t: Table, rankList: seq<seq<nat>>, cardId: seq<int>, cardNum: seq<nat>, nodeId: seq<int>)
    requires Known(t, rankList) && |cardId| == |cardNum| == |nodeId| == |t.dev|
    ensures Seen(t, 0, rankList, rankList, cardId, cardNum, nodeId, 0)
  {
  }

  /** The outer loop's body. */
  method NumberFrom(dev: seq<Dev>, i: nat,
      ghost rankList: seq<seq<nat>>, lists0: seq<seq<nat>>, cardId0: seq<int>, cardNum0: seq<nat>,
                    nodeId0: seq<int>, nodecnt0: nat, ghost t: Table)
    returns (lists: seq<seq<nat>>, cardId: seq<int>, cardNum: seq<nat>, nodeId: seq<int>, nodecnt: nat)
    requires Known(t, rankList) && t.dev == dev && i < |dev|
      && Seen(t, i, rankList, lists0, cardId0, cardNum0, nodeId0, nodecnt0)
    ensures Seen(t, i + 1, rankList, lists, cardId, cardNum, nodeId, nodecnt)
  {
    lists, cardId, cardNum, nodeId, nodecnt := lists0, cardId0, cardNum0, nodeId0, nodecnt0;
    ghost var ips := NodeIps(t, i);
    NextIp(t, i, ips, rankList, lists);
    if lists[i] != [] {
      lists, cardId, cardNum, nodeId := NextNode(dev, i, rankList, lists, cardId, cardNum, nodeId, nodecnt, ips, t);
      nodecnt := nodecnt + 1;
    }
  }

  lemma NextIp(t: Table, i: nat, ips: seq<int>, rankList: seq<seq<nat>>, lists: seq<seq<nat>>)
    requires Known(t, rankList) && i < |t.dev| && ips == NodeIps(t, i) && Unseen(t, ips, rankList, lists)
    ensures NodeIps(t, i + 1) == if lists[i] != [] then ips + [t.dev[i].ip] else ips
  {
  }

  /** Numbers the node of card i. */
  method NextNode(dev: seq<Dev>, i: nat,
      ghost rankList: seq<seq<nat>>, lists0: seq<seq<nat>>, cardId0: seq<int>, cardNum0: seq<nat>,
                  nodeId0: seq<int>, nodecnt: nat, ghost ips: seq<int>, ghost t: Table)
    returns (lists: seq<seq<nat>>, cardId: seq<int>, cardNum: seq<nat>, nodeId: seq<int>)
    requires Known(t, rankList) && t.dev == dev && i < |dev| && PlacedTo(t, ips, cardId0, cardNum0, nodeId0)
    requires Unseen(t, ips, rankList, lists0) && nodecnt == |ips| && lists0[i] != []
    ensures PlacedTo(t, ips + [dev[i].ip], cardId, cardNum, nodeId)
    ensures Unseen(t, ips + [dev[i].ip], rankList, lists)
  {
    var ip := dev[lists0[i][0]].ip;
    var cardcnt;
    cardId, cardcnt := NumberNode(dev, lists0, ip, cardId0, t);
    lists, cardNum, nodeId := MarkNode(dev, ip, lists0, cardNum0, nodeId0, cardcnt, nodecnt, t);
    NodePlaced(t, ip, ips, cardId0, cardId, cardNum0, cardNum, nodeId0, nodeId);
  }

  /** The second inner loop: the node's number and size go to its cards, their lists go. */
  method MarkNode(dev: seq<Dev>, ip: int,
      lists0: seq<seq<nat>>, cardNum0: seq<nat>, nodeId0: seq<int>, cardcnt: nat, nodecnt: nat, ghost t: Table)
    returns (lists: seq<seq<nat>>, cardNum: seq<nat>, nodeId: seq<int>)
    requires Sized(t) && t.dev == dev && |lists0| == |cardNum0| == |nodeId0| == |dev|
    requires forall j :: 0 <= j < |dev| ==> (lists0[j] != [] && dev[j].ip == ip <==> CardOf(t, ip, j))
    ensures |lists| == |cardNum| == |nodeId| == |dev|
    ensures forall x :: 0 <= x < |dev| ==> lists[x] == if CardOf(t, ip, x) then [] else lists0[x]
    ensures forall x :: 0 <= x < |dev| ==> cardNum[x] == if CardOf(t, ip, x) then cardcnt else cardNum0[x]
    ensures forall x :: 0 <= x < |dev| ==> nodeId[x] == if CardOf(t, ip, x) then nodecnt else nodeId0[x]
  {
    lists, cardNum, nodeId := lists0, cardNum0, nodeId0;
    var j := 0;
    while j < |dev|
      invariant j <= |dev| && |lists| == |cardNum| == |nodeId| == |dev|
      invariant forall x :: 0 <= x < |dev| ==> lists[x] == if x < j && CardOf(t, ip, x) then [] else lists0[x]
      invariant forall x :: 0 <= x < |dev| ==> cardNum[x] == if x < j && CardOf(t, ip, x) then cardcnt else cardNum0[x]
      invariant forall x :: 0 <= x < |dev| ==> nodeId[x] == if x < j && CardOf(t, ip, x) then nodecnt else nodeId0[x]
    {
      if lists[j] != [] && dev[j].ip == ip {
        cardNum := cardNum[j := cardcnt];
        nodeId := nodeId[j := nodecnt];
        lists := lists[j := []];
      }
      j := j + 1;
    }
  }

  lemma NodePlaced(t: Table, ip: int, ips: seq<int>, cardId0: seq<int>, cardId: seq<int>,
                   cardNum0: seq<nat>, cardNum: seq<nat>, nodeId0: seq<int>, nodeId: seq<int>)
    requires Sized(t) && PlacedTo(t, ips, cardId0, cardNum0, nodeId0) && ip !in ips
    requires forall x :: 0 <= x < |t.dev| ==> t.dev[x].phy < MAX_CARD_NUM
    requires |cardNum| == |nodeId| == |t.dev| && Numbered(NodeCards(t, ip), cardId, cardId0)
    requires forall x :: 0 <= x < |t.dev| ==> cardNum[x] == if CardOf(t, ip, x) then |NodeCards(t, ip)| else cardNum0[x]
    requires forall x :: 0 <= x < |t.dev| ==> nodeId[x] == if CardOf(t, ip, x) then |ips| else nodeId0[x]
    ensures PlacedTo(t, ips + [ip], cardId, cardNum, nodeId)
  {
    forall x: nat | x < |t.dev|
      ensures NumbersOk(t, x, ips + [ip], cardId[x], cardNum[x], nodeId[x])
    {
      assert NumbersOk(t, x, ips, cardId0[x], cardNum0[x], nodeId0[x]);
      NodeCardsAre(t, ip, x);
      if CardOf(t, ip, x) {
        var k: nat :| k < |NodeCards(t, ip)| && NodeCards(t, ip)[k] == x;
      }
    }
  }

  // ---- the ring ---------------------------------------------------------------------------

  function ListsOf(rankList: seq<seq<nat>>, cs: seq<nat>): (ls: seq<seq<nat>>)
    requires forall k :: 0 <= k < |cs| ==> cs[k] < |rankList|
    ensures |ls| == |cs| && forall k :: 0 <= k < |cs| ==> ls[k] == rankList[cs[k]]
  {
    seq(|cs|, k requires 0 <= k < |cs| => rankList[cs[k]])
  }

  lemma SameIndex(xs: seq<int>, i: nat, j: nat)
    requires i < |xs| && j < |xs| && xs[i] == xs[j] && forall a, b :: 0 <= a < b < |xs| ==> xs[a] != xs[b]
    ensures i == j
  {
  }

  /** The card with node number i and card number j is the j-th card of the i-th node. */
  lemma CardAt(t: Table, x: nat, i: nat, j: nat, cardId: int, cardNum: nat, nodeId: int)
    requires Sized(t) && x < |t.dev| && t.lead[x] && Placed(t, x, cardId, cardNum, nodeId, NodeIps(t, |t.dev|))
    requires i < |NodeIps(t, |t.dev|)| && j < |NodeCards(t, NodeIps(t, |t.dev|)[i])|
    ensures nodeId == i && cardId == j <==> NodeCards(t, NodeIps(t, |t.dev|)[i])[j] == x
  {
    var ips := NodeIps(t, |t.dev|);
    var cs := NodeCards(t, ips[i]);
    NodeIpsDistinct(t, |t.dev|);
    CollectDistinct(t, ips[i], MAX_CARD_NUM, 0);
    if cs[j] == x {
      SameIndex(ips, nodeId, i);
      SameIndex(cs, cardId, j);
    }
  }

  /** The innermost loop: finds the card with the given numbers and appends its list. */
  method AppendCard(rankList: seq<seq<nat>>, cardId: seq<int>, nodeId: seq<int>, i: nat, j: nat,
      noderank0: seq<seq<nat>>,
                    ghost card: nat) returns (noderank: seq<seq<nat>>)
    requires |rankList| == |cardId| == |nodeId| && card < |rankList|
    requires forall x :: 0 <= x < |rankList| ==> (rankList[x] != [] && nodeId[x] == i && cardId[x] == j <==> x == card)
    ensures noderank == noderank0 + [rankList[card]]
  {
    noderank := noderank0;
    var x := 0;
    while x < |rankList|
      invariant x <= |rankList|
      invariant noderank == if card < x then noderank0 + [rankList[card]] else noderank0
    {
      if rankList[x] != [] && nodeId[x] == i && cardId[x] == j {
        noderank := noderank + [rankList[x]];
      }
      x := x + 1;
    }
  }

  lemma OnlyCard(t: Table, rankList: seq<seq<nat>>, cardId: seq<int>, nodeId: seq<int>, i: nat, j: nat,
      cardNum: seq<nat>)
    requires Known(t, rankList) && PlacedTo(t, NodeIps(t, |t.dev|), cardId, cardNum, nodeId)
    requires forall x :: 0 <= x < |t.dev| && t.lead[x] ==> t.dev[x].ip in NodeIps(t, |t.dev|)
    requires i < |NodeIps(t, |t.dev|)| && j < |NodeCards(t, NodeIps(t, |t.dev|)[i])|
    ensures
      var card := NodeCards(t, NodeIps(t, |t.dev|)[i])[j];
      forall x :: 0 <= x < |rankList| ==> (rankList[x] != [] && nodeId[x] == i && cardId[x] == j <==> x == card)
  {
    var card := NodeCards(t, NodeIps(t, |t.dev|)[i])[j];
    forall x: nat | x < |rankList| ensures rankList[x] != [] && nodeId[x] == i && cardId[x] == j <==> x == card {
      if t.lead[x] { CardAt(t, x, i, j, cardId[x], cardNum[x], nodeId[x]); }
    }
  }

  /** The cards of node i. */
  method AppendNode(rankList: seq<seq<nat>>, cardId: seq<int>, nodeId: seq<int>, i: nat, cards: nat,
      noderank0: seq<seq<nat>>,
                    ghost cardNum: seq<nat>, ghost t: Table) returns (noderank: seq<seq<nat>>)
    requires Known(t, rankList) && PlacedTo(t, NodeIps(t, |t.dev|), cardId, cardNum, nodeId)
    requires forall x :: 0 <= x < |t.dev| && t.lead[x] ==> t.dev[x].ip in NodeIps(t, |t.dev|)
    requires i < |NodeIps(t, |t.dev|)| && cards == |NodeCards(t, NodeIps(t, |t.dev|)[i])|
    ensures noderank == noderank0 + ListsOf(rankList, NodeCards(t, NodeIps(t, |t.dev|)[i]))
  {
    ghost var cs := NodeCards(t, NodeIps(t, |t.dev|)[i]);
    noderank := noderank0;
    var j := 0;
    while j < cards
      invariant j <= cards && noderank == noderank0 + ListsOf(rankList, cs[..j])
    {
      OnlyCard(t, rankList, cardId, nodeId, i, j, cardNum);
      noderank := AppendCard(rankList, cardId, nodeId, i, j, noderank, cs[j]);
      assert ListsOf(rankList, cs[..j + 1]) == ListsOf(rankList, cs[..j]) + [rankList[cs[j]]];
      j := j + 1;
    }
    assert cs[..j] == cs;
  }

  /** All cards in ring order. */
  method RingOrder(rankList: seq<seq<nat>>, cardId: seq<int>, nodeId: seq<int>, nodecnt: nat, cards: nat,
                   ghost cardNum: seq<nat>, ghost t: Table) returns (noderank: seq<seq<nat>>)
    requires Known(t, rankList) && PlacedTo(t, NodeIps(t, |t.dev|), cardId, cardNum, nodeId)
    requires EqualNodes(t, cards) && nodecnt == |NodeIps(t, |t.dev|)|
    ensures noderank == ListsOf(rankList, AllCards(t))
  {
    noderank := [];
    forall x: nat | x < |t.dev| && t.lead[x] ensures t.dev[x].ip in NodeIps(t, |t.dev|) { NodeIpsAre(t, |t.dev|, x); }
    var i := 0;
    while i < nodecnt
      invariant i <= nodecnt && noderank == ListsOf(rankList, Cards(t, i))
    {
      noderank := NextNodeCards(rankList, cardId, nodeId, i, cards, noderank, cardNum, t);
      i := i + 1;
    }
  }

  method NextNodeCards(rankList: seq<seq<nat>>, cardId: seq<int>, nodeId: seq<int>, i: nat, cards: nat,
      noderank0: seq<seq<nat>>,
                       ghost cardNum: seq<nat>, ghost t: Table) returns (noderank: seq<seq<nat>>)
    requires Known(t, rankList) && PlacedTo(t, NodeIps(t, |t.dev|), cardId, cardNum, nodeId)
    requires forall x :: 0 <= x < |t.dev| && t.lead[x] ==> t.dev[x].ip in NodeIps(t, |t.dev|)
    requires i < |NodeIps(t, |t.dev|)| && cards == |NodeCards(t, NodeIps(t, |t.dev|)[i])|
    requires noderank0 == ListsOf(rankList, Cards(t, i))
    ensures noderank == ListsOf(rankList, Cards(t, i + 1))
  {
    noderank := AppendNode(rankList, cardId, nodeId, i, cards, noderank0, cardNum, t);
    ListsAppend(rankList, Cards(t, i), NodeCards(t, NodeIps(t, |t.dev|)[i]));
  }

  lemma ListsAppend(rankList: seq<seq<nat>>, xs: seq<nat>, ys: seq<nat>)
    requires forall k :: 0 <= k < |xs| ==> xs[k] < |rankList|
    requires forall k :: 0 <= k < |ys| ==> ys[k] < |rankList|
    ensures forall k :: 0 <= k < |xs + ys| ==> (xs + ys)[k] < |rankList|
    ensures ListsOf(rankList, xs + ys) == ListsOf(rankList, xs) + ListsOf(rankList, ys)
  {
  }

  // ---- one rank's view ----------------------------------------------------------------------

  /** tcclIsInTheCard. */
  method IsInTheCard(list: seq<nat>, rank: nat) returns (isIn: bool)
    ensures isIn <==> rank in list
  {
    isIn := false;
    for i := 0 to |list|
      invariant isIn <==> rank in list[..i]
    {
      if list[i] == rank {
        isIn := true;
        break;
      }
    }
  }

  /** The card of a rank, and its place on it. */
  method OwnCard(rankList: seq<seq<nat>>, rank: nat, ghost t: Table) returns (ret: nat, rankId: nat)
    requires Valid(t) && |rankList| == |t.dev| && rank < |t.dev|
    requires forall i :: 0 <= i < |t.dev| ==> rankList[i] == ListOf(t, i)
    ensures ret == LeaderOf(t, rank) && t.lead[ret] && rankId < |rankList[ret]| && rankList[ret][rankId] == rank
  {
    LeaderIs(t, rank);
    LeadOf(t, rank);
    ghost var own := LeaderOf(t, rank);
    ret := rank;
    for i := 0 to |rankList|
      invariant own < i ==> ret == own
    {
      var isIn := IsInTheCard(rankList[i], rank);
      if isIn {
        ListsPartition(t, rank, i);
        ret := i;
      }
    }
    rankId := PlaceIn(rankList[ret], rank);
  }

  method PlaceIn(list: seq<nat>, rank: nat) returns (rankId: nat)
    requires rank in list
    ensures rankId < |list| && list[rankId] == rank
  {
    rankId := 0;
    for i := 0 to |list|
      invariant rank in list[..i] ==> rankId < i && list[rankId] == rank
    {
      if list[i] == rank { rankId := i; }
    }
  }

  // ---- a ring of equal lists -------------------------------------------------------------------

  /** Lists of equal length that have no rank in common. */
  ghost predicate RingLists(lists: seq<seq<nat>>, ranks: nat) {
    && (forall p :: 0 <= p < |lists| ==> |lists[p]| == ranks)
    && forall p, q, m, w :: 0 <= p < |lists| && 0 <= q < |lists| && 0 <= m < ranks && 0 <= w < |lists[q]| ==>
                             lists[p][m] == lists[q][w] ==> p == q && m == w
  }

  /** The ring of the ranks with number m on their cards. */
  method RingOf(noderank: seq<seq<nat>>, rankId: nat, rank: nat, ghost place: nat, ghost ranks: nat)
    returns (next: nat, prev: nat, ring: seq<nat>)
    requires RingLists(noderank, ranks) && rankId < ranks && place < |noderank| && noderank[place][rankId] == rank
    ensures |ring| == |noderank| && forall j :: 0 <= j < |noderank| ==> ring[j] == noderank[j][rankId]
    ensures next == ring[Next(|ring|, place)] && prev == ring[Prev(|ring|, place)]
  {
    next, prev, ring := 0, 0, [];
    var k := |noderank|;
    for j := 0 to k
      invariant |ring| == j && forall x :: 0 <= x < j ==> ring[x] == noderank[x][rankId]
      invariant place < j ==> next == noderank[Next(k, place)][rankId] && prev == noderank[Prev(k, place)][rankId]
    {
      if noderank[j][rankId] == rank {
        SmallMod(k, j + 1);
        SmallMod(k, j + k - 1);
        next := noderank[(j + 1) % k][rankId];
        prev := noderank[(j + k - 1) % k][rankId];
      }
      ring := ring + [noderank[j][rankId]];
    }
  }

  /** In a uniform table the rank lists in ring order have no rank in common. */
  lemma CardsMakeRing(t: Table, ranks: nat, cards: nat, rankList: seq<seq<nat>>)
    requires Uniform(t, ranks, cards) && |rankList| == |t.dev|
      && forall i :: 0 <= i < |t.dev| ==> rankList[i] == ListOf(t, i)
    ensures RingLists(ListsOf(rankList, AllCards(t)), ranks)
  {
    var (cs, ls) := (AllCards(t), ListsOf(rankList, AllCards(t)));
    forall p, q, m, w | 0 <= p < |ls| && 0 <= q < |ls| && 0 <= m < ranks && 0 <= w < |ls[q]| && ls[p][m] == ls[q][w]
      ensures p == q && m == w
    {
      OneHome(t, cs[p], cs[q], m, w);
      SamePlace(t, p, q);
      MembersDistinct(t, cs[p], |t.dev|);
    }
  }

  lemma OneHome(t: Table, a: nat, b: nat, m: nat, w: nat)
    requires Valid(t) && a < |t.dev| && b < |t.dev| && t.lead[a] && t.lead[b]
    requires m < |Members(t, a, |t.dev|)| && w < |Members(t, b, |t.dev|)|
      && Members(t, a, |t.dev|)[m] == Members(t, b, |t.dev|)[w]
    ensures a == b
  {
    var r := Members(t, a, |t.dev|)[m];
    ListsPartition(t, r, a);
    ListsPartition(t, r, b);
  }

  lemma SamePlace(t: Table, p: nat, q: nat)
    requires Valid(t) && p < |AllCards(t)| && q < |AllCards(t)| && AllCards(t)[p] == AllCards(t)[q]
    ensures p == q
  {
    RingIsComplete(t, AllCards(t)[p]);
  }

  // ---- positions ----------------------------------------------------------------------------------

  function Flatten(nodes: seq<seq<nat>>, n: nat): seq<nat>
    requires n <= |nodes|
  {
    if n == 0 then [] else Flatten(nodes, n - 1) + nodes[n - 1]
  }

  predicate EqualLengths(nodes: seq<seq<nat>>, len: nat) {
    forall i :: 0 <= i < |nodes| ==> |nodes[i]| == len
  }

  lemma {:induction false} FlattenAt(nodes: seq<seq<nat>>, len: nat, n: nat, i: nat, c: nat)
    requires EqualLengths(nodes, len) && i < n <= |nodes| && c < len
    ensures Times(i, len) + c < Times(n, len) == |Flatten(nodes, n)|
    ensures Flatten(nodes, n)[Times(i, len) + c] == nodes[i][c]
    decreases n
  {
    FlattenLength(nodes, len, n - 1);
    TimesStep(i, n, len);
    if i < n - 1 { FlattenAt(nodes, len, n - 1, i, c); }
  }

  lemma {:induction false} FlattenLength(nodes: seq<seq<nat>>, len: nat, n: nat)
    requires EqualLengths(nodes, len) && n <= |nodes|
    ensures |Flatten(nodes, n)| == Times(n, len)
    decreases n
  {
    if n > 0 { FlattenLength(nodes, len, n - 1); }
  }

  function Nodes(t: Table): (nodes: seq<seq<nat>>)
    requires Sized(t)
    ensures |nodes| == |NodeIps(t, |t.dev|)|
      && forall i :: 0 <= i < |nodes| ==> nodes[i] == NodeCards(t, NodeIps(t, |t.dev|)[i])
  {
    seq(|NodeIps(t, |t.dev|)|, i requires 0 <= i < |NodeIps(t, |t.dev|)| => NodeCards(t, NodeIps(t, |t.dev|)[i]))
  }

  lemma {:induction false} CardsFlat(t: Table, n: nat)
    requires Sized(t) && n <= |NodeIps(t, |t.dev|)|
    ensures Cards(t, n) == Flatten(Nodes(t), n)
    decreases n
  {
    if n > 0 {
      CardsFlat(t, n - 1);
      assert Nodes(t)[n - 1] == NodeCards(t, NodeIps(t, |t.dev|)[n - 1]);
    }
  }

  /** With `cards` cards on every node, card c of node i is at place i * cards + c. */
  lemma PlaceIs(t: Table, cards: nat, i: nat, c: nat)
    requires Sized(t) && EqualLengths(Nodes(t), cards) && i < |NodeIps(t, |t.dev|)| && c < cards
    ensures Times(i, cards) + c < Times(|NodeIps(t, |t.dev|)|, cards) == |AllCards(t)|
    ensures AllCards(t)[Times(i, cards) + c] == Nodes(t)[i][c]
  {
    CardsFlat(t, |NodeIps(t, |t.dev|)|);
    FlattenAt(Nodes(t), cards, |Nodes(t)|, i, c);
  }

  /** What tcclNicRankList has to tell rank `rank`: `p` is its card's place on the ring. */
  ghost predicate InfoOk(t: Table, rankList: seq<seq<nat>>, rank: nat, info: Info)
    requires Sized(t) && rank < |t.dev| == |rankList|
  {
    var (cards, p, m) := (AllCards(t), info.phyCardRank, info.rankId);
    && p < |cards| == info.allCardNum && cards[p] == LeaderOf(t, rank)
    && info.rankList == rankList[cards[p]] && m < |info.rankList| && info.rankList[m] == rank
    && info.nodeNum == |NodeIps(t, |t.dev|)| && p == Times(info.nodeId, info.cardNum) + info.cardId
      && info.cardId < info.cardNum
    && |info.phyRankList| == |cards|
    && (forall j :: 0 <= j < |cards| ==> m < |rankList[cards[j]]| && info.phyRankList[j] == rankList[cards[j]][m])
    && info.phyNextRank == info.phyRankList[Next(|cards|, p)] && info.phyPrevRank == info.phyRankList[Prev(|cards|, p)]
  }

  method NicRankList(dev: seq<Dev>, rank: nat, ghost t: Table, ghost ranks: nat, ghost cards: nat)
      returns (info: Info, rankList: seq<seq<nat>>)
    requires Uniform(t, ranks, cards) && t.dev == dev && rank < |dev|
    ensures |rankList| == |dev| && forall i :: 0 <= i < |dev| ==> rankList[i] == ListOf(t, i)
    ensures InfoOk(t, rankList, rank, info)
  {
    var lists := RankLists(dev, t);
    rankList := lists;
    ListsKnown(t, lists);
    var cardId, cardNum, nodeId, nodecnt := Numbers(dev, lists, t);
    var ret, rankId := OwnCard(lists, rank, t);
    info := RankInfo(lists, rank, ret, rankId, cardId, cardNum, nodeId, nodecnt, t, ranks, cards);
  }

  /** The last part: the ring of the ranks with this rank's number, and its neighbours. */
  method RankInfo(lists: seq<seq<nat>>, rank: nat, ret: nat, rankId: nat, cardId: seq<int>, cardNum: seq<nat>,
      nodeId: seq<int>, nodecnt: nat, ghost t: Table, ghost ranks: nat, ghost cards: nat) returns (info: Info)
    requires Uniform(t, ranks, cards) && rank < |t.dev| && Known(t, lists)
      && forall i :: 0 <= i < |t.dev| ==> lists[i] == ListOf(t, i)
    requires ret == LeaderOf(t, rank) && t.lead[ret] && rankId < |lists[ret]| && lists[ret][rankId] == rank
    requires PlacedTo(t, NodeIps(t, |t.dev|), cardId, cardNum, nodeId) && nodecnt == |NodeIps(t, |t.dev|)|
    ensures InfoOk(t, lists, rank, info)
  {
    OwnPlace(t, cards, ret, cardId, cardNum, nodeId);
    var noderank := RingOrder(lists, cardId, nodeId, nodecnt, cardNum[ret], cardNum, t);
    CardsMakeRing(t, ranks, cards, lists);
    var place: nat := nodeId[ret] * cardNum[ret] + cardId[ret];
    var next, prev, ring := RingOf(noderank, rankId, rank, place, ranks);
    info := Info(lists[ret], rankId, cardId[ret], cardNum[ret], nodeId[ret], nodecnt, next, prev, place,
                 nodecnt * cardNum[ret], ring);
  }

  lemma LeadOf(t: Table, rank: nat)
    requires Valid(t) && rank < |t.dev|
    ensures t.lead[LeaderOf(t, rank)]
  {
    LeaderIs(t, rank);
  }

  lemma LeadPlaced(t: Table, l: nat, cardId: seq<int>, cardNum: seq<nat>, nodeId: seq<int>)
    requires Sized(t) && l < |t.dev| && t.lead[l] && PlacedTo(t, NodeIps(t, |t.dev|), cardId, cardNum, nodeId)
    ensures Placed(t, l, cardId[l], cardNum[l], nodeId[l], NodeIps(t, |t.dev|))
  {
    NodeIpsAre(t, |t.dev|, l);
  }

  /** The numbers of a card give its place on the ring. */
  lemma PlacedAt(t: Table, cards: nat, l: nat, cardId: int, cardNum: nat, nodeId: int)
    requires Sized(t) && EqualNodes(t, cards) && l < |t.dev|
      && Placed(t, l, cardId, cardNum, nodeId, NodeIps(t, |t.dev|))
    ensures 0 <= cardId < cardNum == cards && nodeId >= 0 && 0 <= nodeId * cardNum + cardId < |AllCards(t)|
    ensures nodeId * cardNum + cardId == Times(nodeId, cardNum) + cardId
    ensures AllCards(t)[nodeId * cardNum + cardId] == l && |AllCards(t)| == |NodeIps(t, |t.dev|)| * cardNum
  {
    var nodes := Nodes(t);
    assert nodes[nodeId] == NodeCards(t, t.dev[l].ip);
    assert EqualLengths(nodes, cards);
    PlaceIs(t, cards, nodeId, cardId);
    TimesIs(nodeId, cards);
    TimesIs(|nodes|, cards);
  }

  lemma OwnPlace(t: Table, cards: nat, l: nat, cardId: seq<int>, cardNum: seq<nat>, nodeId: seq<int>)
    requires Sized(t) && EqualNodes(t, cards) && l < |t.dev| && t.lead[l]
      && PlacedTo(t, NodeIps(t, |t.dev|), cardId, cardNum, nodeId)
    ensures 0 <= cardId[l] < cardNum[l] == cards && nodeId[l] >= 0
      && 0 <= nodeId[l] * cardNum[l] + cardId[l] < |AllCards(t)|
    ensures nodeId[l] * cardNum[l] + cardId[l] == Times(nodeId[l], cardNum[l]) + cardId[l]
    ensures AllCards(t)[nodeId[l] * cardNum[l] + cardId[l]] == l && |AllCards(t)| == |NodeIps(t, |t.dev|)| * cardNum[l]
  {
    LeadPlaced(t, l, cardId, cardNum, nodeId);
    PlacedAt(t, cards, l, cardId[l], cardNum[l], nodeId[l]);
  }

  // ---- the ring is one cycle -------------------------------------------------------------------------

  /** The rank `steps` places after place p. */
  function Along(ring: seq<nat>, p: nat, steps: nat): nat
    requires p < |ring|
    decreases steps
  {
    if steps == 0 then ring[p] else Along(ring, Next(|ring|, p), steps - 1)
  }

  lemma {:induction false} AlongIs(ring: seq<nat>, p: nat, steps: nat)
    requires p < |ring| && steps <= |ring|
    ensures Along(ring, p, steps) == ring[if p + steps < |ring| then p + steps else p + steps - |ring|]
    decreases steps
  {
    if steps > 0 { AlongIs(ring, Next(|ring|, p), steps - 1); }
  }

  /** All ranks with one rank number have the same ring; the next rank's previous rank is the
      rank itself and the other way round, and their places differ by one. */
  lemma NextAndPrevAgree(t: Table, ranks: nat, cards: nat,
      rankList: seq<seq<nat>>, rank: nat, info: Info, next: nat, nextInfo: Info)
    requires Uniform(t, ranks, cards) && |rankList| == |t.dev|
      && forall i :: 0 <= i < |t.dev| ==> rankList[i] == ListOf(t, i)
    requires rank < |t.dev| && InfoOk(t, rankList, rank, info)
    requires next == info.phyNextRank && next < |t.dev| && InfoOk(t, rankList, next, nextInfo)
    ensures nextInfo.phyRankList == info.phyRankList && nextInfo.phyPrevRank == rank
    ensures nextInfo.phyCardRank == Next(info.allCardNum, info.phyCardRank)
  {
    PlacesAgree(t, ranks, cards, rankList, rank, info, next, nextInfo);
    SameRing(t, rankList, rank, info, next, nextInfo);
  }

  lemma SameRing(t: Table, rankList: seq<seq<nat>>, rank: nat, info: Info, other: nat, otherInfo: Info)
    requires Sized(t) && rank < |t.dev| == |rankList| && other < |t.dev|
    requires InfoOk(t, rankList, rank, info) && InfoOk(t, rankList, other, otherInfo) && otherInfo.rankId == info.rankId
    requires otherInfo.phyCardRank == Next(info.allCardNum, info.phyCardRank)
    ensures otherInfo.phyRankList == info.phyRankList && otherInfo.phyPrevRank == rank
  {
  }

  lemma PlacesAgree(t: Table, ranks: nat, cards: nat,
      rankList: seq<seq<nat>>, rank: nat, info: Info, next: nat, nextInfo: Info)
    requires Uniform(t, ranks, cards) && |rankList| == |t.dev|
      && forall i :: 0 <= i < |t.dev| ==> rankList[i] == ListOf(t, i)
    requires rank < |t.dev| && InfoOk(t, rankList, rank, info)
    requires next == info.phyNextRank && next < |t.dev| && InfoOk(t, rankList, next, nextInfo)
    ensures nextInfo.allCardNum == info.allCardNum && nextInfo.rankId == info.rankId
    ensures nextInfo.phyCardRank == Next(info.allCardNum, info.phyCardRank)
  {
    var lists := ListsOf(rankList, AllCards(t));
    CardsMakeRing(t, ranks, cards, rankList);
    var (p, q) := (Next(|lists|, info.phyCardRank), nextInfo.phyCardRank);
    assert lists[p][info.rankId] == next && lists[q][nextInfo.rankId] == next;
  }

  /** Following the next ranks visits every card once and comes back after the last. */
  lemma OneCycle(t: Table, ranks: nat, cards: nat, rankList: seq<seq<nat>>, rank: nat, info: Info, i: nat, j: nat)
    requires Uniform(t, ranks, cards) && |rankList| == |t.dev|
      && forall i :: 0 <= i < |t.dev| ==> rankList[i] == ListOf(t, i)
    requires rank < |t.dev| && InfoOk(t, rankList, rank, info) && i < j <= info.allCardNum
    ensures Along(info.phyRankList, info.phyCardRank, i) == Along(info.phyRankList, info.phyCardRank, j)
      <==> i == 0 && j == info.allCardNum
    ensures Along(info.phyRankList, info.phyCardRank, 0) == rank
  {
    var (ring, p) := (info.phyRankList, info.phyCardRank);
    var lists := ListsOf(rankList, AllCards(t));
    CardsMakeRing(t, ranks, cards, rankList);
    AlongIs(ring, p, i);
    AlongIs(ring, p, j);
    var (x, y) := (if p + i < |ring| then p + i else p + i - |ring|, if p + j < |ring| then p + j else p + j - |ring|);
    assert ring[x] == lists[x][info.rankId] && ring[y] == lists[y][info.rankId];
  }
}
