/** Choosing the leader: every node sorts the candidates it knows and takes the first. */
module LeaderElection {

  type NodeId = string
  type Tag = string

  /** A live node as the election sees it. */
  datatype Candidate = Candidate(id: NodeId, leaderTag: bool, noLeaderTag: bool)

  // ---- The comparator ----

  predicate IdLess(a: NodeId, b: NodeId) {
    b != "" && (a == "" || a[0] < b[0] || (a[0] == b[0] && IdLess(a[1..], b[1..])))
  }

  /** "leader" nodes first, "noleader" nodes last, then by id. */
  predicate Before(a: Candidate, b: Candidate) {
    if a.leaderTag != b.leaderTag then a.leaderTag
    else if a.noLeaderTag != b.noLeaderTag then !a.noLeaderTag
    else IdLess(a.id, b.id)
  }

  lemma {:induction false} IdTrichotomy(a: NodeId, b: NodeId)
    ensures (IdLess(a, b) && a != b && !IdLess(b, a)) || (a == b && !IdLess(a, b)) || (IdLess(b, a) && a != b && !IdLess(a, b))
  {
    if a != "" && b != "" && a[0] == b[0] {
      IdTrichotomy(a[1..], b[1..]);
      assert a == [a[0]] + a[1..] && b == [b[0]] + b[1..];
    }
  }

  lemma {:induction false} IdTransitive(a: NodeId, b: NodeId, c: NodeId)
    requires IdLess(a, b) && IdLess(b, c)
    ensures IdLess(a, c)
  {
    if a != "" && a[0] == b[0] == c[0] { IdTransitive(a[1..], b[1..], c[1..]); }
  }

  /** The comparator is a strict total order, so sorting with it has one outcome. */
  lemma BeforeIsStrictTotalOrder(a: Candidate, b: Candidate, c: Candidate)
    ensures !Before(a, a)
    ensures a != b ==> (Before(a, b) <==> !Before(b, a))
    ensures Before(a, b) && Before(b, c) ==> Before(a, c)
  {
    hide IdLess;
    IdTrichotomy(a.id, b.id);
    IdTrichotomy(a.id, a.id);
    if IdLess(a.id, b.id) && IdLess(b.id, c.id) { IdTransitive(a.id, b.id, c.id); }
  }

  // ---- The winner ----

  predicate Wins(cs: set<Candidate>, w: Candidate) {
    w in cs && forall c | c in cs :: c != w ==> Before(w, c)
  }

  lemma WinnerIsUnique(cs: set<Candidate>, v: Candidate, w: Candidate)
    requires Wins(cs, v) && Wins(cs, w)
    ensures v == w
  {
    BeforeIsStrictTotalOrder(v, w, w);
  }

  lemma {:induction false} WinnerExists(cs: set<Candidate>)
    requires cs != {}
    ensures exists w :: Wins(cs, w)
    decreases |cs|
  {
    var c :| c in cs;
    var rest := cs - {c};
    if rest == {} {
      assert forall d :: d in cs ==> d == c || d in rest;
      assert Wins(cs, c);
    } else {
      WinnerExists(rest);
      var w :| Wins(rest, w);
      ChallengerWinsOrNot(rest, w, c);
      assert rest + {c} == cs;
    }
  }

  lemma ChallengerWinsOrNot(cs: set<Candidate>, w: Candidate, c: Candidate)
    requires Wins(cs, w)
    ensures Wins(cs + {c}, if Before(c, w) then c else w)
  {
    hide Before;
    if Before(c, w) {
      forall d | d in cs + {c} && d != c
        ensures Before(c, d)
      {
        BeforeIsStrictTotalOrder(c, w, d);
      }
    } else if c != w {
      BeforeIsStrictTotalOrder(c, w, w);
    }
  }

  /** The node that a non-empty set of candidates elects. */
  ghost function Winner(cs: set<Candidate>): (w: Candidate)
    requires cs != {}
    ensures Wins(cs, w)
  {
    WinnerExists(cs);
    var w :| Wins(cs, w);
    w
  }

  /** Sorting by the comparator, in whatever way, puts the winner first. */
  lemma SortedHeadWins(cs: set<Candidate>, sorted: seq<Candidate>)
    requires sorted != [] && forall c :: c in sorted <==> c in cs
    requires forall i, j :: 0 <= i < j < |sorted| ==> !Before(sorted[j], sorted[i])
    ensures Wins(cs, sorted[0]) && sorted[0] == Winner(cs)
  {
    hide Before;
    assert sorted[0] in sorted;
    forall c | c in cs && c != sorted[0]
      ensures Before(sorted[0], c)
    {
      var j :| 0 <= j < |sorted| && sorted[j] == c;
      BeforeIsStrictTotalOrder(sorted[0], c, c);
    }
    WinnerIsUnique(cs, sorted[0], Winner(cs));
  }

  /** The ranking by tags: a node tagged "leader" leads if there is one, and a node tagged "noleader"
      leads only when, among the best by the first rule, every node has that tag. */
  lemma TagsDecide(cs: set<Candidate>)
    requires cs != {}
    ensures Winner(cs).leaderTag <==> exists c :: c in cs && c.leaderTag
    ensures Winner(cs).noLeaderTag <==> forall c :: c in cs && c.leaderTag == Winner(cs).leaderTag ==> c.noLeaderTag
  {
    var w := Winner(cs);
    assert Wins(cs, w);
  }

  // ---- Change of membership ----

  /** A newcomer either wins or changes nothing: it wins exactly when it precedes the old winner. */
  lemma NewcomerWinsOrChangesNothing(cs: set<Candidate>, c: Candidate)
    requires cs != {}
    ensures Winner(cs + {c}) == if Before(c, Winner(cs)) then c else Winner(cs)
  {
    ChallengerWinsOrNot(cs, Winner(cs), c);
    WinnerIsUnique(cs + {c}, Winner(cs + {c}), if Before(c, Winner(cs)) then c else Winner(cs));
  }

  /** Losing a candidate changes the winner exactly when the winner is lost. */
  lemma LossChangesOnlyTheWinner(cs: set<Candidate>, c: Candidate)
    requires cs - {c} != {}
    ensures Winner(cs - {c}) == Winner(cs) <==> c != Winner(cs)
  {
    if c != Winner(cs) {
      assert Wins(cs - {c}, Winner(cs));
      WinnerIsUnique(cs - {c}, Winner(cs - {c}), Winner(cs));
    }
  }

  // ---- A node's own view ----

  datatype Peer = Peer(tags: seq<Tag>, alive: bool, isLeader: bool)

  function CandidateOf(id: NodeId, tags: seq<Tag>): Candidate {
    Candidate(id, "leader" in tags, "noleader" in tags)
  }

  /** Itself, always, and every peer it believes alive. */
  function Known(self: NodeId, tags: seq<Tag>, peers: map<NodeId, Peer>): (cs: set<Candidate>)
    ensures CandidateOf(self, tags) in cs
  {
    {CandidateOf(self, tags)} + set id | id in peers && peers[id].alive :: CandidateOf(id, peers[id].tags)
  }

  /** Nodes that know the same candidates elect the same leader, and exactly that one of them takes
      itself for the leader. */
  lemma SameCandidatesSameLeader(a: PeerManager, b: PeerManager)
    requires a.Elected() && b.Elected() && a.Candidates() == b.Candidates()
    ensures a.leaderId == b.leaderId
    ensures a.isLeader && b.isLeader ==> a.nodeId == b.nodeId
    ensures a.nodeId == a.leaderId ==> a.isLeader && (b.nodeId != a.nodeId ==> !b.isLeader)
  {
  }

  class PeerManager {
    const nodeId: NodeId
    var tags: seq<Tag>
    var peers: map<NodeId, Peer>
    var leaderId: NodeId
    var isLeader: bool

    constructor (nodeId: NodeId, tags: seq<Tag>)
      ensures this.nodeId == nodeId && this.tags == tags && peers == map[] && leaderId == "" && !isLeader
    {
      this.nodeId, this.tags := nodeId, tags;
      peers, leaderId, isLeader := map[], "", false;
    }

    ghost function Candidates(): set<Candidate>
      reads this
    {
      Known(nodeId, tags, peers)
    }

    /** What the node believes after an election. */
    ghost predicate Elected()
      reads this
    {
      && leaderId == Winner(Candidates()).id
      && isLeader == (leaderId == nodeId)
      && forall id :: id in peers ==> peers[id].isLeader == (id == leaderId)
    }

    method RecomputeLeader()
      modifies this
      ensures Elected()
      ensures tags == old(tags) && Candidates() == old(Candidates()) && peers.Keys == old(peers).Keys
      ensures forall id :: id in peers ==> peers[id].tags == old(peers)[id].tags && peers[id].alive == old(peers)[id].alive
    {
      var candidates := [CandidateOf(nodeId, tags)];
      var left := peers.Keys;
      while left != {}
        invariant left <= peers.Keys
        invariant forall c :: c in candidates <==>
          c == CandidateOf(nodeId, tags) || exists id :: id in peers.Keys - left && peers[id].alive && c == CandidateOf(id, peers[id].tags)
        invariant candidates != [] && peers == old(peers) && tags == old(tags)
        decreases |left|
      {
        var id :| id in left;
        left := left - {id};
        if peers[id].alive {
          candidates := candidates + [CandidateOf(id, peers[id].tags)];
        }
      }
      var first := HeadWhenSorted(candidates);
      assert forall c :: c in candidates <==> c in Candidates();
      WinnerIsUnique(Candidates(), first, Winner(Candidates()));
      leaderId := first.id;
      isLeader := leaderId == nodeId;
      peers := map id | id in peers :: peers[id].(isLeader := id == leaderId);
      SameTagsSameCandidates(nodeId, tags, old(peers), peers);
    }
  }

  lemma SameTagsSameCandidates(self: NodeId, tags: seq<Tag>, was: map<NodeId, Peer>, now: map<NodeId, Peer>)
    requires was.Keys == now.Keys
    requires forall id :: id in was ==> was[id].tags == now[id].tags && was[id].alive == now[id].alive
    ensures Known(self, tags, was) == Known(self, tags, now)
  {
  }

  /** What sorting the candidates leaves at the front. */
  method HeadWhenSorted(candidates: seq<Candidate>) returns (first: Candidate)
    requires candidates != []
    ensures first in candidates && forall c :: c in candidates && c != first ==> Before(first, c)
  {
    first := candidates[0];
    for i := 1 to |candidates|
      invariant first in candidates[..i]
      invariant forall c :: c in candidates[..i] && c != first ==> Before(first, c)
    {
      assert candidates[..i + 1] == candidates[..i] + [candidates[i]];
      ghost var was := first;
      if Before(candidates[i], first) {
        first := candidates[i];
      }
      forall c | c in candidates[..i + 1] && c != first
        ensures Before(first, c)
      {
        BeforeIsStrictTotalOrder(candidates[i], was, c);
      }
    }
    assert candidates[..|candidates|] == candidates;
  }

  // ---- What the election comes to ----

  /** The order of ids: a proper beginning of the other, or smaller at the first place where they differ. */
  ghost predicate Precedes(a: NodeId, b: NodeId) {
    a < b || exists k :: 0 <= k < |a| && k < |b| && a[..k] == b[..k] && a[k] < b[k]
  }

  lemma {:induction false} IdLessIsPrecedes(a: NodeId, b: NodeId)
    ensures IdLess(a, b) ==> Precedes(a, b)
    decreases |a|
  {
    if a != "" && b != "" && a[0] == b[0] && IdLess(a, b) {
      IdLessIsPrecedes(a[1..], b[1..]);
      assert a == [a[0]] + a[1..] && b == [b[0]] + b[1..];
      if k :| 0 <= k < |a[1..]| && k < |b[1..]| && a[1..][..k] == b[1..][..k] && a[1..][k] < b[1..][k] {
        assert a[..k + 1] == [a[0]] + a[1..][..k] && b[..k + 1] == [b[0]] + b[1..][..k];
        assert a[k + 1] < b[k + 1];
      }
    } else if a != "" && IdLess(a, b) {
      assert a[..0] == b[..0] && a[0] < b[0];
    }
  }

  /** This node, or a peer it believes alive. */
  predicate Live(m: PeerManager, id: NodeId)
    reads m
  {
    id == m.nodeId || (id in m.peers && m.peers[id].alive)
  }

  function TagsOf(m: PeerManager, id: NodeId): seq<Tag>
    requires Live(m, id)
    reads m
  {
    if id == m.nodeId then m.tags else m.peers[id].tags
  }

  ghost predicate Leads(m: PeerManager)
    reads m
  {
    exists id :: Live(m, id) && "leader" in TagsOf(m, id)
  }

  predicate Alike(m: PeerManager, a: NodeId, b: NodeId)
    requires Live(m, a) && Live(m, b)
    reads m
  {
    && ("leader" in TagsOf(m, a) <==> "leader" in TagsOf(m, b))
    && ("noleader" in TagsOf(m, a) <==> "noleader" in TagsOf(m, b))
  }

  /** A live node is elected. It has the tag "leader" if and only if some live node has; it has "noleader" if and
      only if all that are like it in that have; and no live node with the same tags has an id before its own. */
  lemma ElectedByTags(m: PeerManager)
    requires m.Elected() && m.nodeId !in m.peers
    ensures Live(m, m.leaderId)
    ensures m.isLeader <==> m.leaderId == m.nodeId
    ensures forall id :: id in m.peers ==> (m.peers[id].isLeader <==> m.leaderId == id)
    ensures "leader" in TagsOf(m, m.leaderId) <==> Leads(m)
    ensures "noleader" in TagsOf(m, m.leaderId) <==>
            forall id :: Live(m, id) && ("leader" in TagsOf(m, id) <==> "leader" in TagsOf(m, m.leaderId)) ==> "noleader" in TagsOf(m, id)
    ensures forall id :: Live(m, id) && id != m.leaderId && Alike(m, id, m.leaderId) ==> Precedes(m.leaderId, id)
  {
    hide IdLess, Precedes;
    var cs := m.Candidates();
    var w := Winner(cs);
    assert Wins(cs, w);
    forall c
      ensures c in cs <==> Live(m, c.id) && c == CandidateOf(c.id, TagsOf(m, c.id))
    {
    }
    forall id | Live(m, id)
      ensures CandidateOf(id, TagsOf(m, id)) in cs
      ensures CandidateOf(id, TagsOf(m, id)) != w ==> Before(w, CandidateOf(id, TagsOf(m, id)))
    {
      assert CandidateOf(id, TagsOf(m, id)).id == id;
    }
    forall id | Live(m, id)
      ensures IdLess(w.id, id) ==> Precedes(w.id, id)
    {
      IdLessIsPrecedes(w.id, id);
    }
  }
}
