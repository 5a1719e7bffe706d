/** The live object graph of the videoroom plugin: publishers, their remote publishers on other
    backend servers (a forwarding tree), subscribers, backend rooms and the room index.
    Every method is one run-to-completion step of the proxy; an answer of a backend server is an
    input of the step (`startOk`, `joinOk`, ...), and `now` is the reading of the monotonic clock. */
module Videoroom {

  import opened Common

  datatype Error =
    | AlreadyDestroyed | JoinFirst | InvalidRequest | NotPublished | AlreadyBackend | AlreadyJoined
    | NoSuchFeed | InvalidSdp | NoSuchRoom | IdExists | RoomExists | Unauthorized | MissingElement | BadGateway
    | BackendError

  datatype Outcome = Done | Raised(error: Error)

  /** The node that forwards media to a remote publisher. */
  datatype Parent = NoParent | UnderPublisher(publisher: Publisher) | UnderRemote(remote: RemotePublisher)

  const REMOTE_IDLE_TIMEOUT := 60

  /** What the search for a backend room by load starts from. */
  const UNLIKELY_LOAD := 1000000

  // ---------- Values of the objects, used by the specifications ----------

  /** A publisher as the root of its forwarding tree. */
  datatype PublisherNode = PublisherNode(
    destroyed: bool, started: bool, remotes: map<string, RemotePublisher>, children: set<RemotePublisher>)

  datatype RemoteNode = RemoteNode(
    remoteId: string, origin: Publisher?, backend: BackendRoom?, destroyed: bool, parent: Parent,
    children: set<RemotePublisher>, subscribers: set<Subscriber>, idleTs: int, depth: nat)

  /** All forwarding trees at one instant, by object identity. */
  datatype Forest = Forest(pubs: map<Publisher, PublisherNode>, rems: map<RemotePublisher, RemoteNode>)

  // ---------- Teardown of forwarding trees ----------

  /** What holds of the forwarding trees even in the middle of a teardown: every downward link is
      mirrored by its upward link, and a destroyed object is out of every link. */
  ghost predicate TreeShape(g: Forest) {
    && (forall p :: p in g.pubs ==> PublisherShape(g, p))
    && (forall r :: r in g.rems ==> RemoteShape(g, r))
  }

  ghost predicate PublisherShape(g: Forest, p: Publisher)
    requires p in g.pubs
  {
    var v := g.pubs[p];
    && (v.destroyed || !v.started ==> v.children == {})
    && (v.destroyed ==> v.remotes == map[])
    && (forall c :: c in v.children ==>
          c in g.rems && !g.rems[c].destroyed && g.rems[c].parent == UnderPublisher(p)
          && g.rems[c].origin == p && g.rems[c].depth == 0)
    && (forall n :: n in v.remotes ==>
          v.remotes[n] in g.rems && !g.rems[v.remotes[n]].destroyed
          && g.rems[v.remotes[n]].origin == p && g.rems[v.remotes[n]].remoteId == n)
  }

  ghost predicate RemoteShape(g: Forest, r: RemotePublisher)
    requires r in g.rems
  {
    var v := g.rems[r];
    && (v.parent.UnderPublisher? ==> v.parent.publisher in g.pubs)
    && (v.parent.UnderRemote? ==> v.parent.remote in g.rems)
    && (v.destroyed ==> v == ClearedRemote(v))
    && (!v.destroyed ==> v.origin != null && v.origin in g.pubs
                         && (!g.pubs[v.origin].destroyed ==>
                               v.remoteId in g.pubs[v.origin].remotes && g.pubs[v.origin].remotes[v.remoteId] == r))
    && (v.children != {} ==> v.backend != null)
    && (forall c :: c in v.children ==>
          c in g.rems && !g.rems[c].destroyed && g.rems[c].parent == UnderRemote(r)
          && g.rems[c].origin == v.origin && g.rems[c].depth == v.depth + 1)
  }

  ghost function ClearedRemote(v: RemoteNode): RemoteNode {
    v.(destroyed := true, origin := null, backend := null, parent := NoParent, children := {}, subscribers := {},
      idleTs := 0)
  }

  ghost function Alive(g: Forest): set<RemotePublisher> {
    set r | r in g.rems && !g.rems[r].destroyed
  }

  /** `gone` is the set of nodes at or below `roots`: it holds the roots, is closed under `children`,
      and every other member is a child of a member. */
  ghost predicate IsSubtree(g: Forest, roots: set<RemotePublisher>, gone: set<RemotePublisher>) {
    && roots <= gone <= Alive(g)
    && (forall x, c :: x in gone && c in g.rems[x].children ==> c in gone)
    && (forall x :: x in gone && x !in roots ==> HasParentIn(g, x, gone))
  }

  ghost predicate HasParentIn(g: Forest, x: RemotePublisher, s: set<RemotePublisher>) {
    exists y :: y in s && y in g.rems && x in g.rems[y].children
  }

  /** Undestroyed nodes of one depth that no node lists as a child. */
  ghost predicate Orphans(g: Forest, cs: set<RemotePublisher>) {
    && cs <= Alive(g)
    && (forall c, d :: c in cs && d in cs ==> g.rems[c].depth == g.rems[d].depth)
    && (forall p, c :: p in g.pubs && c in cs ==> c !in g.pubs[p].children)
    && (forall r, c :: r in g.rems && c in cs ==> c !in g.rems[r].children)
  }

  /** The graph once `gone`, the subtrees at `roots`, is torn down: its nodes are cleared, the nodes that
      linked to a root or registered a torn-down node forget it, and everything else is as before. */
  ghost function TearDown(g: Forest, roots: set<RemotePublisher>, gone: set<RemotePublisher>, now: Time): Forest {
    g.(pubs := map p | p in g.pubs :: ForgetPublisher(g.pubs[p], roots, gone),
       rems := map r | r in g.rems :: if r in gone then ClearedRemote(g.rems[r])
                                      else ForgetRemote(g.rems[r], roots, now))
  }

  ghost function ForgetPublisher(v: PublisherNode, roots: set<RemotePublisher>,
                                 gone: set<RemotePublisher>): PublisherNode {
    v.(children := v.children - roots,
       remotes := map n | n in v.remotes && v.remotes[n] !in gone :: v.remotes[n])
  }

  ghost function ForgetRemote(v: RemoteNode, roots: set<RemotePublisher>, now: Time): RemoteNode {
    if v.children !! roots then v
    else v.(children := v.children - roots,
            idleTs := IdleTs(v.children - roots != {} || v.subscribers != {}, v.idleTs, now))
  }

  lemma TearDownPublisherShape(g: Forest, roots: set<RemotePublisher>, gone: set<RemotePublisher>, now: Time,
                               p: Publisher)
    requires p in g.pubs && PublisherShape(g, p)
    requires forall c :: c in g.pubs[p].children && c in gone ==> c in roots
    ensures PublisherShape(TearDown(g, roots, gone, now), p)
  {
    var h := TearDown(g, roots, gone, now);
    forall c | c in h.pubs[p].children
      ensures c in h.rems && !h.rems[c].destroyed && h.rems[c].parent == UnderPublisher(p)
              && h.rems[c].origin == p && h.rems[c].depth == 0
    {
      assert c in g.pubs[p].children;
    }
    forall n | n in h.pubs[p].remotes
      ensures h.pubs[p].remotes[n] in h.rems && !h.rems[h.pubs[p].remotes[n]].destroyed
              && h.rems[h.pubs[p].remotes[n]].origin == p && h.rems[h.pubs[p].remotes[n]].remoteId == n
    {
      assert n in g.pubs[p].remotes;
    }
  }

  lemma TearDownRemoteShape(g: Forest, roots: set<RemotePublisher>, gone: set<RemotePublisher>, now: Time,
                            r: RemotePublisher)
    requires r in g.rems && RemoteShape(g, r)
    requires r !in gone ==> forall c :: c in g.rems[r].children && c in gone ==> c in roots
    ensures RemoteShape(TearDown(g, roots, gone, now), r)
  {
    var h := TearDown(g, roots, gone, now);
    if r !in gone {
      assert h.rems[r] == ForgetRemote(g.rems[r], roots, now);
      forall c | c in h.rems[r].children
        ensures c in h.rems && !h.rems[c].destroyed && h.rems[c].parent == UnderRemote(r)
                && h.rems[c].origin == h.rems[r].origin && h.rems[c].depth == h.rems[r].depth + 1
      {
        assert c in g.rems[r].children;
      }
    }
  }

  lemma TearDownShape(g: Forest, roots: set<RemotePublisher>, gone: set<RemotePublisher>, now: Time)
    requires TreeShape(g)
    requires forall x, c :: x in g.rems && x !in gone && c in g.rems[x].children && c in gone ==> c in roots
    requires forall p, c :: p in g.pubs && c in g.pubs[p].children && c in gone ==> c in roots
    ensures TreeShape(TearDown(g, roots, gone, now))
  {
    forall p | p in g.pubs ensures PublisherShape(TearDown(g, roots, gone, now), p) {
      TearDownPublisherShape(g, roots, gone, now, p);
    }
    forall r | r in g.rems ensures RemoteShape(TearDown(g, roots, gone, now), r) {
      TearDownRemoteShape(g, roots, gone, now, r);
    }
  }

  /** Only its parent lists a node as a child, and only its origin registers it, under its remote id. */
  lemma LinksOf(g: Forest, r: RemotePublisher)
    requires TreeShape(g) && r in Alive(g)
    ensures forall x :: x in g.rems && r in g.rems[x].children ==> g.rems[r].parent == UnderRemote(x)
    ensures forall p :: p in g.pubs && r in g.pubs[p].children ==> g.rems[r].parent == UnderPublisher(p)
    ensures forall p, n :: p in g.pubs && n in g.pubs[p].remotes && g.pubs[p].remotes[n] == r ==>
              p == g.rems[r].origin && n == g.rems[r].remoteId
  {
    forall x | x in g.rems && r in g.rems[x].children ensures g.rems[r].parent == UnderRemote(x) {
      assert RemoteShape(g, x);
    }
    forall p | p in g.pubs && r in g.pubs[p].children ensures g.rems[r].parent == UnderPublisher(p) {
      assert PublisherShape(g, p);
    }
    forall p, n | p in g.pubs && n in g.pubs[p].remotes && g.pubs[p].remotes[n] == r
      ensures p == g.rems[r].origin && n == g.rems[r].remoteId
    {
      assert PublisherShape(g, p);
    }
  }

  /** The graph once the single node `r` is destroyed and has called back its parent and its origin. */
  ghost function Unlinked(g: Forest, r: RemotePublisher, now: Time): Forest
    requires r in g.rems
  {
    var v := g.rems[r];
    g.(pubs := map p | p in g.pubs :: DropNode(g.pubs[p], r, v.parent == UnderPublisher(p), v.origin == p, v.remoteId),
       rems := map x | x in g.rems :: if x == r then ClearedRemote(v)
                                      else if v.parent == UnderRemote(x) then ForgetRemote(g.rems[x], {r}, now)
                                      else g.rems[x])
  }

  ghost function DropNode(v: PublisherNode, r: RemotePublisher, parent: bool, origin: bool,
                          remoteId: string): PublisherNode {
    v.(children := if parent then v.children - {r} else v.children,
       remotes := if origin then v.remotes - {remoteId} else v.remotes)
  }

  lemma ForgetOnePublisher(g: Forest, r: RemotePublisher, p: Publisher)
    requires p in g.pubs && PublisherShape(g, p) && r in g.rems && RemoteShape(g, r) && !g.rems[r].destroyed
    ensures ForgetPublisher(g.pubs[p], {r}, {r})
         == DropNode(g.pubs[p], r, g.rems[r].parent == UnderPublisher(p), g.rems[r].origin == p, g.rems[r].remoteId)
  {
    var v, u := g.pubs[p], g.rems[r];
    if u.parent != UnderPublisher(p) {
      assert r !in v.children;
      assert v.children - {r} == v.children;
    }
    var left := map n | n in v.remotes && v.remotes[n] !in {r} :: v.remotes[n];
    if u.origin == p {
      assert left == v.remotes - {u.remoteId};
    } else {
      assert left == v.remotes;
    }
  }

  lemma ForgetOneRemote(g: Forest, r: RemotePublisher, x: RemotePublisher, now: Time)
    requires x in g.rems && RemoteShape(g, x) && r in g.rems && g.rems[r].parent != UnderRemote(x)
    ensures ForgetRemote(g.rems[x], {r}, now) == g.rems[x]
  {
    assert r !in g.rems[x].children;
  }

  lemma UnlinkedPublishers(g: Forest, r: RemotePublisher, now: Time)
    requires TreeShape(g) && r in g.rems && !g.rems[r].destroyed
    ensures Unlinked(g, r, now).pubs == TearDown(g, {r}, {r}, now).pubs
  {
    forall p | p in g.pubs ensures Unlinked(g, r, now).pubs[p] == TearDown(g, {r}, {r}, now).pubs[p] {
      assert PublisherShape(g, p) && RemoteShape(g, r);
      ForgetOnePublisher(g, r, p);
    }
  }

  lemma UnlinkedRemotes(g: Forest, r: RemotePublisher, now: Time)
    requires TreeShape(g) && r in g.rems
    ensures Unlinked(g, r, now).rems == TearDown(g, {r}, {r}, now).rems
  {
    forall x | x in g.rems ensures Unlinked(g, r, now).rems[x] == TearDown(g, {r}, {r}, now).rems[x] {
      assert RemoteShape(g, x);
      if x != r && g.rems[r].parent != UnderRemote(x) {
        ForgetOneRemote(g, r, x, now);
      }
    }
  }

  lemma UnlinkedIsTearDown(g: Forest, r: RemotePublisher, now: Time)
    requires TreeShape(g) && r in g.rems && !g.rems[r].destroyed
    ensures Unlinked(g, r, now) == TearDown(g, {r}, {r}, now)
  {
    hide TreeShape;
    UnlinkedPublishers(g, r, now);
    UnlinkedRemotes(g, r, now);
  }

  /** The objects a node calls back when it is destroyed are in the state their callbacks expect. */
  lemma CallbacksAreSafe(g: Forest, r: RemotePublisher)
    requires TreeShape(g) && r in g.rems && !g.rems[r].destroyed
    ensures r in Alive(g) && g.rems[r].origin != null && g.rems[r].origin in g.pubs
    ensures g.pubs[g.rems[r].origin].destroyed ==> g.pubs[g.rems[r].origin].remotes == map[]
    ensures g.rems[r].parent.UnderPublisher? ==>
              var p := g.rems[r].parent.publisher;
              p in g.pubs && (g.pubs[p].destroyed || !g.pubs[p].started ==> g.pubs[p].children == {})
    ensures g.rems[r].parent.UnderRemote? ==>
              var q := g.rems[r].parent.remote;
              q in g.rems && (g.rems[q].destroyed ==> g.rems[q].children == {})
              && (g.rems[q].children != {} ==> g.rems[q].backend != null)
  {
    assert RemoteShape(g, r) && PublisherShape(g, g.rems[r].origin);
    match g.rems[r].parent {
      case NoParent =>
      case UnderPublisher(p) => assert PublisherShape(g, p);
      case UnderRemote(q) => assert RemoteShape(g, q);
    }
  }

  lemma NodeLeaves(g: Forest, r: RemotePublisher, now: Time)
    requires r in g.rems && !g.rems[r].destroyed
    ensures r in Alive(g) && Alive(TearDown(g, {r}, {r}, now)) == Alive(g) - {r}
  {
  }

  lemma ChildrenBecomeOrphans(g: Forest, r: RemotePublisher, now: Time)
    requires TreeShape(g) && r in g.rems && !g.rems[r].destroyed
    ensures Orphans(TearDown(g, {r}, {r}, now), g.rems[r].children)
  {
    hide TreeShape;
    var h := TearDown(g, {r}, {r}, now);
    OwnChildren(g, r);
    forall p, c | p in h.pubs && c in g.rems[r].children ensures c !in h.pubs[p].children { LinksOf(g, c); }
    forall x, c | x in h.rems && c in g.rems[r].children ensures c !in h.rems[x].children { LinksOf(g, c); }
    assert forall c :: c in g.rems[r].children ==> h.rems[c].depth == g.rems[r].depth + 1;
    NodeLeaves(g, r, now);
  }

  lemma OwnChildren(g: Forest, r: RemotePublisher)
    requires TreeShape(g) && r in g.rems
    ensures g.rems[r].children <= Alive(g) - {r}
    ensures forall c :: c in g.rems[r].children ==>
              g.rems[c].depth == g.rems[r].depth + 1 && g.rems[c].parent == UnderRemote(r)
  {
    assert RemoteShape(g, r);
  }

  lemma ForgetTwice(v: PublisherNode, r: RemotePublisher, below: set<RemotePublisher>)
    ensures ForgetPublisher(ForgetPublisher(v, {r}, {r}), {}, below) == ForgetPublisher(v, {r}, {r} + below)
  {
    var u := ForgetPublisher(v, {r}, {r});
    assert u.children - {} == v.children - {r};
    assert (map n | n in u.remotes && u.remotes[n] !in below :: u.remotes[n])
        == (map n | n in v.remotes && v.remotes[n] !in {r} + below :: v.remotes[n]);
  }

  lemma TearDownTwice(g: Forest, r: RemotePublisher, below: set<RemotePublisher>, now: Time)
    requires r !in below
    ensures TearDown(TearDown(g, {r}, {r}, now), {}, below, now) == TearDown(g, {r}, {r} + below, now)
  {
    var h := TearDown(g, {r}, {r}, now);
    var a, b := TearDown(h, {}, below, now), TearDown(g, {r}, {r} + below, now);
    forall p | p in g.pubs ensures a.pubs[p] == b.pubs[p] {
      ForgetTwice(g.pubs[p], r, below);
    }
    assert a.pubs == b.pubs;
    assert a.rems == b.rems;
  }

  /** Destroying a node and then its former children tears down the subtree at the node. */
  lemma NodeThenChildren(g: Forest, r: RemotePublisher, below: set<RemotePublisher>, now: Time)
    requires r in Alive(g)
    requires IsSubtree(TearDown(g, {r}, {r}, now), g.rems[r].children, below)
    ensures IsSubtree(g, {r}, {r} + below)
    ensures TearDown(TearDown(g, {r}, {r}, now), {}, below, now) == TearDown(g, {r}, {r} + below, now)
  {
    var h := TearDown(g, {r}, {r}, now);
    var gone := {r} + below;
    forall x | x in below ensures x in Alive(g) && x != r && h.rems[x].children == g.rems[x].children - {r} {
      assert x in Alive(h);
    }
    TearDownTwice(g, r, below, now);
    forall x, c | x in gone && c in g.rems[x].children ensures c in gone {
      if x in below && c != r {
        assert c in h.rems[x].children;
      }
    }
    forall x | x in gone && x !in {r} ensures HasParentIn(g, x, gone) {
      if x !in g.rems[r].children {
        assert HasParentIn(h, x, below);
        var y :| y in below && y in h.rems && x in h.rems[y].children;
        assert y in gone && x in g.rems[y].children;
      }
    }
  }

  ghost function Detached(g: Forest, c: RemotePublisher): Forest
    requires c in g.rems
  {
    WithParent(g, c, NoParent)
  }

  ghost function WithParent(g: Forest, c: RemotePublisher, parent: Parent): Forest
    requires c in g.rems
  {
    g.(rems := g.rems[c := g.rems[c].(parent := parent)])
  }

  lemma DetachedPublisher(g: Forest, c: RemotePublisher, p: Publisher)
    requires c in g.rems && p in g.pubs && PublisherShape(g, p) && c !in g.pubs[p].children
    ensures PublisherShape(Detached(g, c), p)
  {
  }

  lemma DetachedRemote(g: Forest, c: RemotePublisher, x: RemotePublisher)
    requires c in g.rems && x in g.rems && RemoteShape(g, x) && c !in g.rems[x].children
    ensures RemoteShape(Detached(g, c), x)
  {
    var h := Detached(g, c);
    assert h.pubs == g.pubs && h.rems[x].children == g.rems[x].children;
  }

  lemma DetachedShape(g: Forest, cs: set<RemotePublisher>, c: RemotePublisher)
    requires TreeShape(g) && Orphans(g, cs) && c in cs
    ensures TreeShape(Detached(g, c)) && Alive(Detached(g, c)) == Alive(g)
  {
    hide PublisherShape, RemoteShape;
    var h := Detached(g, c);
    forall p | p in h.pubs ensures PublisherShape(h, p) {
      DetachedPublisher(g, c, p);
    }
    forall x | x in h.rems ensures RemoteShape(h, x) {
      DetachedRemote(g, c, x);
    }
  }

  lemma TearDownNothing(g: Forest, now: Time)
    ensures TearDown(g, {}, {}, now) == g && IsSubtree(g, {}, {})
  {
    var h := TearDown(g, {}, {}, now);
    forall p | p in g.pubs ensures h.pubs[p] == g.pubs[p] {
      var v := g.pubs[p];
      assert v.children - {} == v.children;
      assert (map n | n in v.remotes && v.remotes[n] !in {} :: v.remotes[n]) == v.remotes;
    }
    assert h.pubs == g.pubs;
    assert h.rems == g.rems;
  }

  lemma ForgetOrphan(v: PublisherNode, gone: set<RemotePublisher>, c: RemotePublisher, below: set<RemotePublisher>)
    requires c !in v.children
    ensures ForgetPublisher(ForgetPublisher(v, {}, gone), {c}, below) == ForgetPublisher(v, {}, gone + below)
  {
    var u := ForgetPublisher(v, {}, gone);
    assert u.children - {c} == v.children - {};
    assert (map n | n in u.remotes && u.remotes[n] !in below :: u.remotes[n])
        == (map n | n in v.remotes && v.remotes[n] !in gone + below :: v.remotes[n]);
  }

  lemma TearDownOrphan(g: Forest, gone: set<RemotePublisher>, c: RemotePublisher, below: set<RemotePublisher>,
                       now: Time)
    requires c in below && c in g.rems && c !in gone
    requires forall p :: p in g.pubs ==> c !in g.pubs[p].children
    requires forall x :: x in g.rems && x !in gone ==> c !in g.rems[x].children
    ensures TearDown(Detached(TearDown(g, {}, gone, now), c), {c}, below, now) == TearDown(g, {}, gone + below, now)
  {
    hide ForgetPublisher, ForgetRemote, ClearedRemote;
    var d := Detached(TearDown(g, {}, gone, now), c);
    var a, b := TearDown(d, {c}, below, now), TearDown(g, {}, gone + below, now);
    forall p | p in g.pubs ensures a.pubs[p] == b.pubs[p] {
      ForgetOrphan(g.pubs[p], gone, c, below);
    }
    assert a.pubs == b.pubs;
    forall x | x in g.rems ensures a.rems[x] == b.rems[x] {
      OrphanRemote(g, gone, c, below, now, x);
    }
    assert a.rems == b.rems;
  }

  lemma OrphanRemote(g: Forest, gone: set<RemotePublisher>, c: RemotePublisher, below: set<RemotePublisher>, now: Time,
                     x: RemotePublisher)
    requires c in below && c in g.rems && c !in gone && x in g.rems && (x !in gone ==> c !in g.rems[x].children)
    ensures TearDown(Detached(TearDown(g, {}, gone, now), c), {c}, below, now).rems[x] == TearDown(g, {}, gone + below,
              now).rems[x]
  {
  }

  lemma SubtreesJoin(g: Forest, roots: set<RemotePublisher>, gone: set<RemotePublisher>,
                     c: RemotePublisher, below: set<RemotePublisher>, now: Time)
    requires IsSubtree(g, roots, gone) && c in g.rems
    requires IsSubtree(Detached(TearDown(g, {}, gone, now), c), {c}, below)
    ensures IsSubtree(g, roots + {c}, gone + below)
    ensures gone + below <= Alive(g)
  {
    var d := Detached(TearDown(g, {}, gone, now), c);
    var all := gone + below;
    forall x | x in below ensures x in Alive(g) && x !in gone && d.rems[x].children == g.rems[x].children {
      assert x in Alive(d);
    }
    forall x, y | x in all && y in g.rems[x].children ensures y in all {
      if x !in gone {
        assert y in d.rems[x].children;
      }
    }
    forall x | x in all && x !in roots + {c} ensures HasParentIn(g, x, all) {
      if x in gone {
        assert HasParentIn(g, x, gone);
        var y :| y in gone && y in g.rems && x in g.rems[y].children;
        assert y in all;
      } else {
        assert HasParentIn(d, x, below);
        var y :| y in below && y in d.rems && x in d.rems[y].children;
        assert y in all && x in g.rems[y].children;
      }
    }
  }

  /** What the teardown of orphans needs to know of one of them. */
  lemma OneOrphan(g: Forest, gone: set<RemotePublisher>, cs: set<RemotePublisher>, c: RemotePublisher, now: Time)
    requires Orphans(TearDown(g, {}, gone, now), cs) && c in cs && gone <= Alive(g)
    ensures c in g.rems && c !in gone && TearDown(g, {}, gone, now).rems.Keys == g.rems.Keys
    ensures !TearDown(g, {}, gone, now).rems[c].destroyed
    ensures Alive(TearDown(g, {}, gone, now)) <= Alive(g)
    ensures forall p :: p in g.pubs ==> c !in g.pubs[p].children
    ensures forall x :: x in g.rems && x !in gone ==> c !in g.rems[x].children
  {
    var h := TearDown(g, {}, gone, now);
    assert c in Alive(h);
    forall p | p in g.pubs ensures c !in g.pubs[p].children {
      assert h.pubs[p].children == g.pubs[p].children - {};
    }
    forall x | x in g.rems && x !in gone ensures c !in g.rems[x].children {
      assert h.rems[x] == g.rems[x];
    }
  }

  lemma OrphansLeft(g: Forest, cs: set<RemotePublisher>, c: RemotePublisher, below: set<RemotePublisher>, now: Time)
    requires Orphans(g, cs) && c in cs
    requires IsSubtree(Detached(g, c), {c}, below)
    ensures Orphans(TearDown(Detached(g, c), {c}, below, now), cs - {c})
  {
    var d := Detached(g, c);
    forall x | x in cs - {c} ensures x !in below {
      if x in below {
        assert false;
      }
    }
    var h := TearDown(d, {c}, below, now);
    forall x | x in cs - {c} ensures x in Alive(h) && h.rems[x].depth == g.rems[x].depth {
      assert x in Alive(g);
    }
    forall p, x | p in h.pubs && x in cs - {c} ensures x !in h.pubs[p].children {
      assert x !in g.pubs[p].children;
    }
    forall y, x | y in h.rems && x in cs - {c} ensures x !in h.rems[y].children {
      assert x !in g.rems[y].children;
    }
  }

  // ---------- The forwarding trees between two steps ----------

  /** The invariant of the forest between two steps: every undestroyed remote publisher is started on
      the server it is named after, is registered at an undestroyed origin, hangs under its parent, and
      has idle timestamp 0 exactly while it is in use; a publisher that is not started, or that cannot
      cascade, has no remote publisher. */
  ghost predicate TreeInv(g: Forest) {
    && TreeShape(g)
    && (forall r :: r in g.rems ==> RemoteLinked(g, r))
    && (forall p :: p in g.pubs ==> PublisherQuiet(g, p))
  }

  ghost predicate PublisherQuiet(g: Forest, p: Publisher)
    requires p in g.pubs
  {
    !g.pubs[p].started || !p.cascadeEnabled ==> g.pubs[p].remotes == map[]
  }

  ghost predicate RemoteLinked(g: Forest, r: RemotePublisher)
    requires r in g.rems
  {
    var v := g.rems[r];
    !v.destroyed ==>
      && v.backend != null && v.backend.serverName == v.remoteId
      && v.origin != null && v.origin in g.pubs && !g.pubs[v.origin].destroyed
      && HangsUnder(g, r, v.parent, v.origin)
      && (v.idleTs == 0 <==> v.children != {} || v.subscribers != {})
  }

  ghost predicate HangsUnder(g: Forest, r: RemotePublisher, parent: Parent, origin: Publisher) {
    match parent
    case NoParent => false
    case UnderPublisher(p) => p == origin && p in g.pubs && r in g.pubs[p].children
    case UnderRemote(q) => q in g.rems && r in g.rems[q].children
  }

  /** The forest once publisher `p` is left with the value `v` and all its remote publishers are gone. */
  ghost function PublisherDown(g: Forest, p: Publisher, v: PublisherNode): Forest
    requires p in g.pubs
  {
    Forest(g.pubs[p := v],
           map r | r in g.rems :: if g.rems[r].origin == p then ClearedRemote(g.rems[r]) else g.rems[r])
  }

  /** The subtrees at the children of a publisher are all of its remote publishers: nothing more ... */
  lemma {:induction false} GoneHasOrigin(g: Forest, p: Publisher, gone: set<RemotePublisher>, x: RemotePublisher)
    requires TreeShape(g) && p in g.pubs && IsSubtree(g, g.pubs[p].children, gone) && x in gone
    ensures g.rems[x].origin == p
    decreases g.rems[x].depth
  {
    assert PublisherShape(g, p);
    if x !in g.pubs[p].children {
      assert HasParentIn(g, x, gone);
      var y :| y in gone && y in g.rems && x in g.rems[y].children;
      assert RemoteShape(g, y);
      GoneHasOrigin(g, p, gone, y);
    }
  }

  /** ... and nothing less. */
  lemma {:induction false} OriginIsGone(g: Forest, p: Publisher, gone: set<RemotePublisher>, x: RemotePublisher)
    requires TreeInv(g) && p in g.pubs && IsSubtree(g, g.pubs[p].children, gone)
    requires x in Alive(g) && g.rems[x].origin == p
    ensures x in gone
    decreases g.rems[x].depth
  {
    assert RemoteLinked(g, x);
    if g.rems[x].parent.UnderRemote? {
      var q := g.rems[x].parent.remote;
      assert RemoteShape(g, q);
      assert q in Alive(g);
      OriginIsGone(g, p, gone, q);
    }
  }

  lemma SubtreesOfPublisher(g: Forest, p: Publisher, gone: set<RemotePublisher>)
    requires TreeInv(g) && p in g.pubs && IsSubtree(g, g.pubs[p].children, gone)
    ensures forall r :: r in g.rems ==> (r in gone <==> g.rems[r].origin == p)
  {
    forall r | r in g.rems ensures r in gone <==> g.rems[r].origin == p {
      assert RemoteShape(g, r);
      if r in gone {
        GoneHasOrigin(g, p, gone, r);
      } else if g.rems[r].origin == p {
        assert r in Alive(g);
        OriginIsGone(g, p, gone, r);
      }
    }
  }

  lemma ReadyPublisher(g: Forest, p: Publisher, u: PublisherNode, q: Publisher)
    requires p in g.pubs && q in g.pubs && PublisherShape(g, q) && u.children == {}
    requires u.remotes == if u.destroyed then map[] else g.pubs[p].remotes
    ensures PublisherShape(g.(pubs := g.pubs[p := u]), q)
  {
  }

  lemma ReadyRemote(g: Forest, p: Publisher, u: PublisherNode, r: RemotePublisher)
    requires p in g.pubs && r in g.rems && RemoteShape(g, r) && !g.pubs[p].destroyed
    requires u.remotes == if u.destroyed then map[] else g.pubs[p].remotes
    ensures RemoteShape(g.(pubs := g.pubs[p := u]), r)
  {
  }

  lemma ReadyForChildren(g: Forest, p: Publisher, u: PublisherNode)
    requires TreeInv(g) && p in g.pubs && !g.pubs[p].destroyed && u.children == {}
    requires u.remotes == if u.destroyed then map[] else g.pubs[p].remotes
    ensures TreeShape(g.(pubs := g.pubs[p := u]))
    ensures Orphans(g.(pubs := g.pubs[p := u]), g.pubs[p].children)
  {
    hide PublisherShape, RemoteShape, RemoteLinked, PublisherQuiet;
    var h := g.(pubs := g.pubs[p := u]);
    forall q | q in h.pubs ensures PublisherShape(h, q) { ReadyPublisher(g, p, u, q); }
    forall r | r in h.rems ensures RemoteShape(h, r) { ReadyRemote(g, p, u, r); }
    ChildrenAlive(g, p);
    forall q, c | q in h.pubs && c in g.pubs[p].children ensures c !in h.pubs[q].children { LinksOf(g, c); }
    forall r, c | r in h.rems && c in g.pubs[p].children ensures c !in h.rems[r].children { LinksOf(g, c); }
  }

  lemma ChildrenAlive(g: Forest, p: Publisher)
    requires TreeShape(g) && p in g.pubs
    ensures g.pubs[p].children <= Alive(g)
    ensures forall c :: c in g.pubs[p].children ==> g.rems[c].depth == 0 && g.rems[c].parent == UnderPublisher(p)
  {
    assert PublisherShape(g, p);
  }

  lemma ForgetAllOf(g: Forest, q: Publisher, p: Publisher, v: PublisherNode, gone: set<RemotePublisher>)
    requires q in g.pubs && PublisherShape(g, q)
    requires forall r :: r in g.rems ==> (r in gone <==> g.rems[r].origin == p)
    requires v.remotes == g.pubs[q].remotes || v.remotes == map[]
    ensures ForgetPublisher(v, {}, gone) == if q == p then v.(remotes := map[]) else v
  {
    assert v.children - {} == v.children;
    var left := map n | n in v.remotes && v.remotes[n] !in gone :: v.remotes[n];
    assert left == if q == p then map[] else v.remotes;
  }

  lemma ChildrenDestroyed(g: Forest, p: Publisher, u: PublisherNode, gone: set<RemotePublisher>, now: Time)
    requires TreeInv(g) && p in g.pubs && (u.remotes == g.pubs[p].remotes || u.remotes == map[])
    requires IsSubtree(g.(pubs := g.pubs[p := u]), g.pubs[p].children, gone)
    ensures TearDown(g.(pubs := g.pubs[p := u]), {}, gone, now) == PublisherDown(g, p, u.(remotes := map[]))
  {
    assert IsSubtree(g, g.pubs[p].children, gone);
    SubtreesOfPublisher(g, p, gone);
    AllOfPublisherDown(g, p, u, gone, now);
  }

  lemma AllOfPublisherDown(g: Forest, p: Publisher, u: PublisherNode, gone: set<RemotePublisher>, now: Time)
    requires p in g.pubs && (u.remotes == g.pubs[p].remotes || u.remotes == map[])
    requires forall q :: q in g.pubs ==> PublisherShape(g, q)
    requires forall r :: r in g.rems ==> (r in gone <==> g.rems[r].origin == p)
    ensures TearDown(g.(pubs := g.pubs[p := u]), {}, gone, now) == PublisherDown(g, p, u.(remotes := map[]))
  {
    hide PublisherShape;
    var h := g.(pubs := g.pubs[p := u]);
    var a, b := TearDown(h, {}, gone, now), PublisherDown(g, p, u.(remotes := map[]));
    forall q | q in g.pubs ensures a.pubs[q] == b.pubs[q] {
      ForgetAllOf(g, q, p, h.pubs[q], gone);
    }
    assert a.pubs == b.pubs;
    assert a.rems == b.rems;
  }

  lemma PublisherDownAgain(g: Forest, p: Publisher, v: PublisherNode, u: PublisherNode)
    requires p in g.pubs
    ensures PublisherDown(g, p, v).pubs[p := u] == PublisherDown(g, p, u).pubs == g.pubs[p := u]
    ensures PublisherDown(g, p, u).pubs[p] == u
    ensures PublisherDown(g, p, v).rems == PublisherDown(g, p, u).rems
  {
  }

  lemma DownPublisher(g: Forest, p: Publisher, v: PublisherNode, q: Publisher)
    requires p in g.pubs && q in g.pubs && PublisherShape(g, q) && PublisherQuiet(g, q) && v.children == {}
    requires v.remotes == map[]
    ensures PublisherShape(PublisherDown(g, p, v), q) && PublisherQuiet(PublisherDown(g, p, v), q)
  {
  }

  lemma DownRemote(g: Forest, p: Publisher, v: PublisherNode, r: RemotePublisher)
    requires p in g.pubs && r in g.rems && RemoteShape(g, r) && RemoteLinked(g, r)
    requires g.rems[r].parent.UnderRemote? && g.rems[r].parent.remote in g.rems ==>
              RemoteShape(g, g.rems[r].parent.remote)
    ensures RemoteShape(PublisherDown(g, p, v), r) && RemoteLinked(PublisherDown(g, p, v), r)
  {
  }

  /** Taking a publisher down keeps the invariant of the forest. */
  lemma PublisherDownKeepsTrees(g: Forest, p: Publisher, v: PublisherNode)
    requires TreeInv(g) && p in g.pubs && v.children == {} && v.remotes == map[]
    ensures TreeInv(PublisherDown(g, p, v))
  {
    hide PublisherShape, PublisherQuiet, RemoteShape, RemoteLinked;
    var h := PublisherDown(g, p, v);
    forall q | q in h.pubs ensures PublisherShape(h, q) && PublisherQuiet(h, q) { DownPublisher(g, p, v, q); }
    forall r | r in h.rems ensures RemoteShape(h, r) && RemoteLinked(h, r) { DownRemote(g, p, v, r); }
  }

  // ---------- Subscriptions ----------

  datatype PublisherLinks = PublisherLinks(subscribers: set<Subscriber>, subscriptions: set<Subscriber>)

  datatype SubscriberLinks = SubscriberLinks(
    destroyed: bool, room: VideoRoom?, backend: BackendRoom?, feeds: map<int, Publisher>, owner: Publisher?)

  /** Who watches whom and who owns which subscriber, at one instant. */
  datatype LinkTable = LinkTable(pubs: map<Publisher, PublisherLinks>, subs: map<Subscriber, SubscriberLinks>)

  /** Subscriptions are symmetric: a subscriber is in a publisher's `_subscribers` exactly if the publisher
      is in its `_feeds` under the publisher's own id, and in its `_subscriptions` exactly if it is the
      owner; and a destroyed object is in no link. */
  ghost predicate LinkInv(l: LinkTable) {
    && (forall p :: p in l.pubs ==> PublisherMirrored(l, p))
    && (forall s :: s in l.subs ==> SubscriberMirrored(l, s))
  }

  ghost predicate PublisherMirrored(l: LinkTable, p: Publisher)
    requires p in l.pubs
  {
    && (forall s :: s in l.pubs[p].subscribers ==>
          s in l.subs && p.userId in l.subs[s].feeds && l.subs[s].feeds[p.userId] == p)
    && (forall s :: s in l.pubs[p].subscriptions ==> s in l.subs && l.subs[s].owner == p)
  }

  ghost predicate SubscriberMirrored(l: LinkTable, s: Subscriber)
    requires s in l.subs
  {
    && (l.subs[s].destroyed ==> l.subs[s].feeds == map[] && l.subs[s].owner == null)
    && (forall u :: u in l.subs[s].feeds ==> Feeds(l, l.subs[s].feeds[u], u, s))
    && (l.subs[s].owner != null ==> l.subs[s].owner in l.pubs && s in l.pubs[l.subs[s].owner].subscriptions)
  }

  ghost predicate Feeds(l: LinkTable, p: Publisher, userId: int, s: Subscriber) {
    p in l.pubs && p.userId == userId && s in l.pubs[p].subscribers
  }

  /** Every subscriber of a remote publisher is a subscriber of its origin, served from the same server. */
  ghost predicate WatchInv(g: Forest, l: LinkTable) {
    forall r, s :: r in g.rems && s in g.rems[r].subscribers ==> Watches(g.rems[r], l, s)
  }

  ghost predicate Watches(v: RemoteNode, l: LinkTable, s: Subscriber) {
    && v.origin != null && v.origin in l.pubs && s in l.pubs[v.origin].subscribers
    && s in l.subs && l.subs[s].backend != null && l.subs[s].backend.serverName == v.remoteId
  }

  /** The links once subscriber `s` has left the publishers `ps` and watches `feeds`. */
  ghost function Unsubscribed(l: LinkTable, s: Subscriber, ps: set<Publisher>, feeds: map<int, Publisher>): LinkTable
    requires s in l.subs
  {
    LinkTable(map p | p in l.pubs :: if p in ps then l.pubs[p].(subscribers := l.pubs[p].subscribers - {s})
      else l.pubs[p],
          l.subs[s := l.subs[s].(feeds := feeds)])
  }

  /** The links once subscriber `s` has joined the publishers `ps` and watches `feeds`. */
  ghost function Subscribed(l: LinkTable, s: Subscriber, ps: set<Publisher>, feeds: map<int, Publisher>): LinkTable
    requires s in l.subs
  {
    LinkTable(map p | p in l.pubs :: if p in ps then l.pubs[p].(subscribers := l.pubs[p].subscribers + {s})
      else l.pubs[p],
          l.subs[s := l.subs[s].(feeds := feeds)])
  }

  /** The forest once subscriber `s` has left the remote publishers of the publishers `ps`. */
  ghost function Unwatched(g: Forest, s: Subscriber, ps: set<Publisher>, now: Time): Forest {
    g.(rems := map r | r in g.rems ::
         if g.rems[r].origin in ps && s in g.rems[r].subscribers then WithoutWatcher(g.rems[r], s, now) else g.rems[r])
  }

  ghost function WithoutWatcher(v: RemoteNode, s: Subscriber, now: Time): RemoteNode {
    v.(subscribers := v.subscribers - {s},
       idleTs := IdleTs(v.children != {} || v.subscribers - {s} != {}, v.idleTs, now))
  }

  /** The forest once subscriber `s` on server `b` watches the remote publishers of `ps` on that server. */
  ghost function Watched(g: Forest, s: Subscriber, b: BackendRoom?, ps: set<Publisher>): Forest {
    g.(rems := map r | r in g.rems ::
         if Serves(g.rems[r], b, ps) then g.rems[r].(subscribers := g.rems[r].subscribers + {s}, idleTs := 0)
             else g.rems[r])
  }

  ghost predicate Serves(v: RemoteNode, b: BackendRoom?, ps: set<Publisher>) {
    v.origin in ps && b != null && b.serverName == v.remoteId
  }

  /** The remote publisher of `p` on server `b`, if there is one. */
  ghost predicate HasRemoteOn(g: Forest, p: Publisher, b: BackendRoom?) {
    p in g.pubs && b != null && b.serverName in g.pubs[p].remotes
  }

  lemma RemoteOn(g: Forest, p: Publisher, b: BackendRoom?)
    requires TreeInv(g) && HasRemoteOn(g, p, b)
    ensures var r := g.pubs[p].remotes[b.serverName];
      p.cascadeEnabled && r in g.rems && !g.rems[r].destroyed && g.rems[r].origin == p
        && g.rems[r].remoteId == b.serverName
      && g.rems[r].parent != UnderRemote(r)
  {
    assert PublisherShape(g, p) && PublisherQuiet(g, p);
    var r := g.pubs[p].remotes[b.serverName];
    assert RemoteShape(g, r) && RemoteLinked(g, r);
  }

  lemma ServedBy(g: Forest, p: Publisher, b: BackendRoom?, r: RemotePublisher)
    requires TreeInv(g) && p in g.pubs && r in g.rems && Serves(g.rems[r], b, {p})
    ensures HasRemoteOn(g, p, b) && r == g.pubs[p].remotes[b.serverName]
  {
    assert RemoteShape(g, r) && RemoteLinked(g, r);
  }

  lemma WatchedOne(g: Forest, s: Subscriber, p: Publisher, b: BackendRoom?)
    requires TreeInv(g) && p in g.pubs
    ensures Watched(g, s, b, {p}) ==
      if HasRemoteOn(g, p, b)
      then var r := g.pubs[p].remotes[b.serverName];
           RemoteOn(g, p, b);
           g.(rems := g.rems[r := g.rems[r].(subscribers := g.rems[r].subscribers + {s}, idleTs := 0)])
      else g
  {
    hide TreeInv;
    if HasRemoteOn(g, p, b) { RemoteOn(g, p, b); }
    var h := Watched(g, s, b, {p});
    forall r | r in g.rems && (!HasRemoteOn(g, p, b) || r != g.pubs[p].remotes[b.serverName])
      ensures h.rems[r] == g.rems[r]
    {
      if Serves(g.rems[r], b, {p}) { ServedBy(g, p, b, r); }
    }
    if HasRemoteOn(g, p, b) {
      var r := g.pubs[p].remotes[b.serverName];
      assert h.rems == g.rems[r := g.rems[r].(subscribers := g.rems[r].subscribers + {s}, idleTs := 0)];
    } else {
      assert h.rems == g.rems;
    }
  }

  lemma NotWatching(g: Forest, r: RemotePublisher, s: Subscriber, now: Time)
    requires r in g.rems && RemoteLinked(g, r) && !g.rems[r].destroyed && s !in g.rems[r].subscribers
    ensures WithoutWatcher(g.rems[r], s, now) == g.rems[r]
  {
    assert g.rems[r].subscribers - {s} == g.rems[r].subscribers;
  }

  lemma OthersUnwatched(g: Forest, l: LinkTable, s: Subscriber, p: Publisher, r: RemotePublisher, now: Time)
    requires TreeInv(g) && WatchInv(g, l) && p in g.pubs && s in l.subs && r in g.rems
    requires !HasRemoteOn(g, p, l.subs[s].backend) || r != g.pubs[p].remotes[l.subs[s].backend.serverName]
    ensures Unwatched(g, s, {p}, now).rems[r] == g.rems[r]
  {
    if g.rems[r].origin in {p} && s in g.rems[r].subscribers {
      assert Watches(g.rems[r], l, s);
      ServedBy(g, p, l.subs[s].backend, r);
    }
  }

  lemma OneUnwatched(g: Forest, s: Subscriber, p: Publisher, r: RemotePublisher, now: Time)
    requires r in g.rems && RemoteLinked(g, r) && !g.rems[r].destroyed && g.rems[r].origin == p
    ensures Unwatched(g, s, {p}, now).rems[r] == WithoutWatcher(g.rems[r], s, now)
  {
    if s !in g.rems[r].subscribers {
      NotWatching(g, r, s, now);
    }
  }

  lemma UnwatchedNone(g: Forest, l: LinkTable, s: Subscriber, p: Publisher, now: Time)
    requires TreeInv(g) && WatchInv(g, l) && p in g.pubs && s in l.subs && !HasRemoteOn(g, p, l.subs[s].backend)
    ensures Unwatched(g, s, {p}, now) == g
  {
    hide TreeInv, WatchInv, WithoutWatcher;
    forall r | r in g.rems ensures Unwatched(g, s, {p}, now).rems[r] == g.rems[r] {
      OthersUnwatched(g, l, s, p, r, now);
    }
    assert Unwatched(g, s, {p}, now).rems == g.rems;
  }

  lemma TreeLinked(g: Forest, r: RemotePublisher)
    requires TreeInv(g) && r in g.rems
    ensures RemoteLinked(g, r)
  {
  }

  lemma UnwatchedOne(g: Forest, l: LinkTable, s: Subscriber, p: Publisher, r: RemotePublisher, now: Time)
    requires TreeInv(g) && WatchInv(g, l) && p in g.pubs && s in l.subs && HasRemoteOn(g, p, l.subs[s].backend)
    requires r == g.pubs[p].remotes[l.subs[s].backend.serverName]
    ensures r in g.rems && !g.rems[r].destroyed && p.cascadeEnabled
    ensures Unwatched(g, s, {p}, now) == g.(rems := g.rems[r := WithoutWatcher(g.rems[r], s, now)])
  {
    hide TreeInv, WatchInv, WithoutWatcher;
    RemoteOn(g, p, l.subs[s].backend);
    TreeLinked(g, r);
    OneUnwatched(g, s, p, r, now);
    forall x | x in g.rems && x != r ensures Unwatched(g, s, {p}, now).rems[x] == g.rems[x] {
      OthersUnwatched(g, l, s, p, x, now);
    }
    assert Unwatched(g, s, {p}, now).rems == g.rems[r := WithoutWatcher(g.rems[r], s, now)];
  }

  /** `h` is `g` up to who watches the remote publishers. */
  ghost predicate SameTrees(g: Forest, h: Forest) {
    && h.pubs == g.pubs && h.rems.Keys == g.rems.Keys
    && (forall r :: r in g.rems ==> SameNode(g.rems[r], h.rems[r]))
  }

  ghost predicate SameNode(v: RemoteNode, u: RemoteNode) {
    && u == v.(subscribers := u.subscribers, idleTs := u.idleTs)
    && (v.destroyed ==> u == v)
    && (!v.destroyed ==> (u.idleTs == 0 <==> u.children != {} || u.subscribers != {}))
  }

  lemma SameTreesRemote(g: Forest, h: Forest, r: RemotePublisher)
    requires SameTrees(g, h) && r in g.rems && RemoteShape(g, r) && RemoteLinked(g, r)
    ensures RemoteShape(h, r) && RemoteLinked(h, r)
  {
    var v, u := g.rems[r], h.rems[r];
    assert SameNode(v, u);
    forall c | c in u.children
      ensures c in h.rems && !h.rems[c].destroyed && h.rems[c].parent == UnderRemote(r)
              && h.rems[c].origin == u.origin && h.rems[c].depth == u.depth + 1
    {
      assert c in v.children && SameNode(g.rems[c], h.rems[c]);
    }
    if !v.destroyed && v.parent.UnderRemote? {
      assert SameNode(g.rems[v.parent.remote], h.rems[v.parent.remote]);
    }
  }

  lemma SameTreesPublisher(g: Forest, h: Forest, p: Publisher)
    requires SameTrees(g, h) && p in g.pubs && PublisherShape(g, p) && PublisherQuiet(g, p)
    ensures PublisherShape(h, p) && PublisherQuiet(h, p)
  {
    forall c | c in h.pubs[p].children ensures SameNode(g.rems[c], h.rems[c]) {}
    forall n | n in h.pubs[p].remotes ensures SameNode(g.rems[h.pubs[p].remotes[n]], h.rems[h.pubs[p].remotes[n]]) {}
  }

  lemma SameTreesKeep(g: Forest, h: Forest)
    requires TreeInv(g) && SameTrees(g, h)
    ensures TreeInv(h)
  {
    hide SameNode, PublisherShape, PublisherQuiet, RemoteShape, RemoteLinked;
    forall p | p in h.pubs ensures PublisherShape(h, p) && PublisherQuiet(h, p) {
      SameTreesPublisher(g, h, p);
    }
    forall r | r in h.rems ensures RemoteShape(h, r) && RemoteLinked(h, r) {
      SameTreesRemote(g, h, r);
    }
  }

  lemma UnwatchedKeepsTrees(g: Forest, s: Subscriber, ps: set<Publisher>, now: Time)
    requires TreeInv(g)
    ensures TreeInv(Unwatched(g, s, ps, now))
  {
    var h := Unwatched(g, s, ps, now);
    forall r | r in g.rems ensures SameNode(g.rems[r], h.rems[r]) {
      assert RemoteLinked(g, r) && RemoteShape(g, r);
    }
    SameTreesKeep(g, h);
  }

  lemma WatchedKeepsTrees(g: Forest, s: Subscriber, b: BackendRoom?, ps: set<Publisher>)
    requires TreeInv(g)
    ensures TreeInv(Watched(g, s, b, ps))
  {
    var h := Watched(g, s, b, ps);
    forall r | r in g.rems ensures SameNode(g.rems[r], h.rems[r]) {
      assert RemoteLinked(g, r) && RemoteShape(g, r);
    }
    SameTreesKeep(g, h);
  }

  lemma UnsubscribeStep(g: Forest, l: LinkTable, s: Subscriber, ps: set<Publisher>, p: Publisher, f: map<int,
                        Publisher>, now: Time)
    requires s in l.subs && p !in ps
    ensures Unwatched(Unwatched(g, s, ps, now), s, {p}, now) == Unwatched(g, s, ps + {p}, now)
    ensures Unsubscribed(Unsubscribed(l, s, ps, f), s, {p}, f) == Unsubscribed(l, s, ps + {p}, f)
  {
    assert Unwatched(Unwatched(g, s, ps, now), s, {p}, now).rems == Unwatched(g, s, ps + {p}, now).rems;
    var a, b := Unsubscribed(Unsubscribed(l, s, ps, f), s, {p}, f), Unsubscribed(l, s, ps + {p}, f);
    assert a.pubs == b.pubs;
  }

  lemma SubscribeStep(g: Forest, l: LinkTable, s: Subscriber, b: BackendRoom?, ps: set<Publisher>, p: Publisher,
                      f: map<int, Publisher>)
    requires s in l.subs && p !in ps
    ensures Watched(Watched(g, s, b, ps), s, b, {p}) == Watched(g, s, b, ps + {p})
    ensures Subscribed(Subscribed(l, s, ps, f), s, {p}, f) == Subscribed(l, s, ps + {p}, f)
  {
    assert Watched(Watched(g, s, b, ps), s, b, {p}).rems == Watched(g, s, b, ps + {p}).rems;
    assert Subscribed(Subscribed(l, s, ps, f), s, {p}, f).pubs == Subscribed(l, s, ps + {p}, f).pubs;
  }

  lemma UnsubscribedNone(g: Forest, l: LinkTable, s: Subscriber, b: BackendRoom?, now: Time)
    requires s in l.subs
    ensures Unwatched(g, s, {}, now) == g && Unsubscribed(l, s, {}, l.subs[s].feeds) == l
    ensures Watched(g, s, b, {}) == g && Subscribed(l, s, {}, l.subs[s].feeds) == l
  {
    assert Unwatched(g, s, {}, now).rems == g.rems && Watched(g, s, b, {}).rems == g.rems;
    var a, c := Unsubscribed(l, s, {}, l.subs[s].feeds), Subscribed(l, s, {}, l.subs[s].feeds);
    assert a.pubs == l.pubs && a.subs == l.subs && c.pubs == l.pubs && c.subs == l.subs;
  }

  /** Leaving publishers leaves their remote publishers too, so the remaining watchers are still subscribers. */
  lemma UnsubscribeKeepsWatch(g: Forest, l: LinkTable, s: Subscriber, ps: set<Publisher>, f: map<int, Publisher>,
                              now: Time)
    requires WatchInv(g, l) && s in l.subs
    ensures WatchInv(Unwatched(g, s, ps, now), Unsubscribed(l, s, ps, f))
  {
    var h, m := Unwatched(g, s, ps, now), Unsubscribed(l, s, ps, f);
    forall r, x | r in h.rems && x in h.rems[r].subscribers ensures Watches(h.rems[r], m, x) {
      assert Watches(g.rems[r], l, x);
    }
  }

  lemma SubscribeKeepsWatch(g: Forest, l: LinkTable, s: Subscriber, ps: set<Publisher>, f: map<int, Publisher>)
    requires WatchInv(g, l) && s in l.subs && ps <= l.pubs.Keys
    ensures WatchInv(Watched(g, s, l.subs[s].backend, ps), Subscribed(l, s, ps, f))
  {
    var h, m := Watched(g, s, l.subs[s].backend, ps), Subscribed(l, s, ps, f);
    forall r, x | r in h.rems && x in h.rems[r].subscribers ensures Watches(h.rems[r], m, x) {
      if x in g.rems[r].subscribers {
        assert Watches(g.rems[r], l, x);
      }
    }
  }

  /** The links once publisher `p` has hung up on everyone who watches it. */
  ghost function PublisherOff(l: LinkTable, p: Publisher): LinkTable
    requires p in l.pubs
  {
    LinkTable(l.pubs[p := l.pubs[p].(subscribers := {})],
              map s | s in l.subs :: WithoutFeed(l.subs[s], p, s in l.pubs[p].subscribers))
  }

  ghost function WithoutFeed(v: SubscriberLinks, p: Publisher, watching: bool): SubscriberLinks {
    if watching then v.(feeds := v.feeds - {p.userId}) else v
  }

  /** The links once publisher `p` is destroyed: no subscriber watches it or is owned by it. */
  ghost function PublisherGone(l: LinkTable, p: Publisher): LinkTable
    requires p in l.pubs
  {
    LinkTable(l.pubs[p := PublisherLinks({}, {})],
              map s | s in l.subs ::
                WithoutFeed(if s in l.pubs[p].subscriptions then l.subs[s].(owner := null) else l.subs[s],
                            p, s in l.pubs[p].subscribers))
  }

  /** The links once subscriber `s` is destroyed: it is in no publisher's set and watches nothing. */
  ghost function SubscriberGone(l: LinkTable, s: Subscriber): LinkTable
    requires s in l.subs
  {
    LinkTable(map p | p in l.pubs :: l.pubs[p].(subscribers := l.pubs[p].subscribers - {s},
                                                subscriptions := l.pubs[p].subscriptions - {s}),
              l.subs[s := SubscriberLinks(true, null, null, map[], null)])
  }

  lemma PublisherOffKeepsLinks(l: LinkTable, p: Publisher)
    requires LinkInv(l) && p in l.pubs
    ensures LinkInv(PublisherOff(l, p))
  {
    var m := PublisherOff(l, p);
    assert PublisherMirrored(l, p);
    forall q | q in m.pubs ensures PublisherMirrored(m, q) {
      assert PublisherMirrored(l, q);
    }
    forall s | s in m.subs ensures SubscriberMirrored(m, s) {
      assert SubscriberMirrored(l, s);
      forall u | u in m.subs[s].feeds ensures Feeds(m, m.subs[s].feeds[u], u, s) {
        assert Feeds(l, l.subs[s].feeds[u], u, s);
      }
    }
  }

  lemma PublisherGoneKeepsLinks(l: LinkTable, p: Publisher)
    requires LinkInv(l) && p in l.pubs
    ensures LinkInv(PublisherGone(l, p))
  {
    var m := PublisherGone(l, p);
    assert PublisherMirrored(l, p);
    forall q | q in m.pubs ensures PublisherMirrored(m, q) {
      assert PublisherMirrored(l, q);
    }
    forall s | s in m.subs ensures SubscriberMirrored(m, s) {
      assert SubscriberMirrored(l, s);
      forall u | u in m.subs[s].feeds ensures Feeds(m, m.subs[s].feeds[u], u, s) {
        assert Feeds(l, l.subs[s].feeds[u], u, s);
      }
    }
  }

  lemma SubscriberGoneKeepsLinks(l: LinkTable, s: Subscriber)
    requires LinkInv(l) && s in l.subs
    ensures LinkInv(SubscriberGone(l, s))
  {
    var m := SubscriberGone(l, s);
    forall q | q in m.pubs ensures PublisherMirrored(m, q) {
      assert PublisherMirrored(l, q);
    }
    forall t | t in m.subs ensures SubscriberMirrored(m, t) {
      assert SubscriberMirrored(l, t);
      forall u | u in m.subs[t].feeds ensures Feeds(m, m.subs[t].feeds[u], u, t) {
        assert Feeds(l, l.subs[t].feeds[u], u, t);
      }
    }
  }

  /** Leaving every publisher it watches takes a subscriber out of every remote publisher. */
  lemma SubscriberGoneKeepsWatch(g: Forest, l: LinkTable, s: Subscriber, now: Time)
    requires LinkInv(l) && WatchInv(g, l) && s in l.subs
    ensures WatchInv(Unwatched(g, s, l.subs[s].feeds.Values, now), SubscriberGone(l, s))
  {
    var h, m := Unwatched(g, s, l.subs[s].feeds.Values, now), SubscriberGone(l, s);
    forall r, x | r in h.rems && x in h.rems[r].subscribers ensures Watches(h.rems[r], m, x) {
      assert Watches(g.rems[r], l, x);
      assert PublisherMirrored(l, g.rems[r].origin);
      assert l.subs[x].feeds[g.rems[r].origin.userId] in l.subs[x].feeds.Values;
    }
  }

  lemma PublisherDownKeepsWatch(g: Forest, l: LinkTable, p: Publisher, v: PublisherNode, m: LinkTable)
    requires WatchInv(g, l) && TreeInv(g) && p in l.pubs && p in g.pubs
    requires m == PublisherOff(l, p) || m == PublisherGone(l, p)
    ensures WatchInv(PublisherDown(g, p, v), m)
  {
    var h := PublisherDown(g, p, v);
    forall r, x | r in h.rems && x in h.rems[r].subscribers ensures Watches(h.rems[r], m, x) {
      assert RemoteShape(g, r);
      assert Watches(g.rems[r], l, x);
    }
  }

  /** A destroyed publisher leaves its tree, its links and its watchers in order. */
  lemma DownAndGone(g: Forest, l: LinkTable, p: Publisher)
    requires TreeInv(g) && LinkInv(l) && WatchInv(g, l) && p in g.pubs && p in l.pubs
    ensures var h := PublisherDown(g, p, PublisherNode(true, false, map[], {}));
      TreeInv(h) && LinkInv(PublisherGone(l, p)) && WatchInv(h, PublisherGone(l, p))
  {
    hide *;
    PublisherGoneKeepsLinks(l, p);
    PublisherDownKeepsWatch(g, l, p, PublisherNode(true, false, map[], {}), PublisherGone(l, p));
    PublisherDownKeepsTrees(g, p, PublisherNode(true, false, map[], {}));
  }

  // ---------- The room index ----------

  datatype PublisherSeat = PublisherSeat(pvtId: int, room: VideoRoom?, backend: BackendRoom?)

  datatype RoomTable = RoomTable(
    destroyed: bool, participants: map<int, Publisher>, privateIds: map<int, Publisher>,
    backends: map<string, BackendRoom>, idleTs: int)

  datatype BackendTable = BackendTable(destroyed: bool, room: VideoRoom?, publishers: set<int>)

  /** Which publisher sits in which room and on which backend room, at one instant. */
  datatype IndexTable = IndexTable(
    pubs: map<Publisher, PublisherSeat>, rooms: map<VideoRoom, RoomTable>, backs: map<BackendRoom, BackendTable>)

  /** `_participants` and `_private_id` are in bijection through each publisher's pvt_id; a room knows exactly
      the undestroyed publishers that sit in it, by their own id; no participant uses the backend room id; a
      valid backend room counts exactly the publishers placed on it; and a destroyed object is in no table. */
  ghost predicate IndexInv(i: IndexTable) {
    && (forall p :: p in i.pubs ==> SeatShape(i, p))
    && (forall r :: r in i.rooms ==> RoomShape(i, r))
    && (forall b :: b in i.backs ==> BackendShape(i, b))
    && (forall p, q :: p in i.pubs && q in i.pubs && SamePlace(i, p, q) ==> p == q)
  }

  ghost predicate SamePlace(i: IndexTable, p: Publisher, q: Publisher)
    requires p in i.pubs && q in i.pubs
  {
    i.pubs[p].backend != null && i.pubs[p].backend == i.pubs[q].backend && p.userId == q.userId
  }

  ghost predicate SeatShape(i: IndexTable, p: Publisher)
    requires p in i.pubs
  {
    var v := i.pubs[p];
    && (v.room != null ==> v.room in i.rooms && SitsIn(i, p, v.room))
    && (v.backend != null ==>
          v.backend in i.backs && (i.backs[v.backend].destroyed || PlacedOn(i, p, i.backs[v.backend])))
  }

  /** A publisher placed on a valid backend room is counted there, and sits in its room while that is alive. */
  ghost predicate PlacedOn(i: IndexTable, p: Publisher, b: BackendTable)
    requires p in i.pubs
  {
    && p.userId in b.publishers
    && (b.room in i.rooms && !i.rooms[b.room].destroyed ==> i.pubs[p].room == b.room)
  }

  ghost predicate SitsIn(i: IndexTable, p: Publisher, r: VideoRoom)
    requires p in i.pubs && r in i.rooms
  {
    && p.userId in i.rooms[r].participants && i.rooms[r].participants[p.userId] == p
    && i.pubs[p].pvtId in i.rooms[r].privateIds && i.rooms[r].privateIds[i.pubs[p].pvtId] == p
  }

  ghost predicate RoomShape(i: IndexTable, r: VideoRoom)
    requires r in i.rooms
  {
    var v := i.rooms[r];
    && (v.destroyed ==> v.participants == map[] && v.privateIds == map[] && v.backends == map[])
    && (!v.destroyed ==> (v.idleTs == 0 <==> v.participants != map[]))
    && (forall u :: u in v.participants ==> Seated(i, r, v.participants[u]) && v.participants[u].userId == u)
    && (forall k :: k in v.privateIds ==> Seated(i, r, v.privateIds[k]) && i.pubs[v.privateIds[k]].pvtId == k)
    && r.backendRoomId !in v.participants
    && (forall n :: n in v.backends ==> Hosts(i, r, n, v.backends[n]))
  }

  ghost predicate Seated(i: IndexTable, r: VideoRoom, p: Publisher) {
    p in i.pubs && i.pubs[p].room == r
  }

  ghost predicate Hosts(i: IndexTable, r: VideoRoom, n: string, b: BackendRoom) {
    b in i.backs && !i.backs[b].destroyed && i.backs[b].room == r && b.serverName == n
  }

  ghost predicate BackendShape(i: IndexTable, b: BackendRoom)
    requires b in i.backs
  {
    var v := i.backs[b];
    && (v.destroyed ==> v.publishers == {})
    && (!v.destroyed ==> v.room in i.rooms && (i.rooms[v.room].destroyed || ServesRoom(i.rooms[v.room], b)))
    && (forall u :: u in v.publishers ==> exists p :: p in i.pubs && PlacedAs(i, p, u, b))
  }

  ghost predicate ServesRoom(v: RoomTable, b: BackendRoom) {
    b.serverName in v.backends && v.backends[b.serverName] == b
  }

  ghost predicate PlacedAs(i: IndexTable, p: Publisher, u: int, b: BackendRoom) {
    p in i.pubs && i.pubs[p].backend == b && p.userId == u
  }

  /** A room once the participant with id `u`, if any, has left it. */
  ghost function RoomWithout(v: RoomTable, u: int, pvtId: int, now: Time): RoomTable {
    if u !in v.participants then v
    else v.(participants := v.participants - {u}, privateIds := v.privateIds - {pvtId},
            idleTs := IdleTs(v.participants - {u} != map[], v.idleTs, now))
  }

  /** The index once publisher `p` is destroyed: it has left its room and its backend room. */
  ghost function Unseat(i: IndexTable, p: Publisher, now: Time): IndexTable
    requires p in i.pubs
  {
    var v := i.pubs[p];
    IndexTable(i.pubs[p := v.(room := null, backend := null)],
               if v.room in i.rooms then i.rooms[v.room := RoomWithout(i.rooms[v.room], p.userId, v.pvtId, now)]
                   else i.rooms,
               if v.backend in i.backs then i.backs[v.backend := BackendWithout(i.backs[v.backend], p.userId)]
                   else i.backs)
  }

  ghost function BackendWithout(v: BackendTable, u: int): BackendTable {
    v.(publishers := v.publishers - {u})
  }

  lemma UnseatKeepsSeat(i: IndexTable, p: Publisher, q: Publisher, now: Time)
    requires p in i.pubs && q in i.pubs && SeatShape(i, p) && SeatShape(i, q)
    requires q != p ==> !SamePlace(i, q, p)
    ensures SeatShape(Unseat(i, p, now), q)
  {
    if q != p && i.pubs[q].room != null && i.pubs[q].room == i.pubs[p].room {
      assert q.userId != p.userId && i.pubs[q].pvtId != i.pubs[p].pvtId;
    }
  }

  lemma UnseatKeepsRoom(i: IndexTable, p: Publisher, r: VideoRoom, now: Time)
    requires p in i.pubs && r in i.rooms && SeatShape(i, p) && RoomShape(i, r)
    ensures RoomShape(Unseat(i, p, now), r)
  {
    var j := Unseat(i, p, now);
    forall u | u in j.rooms[r].participants
      ensures Seated(j, r, j.rooms[r].participants[u]) && j.rooms[r].participants[u].userId == u
    {
      assert Seated(i, r, i.rooms[r].participants[u]);
    }
    forall k | k in j.rooms[r].privateIds
      ensures Seated(j, r, j.rooms[r].privateIds[k]) && j.pubs[j.rooms[r].privateIds[k]].pvtId == k
    {
      assert Seated(i, r, i.rooms[r].privateIds[k]);
    }
    forall n | n in j.rooms[r].backends ensures Hosts(j, r, n, j.rooms[r].backends[n]) {
      assert Hosts(i, r, n, i.rooms[r].backends[n]);
    }
  }

  lemma UnseatKeepsBackend(i: IndexTable, p: Publisher, b: BackendRoom, now: Time)
    requires p in i.pubs && b in i.backs && SeatShape(i, p) && BackendShape(i, b)
    ensures BackendShape(Unseat(i, p, now), b)
  {
    var j := Unseat(i, p, now);
    forall u | u in j.backs[b].publishers ensures exists q :: q in j.pubs && PlacedAs(j, q, u, b) {
      var q :| q in i.pubs && PlacedAs(i, q, u, b);
      assert PlacedAs(j, q, u, b);
    }
  }

  lemma UnseatKeepsIndex(i: IndexTable, p: Publisher, now: Time)
    requires IndexInv(i) && p in i.pubs
    ensures IndexInv(Unseat(i, p, now))
  {
    hide SeatShape, RoomShape, BackendShape;
    var j := Unseat(i, p, now);
    forall q | q in j.pubs ensures SeatShape(j, q) { UnseatKeepsSeat(i, p, q, now); }
    forall r | r in j.rooms ensures RoomShape(j, r) { UnseatKeepsRoom(i, p, r, now); }
    forall b | b in j.backs ensures BackendShape(j, b) { UnseatKeepsBackend(i, p, b, now); }
    forall q, t | q in j.pubs && t in j.pubs && SamePlace(j, q, t) ensures q == t {
      assert SamePlace(i, q, t);
    }
  }

  ghost function WithoutBackend(i: IndexTable, p: Publisher): IndexTable
    requires p in i.pubs
  {
    var b := i.pubs[p].backend;
    i.(pubs := i.pubs[p := i.pubs[p].(backend := null)],
       backs := if b in i.backs then i.backs[b := BackendWithout(i.backs[b], p.userId)] else i.backs)
  }

  lemma WithoutBackendInSteps(i: IndexTable, p: Publisher)
    requires p in i.pubs && (i.pubs[p].backend != null ==> i.pubs[p].backend in i.backs)
    ensures var v, b := i.pubs[p], i.pubs[p].backend;
      WithoutBackend(i, p) ==
      if b == null then i
      else i.(pubs := i.pubs[p := PublisherSeat(v.pvtId, v.room, null)],
              backs := i.backs[b := BackendTable(i.backs[b].destroyed, i.backs[b].room,
                i.backs[b].publishers - {p.userId})])
  {
    assert i.pubs[p].backend == null ==> i.pubs[p := i.pubs[p].(backend := null)] == i.pubs;
  }

  ghost function WithoutRoom(i: IndexTable, p: Publisher, now: Time): IndexTable
    requires p in i.pubs
  {
    var r := i.pubs[p].room;
    i.(pubs := i.pubs[p := i.pubs[p].(room := null)],
       rooms := if r in i.rooms then i.rooms[r := RoomWithout(i.rooms[r], p.userId, i.pubs[p].pvtId, now)] else i.rooms)
  }

  lemma UnseatInSteps(i: IndexTable, p: Publisher, now: Time)
    requires p in i.pubs
    ensures WithoutRoom(WithoutBackend(i, p), p, now) == Unseat(i, p, now)
  {
  }

  /** The feed of `p` taken from the subscribers `done`. */
  ghost function FeedsDropped(l: LinkTable, p: Publisher, done: set<Subscriber>): LinkTable
    requires p in l.pubs
  {
    LinkTable(l.pubs[p := l.pubs[p].(subscribers := {})],
              map s | s in l.subs :: WithoutFeed(l.subs[s], p, s in done))
  }

  /** The owner `p` taken from the subscribers `done`. */
  ghost function OwnersDropped(l: LinkTable, p: Publisher, done: set<Subscriber>): LinkTable
    requires p in l.pubs
  {
    LinkTable(l.pubs[p := l.pubs[p].(subscriptions := {})],
              map s | s in l.subs :: if s in done && l.subs[s].owner == p then l.subs[s].(owner := null) else l.subs[s])
  }

  ghost function WithSubscriber(l: LinkTable, s: Subscriber, v: SubscriberLinks): LinkTable {
    l.(subs := l.subs[s := v])
  }

  lemma WithSubscriberIs(l: LinkTable, s: Subscriber, v: SubscriberLinks)
    ensures WithSubscriber(l, s, v) == l.(subs := l.subs[s := v])
  {
  }

  lemma OneFeedDropped(l: LinkTable, p: Publisher, done: set<Subscriber>, s: Subscriber)
    requires p in l.pubs && s in FeedsDropped(l, p, done).subs && s !in done
    ensures s in l.subs
    ensures var m := FeedsDropped(l, p, done);
      m.subs[s] == l.subs[s] &&
      WithSubscriber(m, s, l.subs[s].(feeds := l.subs[s].feeds - {p.userId})) == FeedsDropped(l, p, done + {s})
  {
    var m := FeedsDropped(l, p, done);
    assert WithSubscriber(m, s, l.subs[s].(feeds := l.subs[s].feeds - {p.userId})).subs
        == FeedsDropped(l, p, done + {s}).subs;
  }

  lemma OneOwnerDropped(l: LinkTable, p: Publisher, done: set<Subscriber>, s: Subscriber)
    requires p in l.pubs && s in OwnersDropped(l, p, done).subs && s !in done
    ensures s in l.subs
    ensures var m := OwnersDropped(l, p, done);
      m.subs[s] == l.subs[s] &&
      WithSubscriber(m, s, l.subs[s].(owner := if l.subs[s].owner == p then null else l.subs[s].owner))
        == OwnersDropped(l, p, done + {s})
  {
    var m := OwnersDropped(l, p, done);
    assert WithSubscriber(m, s, l.subs[s].(owner := if l.subs[s].owner == p then null else l.subs[s].owner)).subs
        == OwnersDropped(l, p, done + {s}).subs;
  }

  lemma NoneDropped(l: LinkTable, p: Publisher)
    requires p in l.pubs
    ensures FeedsDropped(l, p, {}) == l.(pubs := l.pubs[p := l.pubs[p].(subscribers := {})])
    ensures OwnersDropped(l, p, {}) == l.(pubs := l.pubs[p := l.pubs[p].(subscriptions := {})])
  {
    assert FeedsDropped(l, p, {}).subs == l.subs;
    assert OwnersDropped(l, p, {}).subs == l.subs;
  }

  lemma OwnSeat(i: IndexTable, p: Publisher)
    requires SeatIsOwn(i, p)
    ensures p in i.pubs && (i.pubs[p].backend != null ==> i.pubs[p].backend in i.backs)
  {
  }

  lemma StillOwnSeat(i: IndexTable, p: Publisher)
    requires SeatIsOwn(i, p)
    ensures SeatIsOwn(WithoutBackend(i, p), p)
  {
  }

  lemma GoneInSteps(l: LinkTable, p: Publisher)
    requires LinkInv(l) && p in l.pubs
    ensures FeedsDropped(OwnersDropped(l, p, l.pubs[p].subscriptions), p, l.pubs[p].subscribers)
         == PublisherGone(l, p)
    ensures FeedsDropped(l, p, l.pubs[p].subscribers) == PublisherOff(l, p)
    ensures l.pubs[p].subscribers <= l.subs.Keys && l.pubs[p].subscriptions <= l.subs.Keys
  {
    assert PublisherMirrored(l, p);
    assert FeedsDropped(OwnersDropped(l, p, l.pubs[p].subscriptions), p, l.pubs[p].subscribers).subs
        == PublisherGone(l, p).subs;
  }

  /** A publisher sits where its seat says, so that leaving takes out this publisher and no other. */
  ghost predicate SeatIsOwn(i: IndexTable, p: Publisher) {
    && p in i.pubs
    && (i.pubs[p].backend != null ==> i.pubs[p].backend in i.backs)
    && (i.pubs[p].room != null ==> i.pubs[p].room in i.rooms)
    && (i.pubs[p].room != null ==>
          (p.userId in i.rooms[i.pubs[p].room].participants ==> i.rooms[i.pubs[p].room].participants[p.userId] == p))
  }

  /** While its room is alive, a subscriber watches only participants of that room. */
  ghost predicate FeedInv(l: LinkTable, i: IndexTable) {
    && (forall s, u :: s in l.subs && u in l.subs[s].feeds ==> InRoomOf(l.subs[s], l.subs[s].feeds[u], i))
    && (forall s :: s in l.subs && l.subs[s].room != null ==> l.subs[s].room in i.rooms)
  }

  ghost predicate InRoomOf(v: SubscriberLinks, p: Publisher, i: IndexTable) {
    v.room in i.rooms && p in i.pubs && (!i.rooms[v.room].destroyed ==> i.pubs[p].room == v.room)
  }

  lemma PublisherGoneKeepsFeeds(l: LinkTable, i: IndexTable, p: Publisher, now: Time)
    requires FeedInv(l, i) && LinkInv(l) && p in l.pubs && p in i.pubs
    ensures FeedInv(PublisherGone(l, p), Unseat(i, p, now))
  {
    var m, j := PublisherGone(l, p), Unseat(i, p, now);
    forall s, u | s in m.subs && u in m.subs[s].feeds ensures InRoomOf(m.subs[s], m.subs[s].feeds[u], j) {
      assert SubscriberMirrored(l, s);
      assert Feeds(l, l.subs[s].feeds[u], u, s);
      assert InRoomOf(l.subs[s], l.subs[s].feeds[u], i);
      assert i.rooms[l.subs[s].room].destroyed ==> j.rooms[l.subs[s].room].destroyed;
    }
  }

  // ---------- The invariant of the proxy between two steps ----------

  datatype ProxyState = ProxyState(trees: Forest, links: LinkTable, index: IndexTable)

  ghost predicate Inv(st: ProxyState) {
    && st.trees.pubs.Keys == st.links.pubs.Keys == st.index.pubs.Keys
    && TreeInv(st.trees) && LinkInv(st.links) && WatchInv(st.trees, st.links)
    && IndexInv(st.index) && FeedInv(st.links, st.index) && DeadInv(st)
  }

  /** No destroyed publisher is left in any link, room or backend room. */
  ghost predicate DeadInv(st: ProxyState) {
    forall p :: p in st.trees.pubs && st.trees.pubs[p].destroyed ==> Departed(st, p)
  }

  ghost predicate Departed(st: ProxyState, p: Publisher) {
    && p in st.links.pubs && st.links.pubs[p] == PublisherLinks({}, {})
    && p in st.index.pubs && st.index.pubs[p].room == null && st.index.pubs[p].backend == null
  }

  ghost function PublisherDestroyed(st: ProxyState, p: Publisher, now: Time): ProxyState
    requires p in st.trees.pubs && p in st.links.pubs && p in st.index.pubs
  {
    if st.trees.pubs[p].destroyed then st
    else ProxyState(PublisherDown(st.trees, p, PublisherNode(true, false, map[], {})), PublisherGone(st.links, p),
               Unseat(st.index, p, now))
  }

  lemma OthersStayDead(st: ProxyState, p: Publisher, v: PublisherNode, m: LinkTable, j: IndexTable)
    requires Inv(st) && p in st.trees.pubs
    requires m.pubs.Keys == j.pubs.Keys == st.trees.pubs.Keys
    requires forall q :: q in m.pubs && q != p ==> m.pubs[q] == st.links.pubs[q] && j.pubs[q] == st.index.pubs[q]
    requires v.destroyed ==> m.pubs[p] == PublisherLinks({}, {}) && j.pubs[p].room == null && j.pubs[p].backend == null
    ensures DeadInv(ProxyState(PublisherDown(st.trees, p, v), m, j))
  {
    var n := ProxyState(PublisherDown(st.trees, p, v), m, j);
    forall q | q in n.trees.pubs && n.trees.pubs[q].destroyed ensures Departed(n, q) {
      assert q != p ==> Departed(st, q);
    }
  }

  /** Destroying a publisher, from any reachable state, reaches a state of the invariant. */
  lemma PublisherDestroyedKeepsInv(st: ProxyState, p: Publisher, now: Time)
    requires Inv(st) && p in st.trees.pubs
    ensures Inv(PublisherDestroyed(st, p, now))
  {
    hide TreeInv, LinkInv, WatchInv, IndexInv, FeedInv, DeadInv, IsSubtree, TreeShape;
    if !st.trees.pubs[p].destroyed {
      var v := PublisherNode(true, false, map[], {});
      PublisherDownKeepsTrees(st.trees, p, v);
      PublisherGoneKeepsLinks(st.links, p);
      PublisherDownKeepsWatch(st.trees, st.links, p, v, PublisherGone(st.links, p));
      UnseatKeepsIndex(st.index, p, now);
      PublisherGoneKeepsFeeds(st.links, st.index, p, now);
      OthersStayDead(st, p, v, PublisherGone(st.links, p), Unseat(st.index, p, now));
    }
  }

  lemma PublisherDestroyedIs(st: ProxyState, p: Publisher, now: Time)
    requires p in st.trees.pubs && p in st.links.pubs && p in st.index.pubs
    ensures PublisherDestroyed(st, p, now) ==
              if st.trees.pubs[p].destroyed then st
              else ProxyState(PublisherDown(st.trees, p, PublisherNode(true, false, map[], {})),
                PublisherGone(st.links, p),
                              Unseat(st.index, p, now))
  {
  }

  lemma PublisherHungUpIs(st: ProxyState, p: Publisher)
    requires p in st.trees.pubs && p in st.links.pubs
    ensures PublisherHungUp(st, p) ==
              ProxyState(PublisherDown(st.trees, p, PublisherNode(st.trees.pubs[p].destroyed, false, map[], {})),
                         PublisherOff(st.links, p), st.index)
  {
  }

  /** What a hangup of publisher `p` leaves of it and of its watchers. */
  lemma HungUpFields(st: ProxyState, p: Publisher)
    requires Inv(st) && p in st.trees.pubs && p in st.links.pubs
    ensures var n := PublisherHungUp(st, p);
      && p in n.trees.pubs && n.trees.pubs[p] == PublisherNode(st.trees.pubs[p].destroyed, false, map[], {})
      && p in n.links.pubs && n.links.pubs[p] == PublisherLinks({}, st.links.pubs[p].subscriptions)
      && (forall s :: s in st.links.pubs[p].subscribers ==> s in n.links.subs && p.userId !in n.links.subs[s].feeds)
      && n.index == st.index
  {
    assert PublisherMirrored(st.links, p);
  }

  /** What a destroyed publisher leaves of its room. */
  lemma DestroyedLeavesRoom(st: ProxyState, p: Publisher, now: Time, r: VideoRoom)
    requires Inv(st) && p in st.trees.pubs && p in st.links.pubs && p in st.index.pubs && !st.trees.pubs[p].destroyed
    requires r in st.index.rooms && st.index.pubs[p].room == r
    ensures var n := PublisherDestroyed(st, p, now);
      && r in n.index.rooms && n.index.rooms[r].participants == st.index.rooms[r].participants - {p.userId}
      && n.index.rooms[r].privateIds == st.index.rooms[r].privateIds - {st.index.pubs[p].pvtId}
  {
    assert SeatShape(st.index, p);
  }

  /** What one publisher may rely on between two steps. */
  lemma InvParts(st: ProxyState, p: Publisher)
    requires Inv(st) && p in st.trees.pubs
    ensures TreeInv(st.trees) && LinkInv(st.links) && WatchInv(st.trees, st.links) && IndexInv(st.index)
    ensures FeedInv(st.links, st.index) && DeadInv(st)
    ensures SeatIsOwn(st.index, p)
  {
    assert SeatShape(st.index, p);
  }

  ghost function WithStarted(g: Forest, p: Publisher): Forest
    requires p in g.pubs
  {
    g.(pubs := g.pubs[p := g.pubs[p].(started := true)])
  }

  lemma WithStartedIs(g: Forest, p: Publisher)
    requires p in g.pubs
    ensures WithStarted(g, p) == g.(pubs := g.pubs[p :=
              PublisherNode(g.pubs[p].destroyed, true, g.pubs[p].remotes, g.pubs[p].children)])
  {
  }

  lemma StartedKeepsTrees(g: Forest, p: Publisher)
    requires TreeInv(g) && p in g.pubs && !g.pubs[p].destroyed
    ensures TreeInv(WithStarted(g, p))
  {
    hide PublisherShape, RemoteShape, RemoteLinked, PublisherQuiet;
    var h := WithStarted(g, p);
    forall q | q in h.pubs ensures PublisherShape(h, q) && PublisherQuiet(h, q) { StartedPublisher(g, p, q); }
    forall r | r in h.rems ensures RemoteShape(h, r) && RemoteLinked(h, r) { StartedRemote(g, p, r); }
  }

  lemma StartedPublisher(g: Forest, p: Publisher, q: Publisher)
    requires p in g.pubs && !g.pubs[p].destroyed && q in g.pubs && PublisherShape(g, q) && PublisherQuiet(g, q)
    ensures PublisherShape(WithStarted(g, p), q) && PublisherQuiet(WithStarted(g, p), q)
  {
  }

  lemma StartedRemote(g: Forest, p: Publisher, r: RemotePublisher)
    requires p in g.pubs && r in g.rems && RemoteShape(g, r) && RemoteLinked(g, r)
    ensures RemoteShape(WithStarted(g, p), r) && RemoteLinked(WithStarted(g, p), r)
  {
  }

  /** `h` adds no watcher to `g`. */
  ghost predicate WatchersKept(g: Forest, h: Forest) {
    forall r :: r in h.rems && h.rems[r].subscribers != {} ==> r in g.rems && SameWatchers(g.rems[r], h.rems[r])
  }

  ghost predicate SameWatchers(v: RemoteNode, u: RemoteNode) {
    u.subscribers == v.subscribers && u.origin == v.origin && u.remoteId == v.remoteId
  }

  /** A change of the forest that creates and destroys no publisher and adds no watcher keeps the invariant
      if it keeps the invariant of the forest. */
  lemma TreesReplaced(st: ProxyState, h: Forest)
    requires Inv(st) && TreeInv(h) && h.pubs.Keys == st.trees.pubs.Keys && WatchersKept(st.trees, h)
    requires forall p :: p in h.pubs ==> h.pubs[p].destroyed == st.trees.pubs[p].destroyed
    ensures Inv(st.(trees := h))
  {
    hide TreeInv, LinkInv, IndexInv, FeedInv;
    var n := st.(trees := h);
    forall r, s | r in h.rems && s in h.rems[r].subscribers ensures Watches(h.rems[r], st.links, s) {
      assert SameWatchers(st.trees.rems[r], h.rems[r]) && Watches(st.trees.rems[r], st.links, s);
    }
    forall p | p in n.trees.pubs && n.trees.pubs[p].destroyed ensures Departed(n, p) {
      assert Departed(st, p);
    }
  }

  lemma StartedKeepsInv(st: ProxyState, p: Publisher)
    requires Inv(st) && p in st.trees.pubs && !st.trees.pubs[p].destroyed
    ensures Inv(st.(trees := WithStarted(st.trees, p)))
  {
    StartedKeepsTrees(st.trees, p);
    TreesReplaced(st, WithStarted(st.trees, p));
  }

  ghost function PublisherHungUp(st: ProxyState, p: Publisher): ProxyState
    requires p in st.trees.pubs && p in st.links.pubs
  {
    ProxyState(PublisherDown(st.trees, p, PublisherNode(st.trees.pubs[p].destroyed, false, map[], {})),
          PublisherOff(st.links, p), st.index)
  }

  lemma PublisherOffKeepsFeeds(l: LinkTable, i: IndexTable, p: Publisher)
    requires FeedInv(l, i) && p in l.pubs
    ensures FeedInv(PublisherOff(l, p), i)
  {
    var m := PublisherOff(l, p);
    forall s, u | s in m.subs && u in m.subs[s].feeds ensures InRoomOf(m.subs[s], m.subs[s].feeds[u], i) {
      assert InRoomOf(l.subs[s], l.subs[s].feeds[u], i);
    }
  }

  lemma PublisherHungUpKeepsInv(st: ProxyState, p: Publisher)
    requires Inv(st) && p in st.trees.pubs
    ensures Inv(PublisherHungUp(st, p))
  {
    hide TreeInv, LinkInv, WatchInv, IndexInv, FeedInv, TreeShape;
    var v := PublisherNode(st.trees.pubs[p].destroyed, false, map[], {});
    PublisherDownKeepsTrees(st.trees, p, v);
    PublisherOffKeepsLinks(st.links, p);
    PublisherDownKeepsWatch(st.trees, st.links, p, v, PublisherOff(st.links, p));
    PublisherOffKeepsFeeds(st.links, st.index, p);
    assert v.destroyed ==> Departed(st, p);
    OthersStayDead(st, p, v, PublisherOff(st.links, p), st.index);
  }

  // ---------- Steps of a subscriber ----------

  lemma UnsubscribedKeepsLinks(l: LinkTable, s: Subscriber, ps: set<Publisher>, f: map<int, Publisher>)
    requires LinkInv(l) && s in l.subs
    requires forall u :: u in f ==> u in l.subs[s].feeds && f[u] == l.subs[s].feeds[u] && f[u] !in ps
    requires forall u :: u in l.subs[s].feeds && u !in f ==> l.subs[s].feeds[u] in ps
    ensures LinkInv(Unsubscribed(l, s, ps, f))
  {
    var m := Unsubscribed(l, s, ps, f);
    forall q | q in m.pubs ensures PublisherMirrored(m, q) {
      assert PublisherMirrored(l, q);
    }
    forall t | t in m.subs ensures SubscriberMirrored(m, t) {
      assert SubscriberMirrored(l, t);
      forall u | u in m.subs[t].feeds ensures Feeds(m, m.subs[t].feeds[u], u, t) {
        assert Feeds(l, l.subs[t].feeds[u], u, t);
      }
    }
  }

  lemma SubscribedKeepsLinks(l: LinkTable, s: Subscriber, ps: set<Publisher>, f: map<int, Publisher>)
    requires LinkInv(l) && s in l.subs && !l.subs[s].destroyed
    requires forall u :: u in l.subs[s].feeds ==> u in f && f[u] == l.subs[s].feeds[u]
    requires forall u :: u in f && u !in l.subs[s].feeds ==> f[u] in ps && f[u] in l.pubs && f[u].userId == u
    requires forall p :: p in ps ==> p.userId in f && f[p.userId] == p
    ensures LinkInv(Subscribed(l, s, ps, f))
  {
    var m := Subscribed(l, s, ps, f);
    forall q | q in m.pubs ensures PublisherMirrored(m, q) {
      assert PublisherMirrored(l, q);
    }
    forall t | t in m.subs ensures SubscriberMirrored(m, t) {
      assert SubscriberMirrored(l, t);
      forall u | u in m.subs[t].feeds ensures Feeds(m, m.subs[t].feeds[u], u, t) {
        if t != s || u in l.subs[t].feeds { assert Feeds(l, l.subs[t].feeds[u], u, t); }
      }
    }
  }

  /** The proxy once subscriber `s` is destroyed. */
  ghost function SubscriberDestroyed(st: ProxyState, s: Subscriber, now: Time): ProxyState
    requires s in st.links.subs
  {
    if st.links.subs[s].destroyed then st
    else ProxyState(Unwatched(st.trees, s, st.links.subs[s].feeds.Values, now), SubscriberGone(st.links, s), st.index)
  }

  /** The proxy once the peer connection of subscriber `s` is down: it watches nobody but stays in its room. */
  ghost function SubscriberHungUp(st: ProxyState, s: Subscriber, now: Time): ProxyState
    requires s in st.links.subs
  {
    ProxyState(Unwatched(st.trees, s, st.links.subs[s].feeds.Values, now),
               Unsubscribed(st.links, s, st.links.subs[s].feeds.Values, map[]), st.index)
  }

  /** `m` changes the links of `l` only around subscriber `s`, and adds nothing to a publisher in `idle`. */
  ghost predicate OnlyLeaves(l: LinkTable, m: LinkTable) {
    && m.pubs.Keys == l.pubs.Keys
    && (forall p :: p in l.pubs && l.pubs[p] == PublisherLinks({}, {}) ==> m.pubs[p] == PublisherLinks({}, {}))
    && (forall s :: s in m.subs && m.subs[s].room != null ==> s in l.subs && m.subs[s].room == l.subs[s].room)
    && (forall s :: s in m.subs && m.subs[s].feeds != map[] ==> s in l.subs && SameOrFewerFeeds(l.subs[s], m.subs[s]))
  }

  ghost predicate SameOrFewerFeeds(v: SubscriberLinks, u: SubscriberLinks) {
    u.room == v.room && (forall k :: k in u.feeds ==> k in v.feeds && u.feeds[k] == v.feeds[k])
  }

  /** A step that only takes links away and keeps the other parts of the invariant keeps the invariant. */
  lemma LinksLeft(st: ProxyState, h: Forest, m: LinkTable)
    requires Inv(st) && TreeInv(h) && LinkInv(m) && WatchInv(h, m)
    requires h.pubs == st.trees.pubs && OnlyLeaves(st.links, m)
    ensures Inv(ProxyState(h, m, st.index))
  {
    hide TreeInv, LinkInv, WatchInv, IndexInv;
    var n := ProxyState(h, m, st.index);
    forall p | p in n.trees.pubs && n.trees.pubs[p].destroyed ensures Departed(n, p) {
      assert Departed(st, p);
    }
    forall s, u | s in m.subs && u in m.subs[s].feeds ensures InRoomOf(m.subs[s], m.subs[s].feeds[u], st.index) {
      assert SameOrFewerFeeds(st.links.subs[s], m.subs[s]);
      assert InRoomOf(st.links.subs[s], st.links.subs[s].feeds[u], st.index);
    }
  }

  lemma SubscriberDestroyedKeepsInv(st: ProxyState, s: Subscriber, now: Time)
    requires Inv(st) && s in st.links.subs
    ensures Inv(SubscriberDestroyed(st, s, now))
  {
    hide TreeInv, LinkInv, WatchInv, IndexInv, FeedInv, DeadInv;
    if !st.links.subs[s].destroyed {
      UnwatchedKeepsTrees(st.trees, s, st.links.subs[s].feeds.Values, now);
      SubscriberGoneKeepsLinks(st.links, s);
      SubscriberGoneKeepsWatch(st.trees, st.links, s, now);
      LinksLeft(st, Unwatched(st.trees, s, st.links.subs[s].feeds.Values, now), SubscriberGone(st.links, s));
    }
  }

  lemma UnsubscribedLeaves(l: LinkTable, s: Subscriber, ps: set<Publisher>, f: map<int, Publisher>)
    requires s in l.subs && forall u :: u in f ==> u in l.subs[s].feeds && f[u] == l.subs[s].feeds[u]
    ensures OnlyLeaves(l, Unsubscribed(l, s, ps, f))
  {
    var m := Unsubscribed(l, s, ps, f);
    forall p | p in l.pubs && l.pubs[p] == PublisherLinks({}, {}) ensures m.pubs[p] == PublisherLinks({}, {}) {
      assert l.pubs[p].subscribers - {s} == {};
    }
  }

  /** Leaving the publishers `ps` and keeping the other feeds keeps the invariant. */
  lemma UnsubscribedKeepsInv(st: ProxyState, s: Subscriber, ps: set<Publisher>, f: map<int, Publisher>, now: Time)
    requires Inv(st) && s in st.links.subs
    requires forall u :: u in f ==> u in st.links.subs[s].feeds && f[u] == st.links.subs[s].feeds[u] && f[u] !in ps
    requires forall u :: u in st.links.subs[s].feeds && u !in f ==> st.links.subs[s].feeds[u] in ps
    ensures Inv(ProxyState(Unwatched(st.trees, s, ps, now), Unsubscribed(st.links, s, ps, f), st.index))
  {
    hide TreeInv, LinkInv, WatchInv, IndexInv, FeedInv, DeadInv, OnlyLeaves, Unsubscribed;
    UnwatchedKeepsTrees(st.trees, s, ps, now);
    UnsubscribedKeepsLinks(st.links, s, ps, f);
    UnsubscribeKeepsWatch(st.trees, st.links, s, ps, f, now);
    UnsubscribedLeaves(st.links, s, ps, f);
    LinksLeft(st, Unwatched(st.trees, s, ps, now), Unsubscribed(st.links, s, ps, f));
  }

  lemma SubscriberHungUpKeepsInv(st: ProxyState, s: Subscriber, now: Time)
    requires Inv(st) && s in st.links.subs
    ensures Inv(SubscriberHungUp(st, s, now))
  {
    hide Inv, Unsubscribed, Unwatched;
    forall u | u in st.links.subs[s].feeds ensures st.links.subs[s].feeds[u] in st.links.subs[s].feeds.Values {
    }
    UnsubscribedKeepsInv(st, s, st.links.subs[s].feeds.Values, map[], now);
  }

  /** The first part of `destroy`: the subscriber is marked destroyed and its owner forgets it. */
  ghost function OwnerLeft(l: LinkTable, s: Subscriber): LinkTable
    requires s in l.subs
  {
    LinkTable(map p | p in l.pubs :: if l.subs[s].owner == p
      then l.pubs[p].(subscriptions := l.pubs[p].subscriptions - {s})
                                     else l.pubs[p],
              l.subs[s := l.subs[s].(destroyed := true, room := null, owner := null)])
  }

  lemma OwnerLeftInSteps(l: LinkTable, s: Subscriber)
    requires s in l.subs && (l.subs[s].owner != null ==> l.subs[s].owner in l.pubs)
    ensures var m := WithSubscriber(l, s, SubscriberLinks(true, null, l.subs[s].backend, l.subs[s].feeds, null));
      OwnerLeft(l, s) ==
      if l.subs[s].owner == null then m
      else m.(pubs := m.pubs[l.subs[s].owner := PublisherLinks(l.pubs[l.subs[s].owner].subscribers,
                                                               l.pubs[l.subs[s].owner].subscriptions - {s})])
  {
    var m := WithSubscriber(l, s, SubscriberLinks(true, null, l.subs[s].backend, l.subs[s].feeds, null));
    var o := l.subs[s].owner;
    if o == null {
      assert OwnerLeft(l, s).pubs == m.pubs;
    } else {
      assert OwnerLeft(l, s).pubs == m.pubs[o := PublisherLinks(l.pubs[o].subscribers, l.pubs[o].subscriptions - {s})];
    }
  }

  lemma OwnerLeftKeepsWatch(g: Forest, l: LinkTable, s: Subscriber)
    requires WatchInv(g, l) && s in l.subs
    ensures WatchInv(g, OwnerLeft(l, s))
  {
    var m := OwnerLeft(l, s);
    forall r, x | r in g.rems && x in g.rems[r].subscribers ensures Watches(g.rems[r], m, x) {
      assert Watches(g.rems[r], l, x);
    }
  }

  lemma SubscriberGoneFrom(l: LinkTable, s: Subscriber, p: Publisher)
    requires LinkInv(l) && s in l.subs && p in l.pubs
    ensures Unsubscribed(OwnerLeft(l, s), s, l.subs[s].feeds.Values, l.subs[s].feeds).pubs[p]
              == SubscriberGone(l, s).pubs[p]
  {
    assert PublisherMirrored(l, p) && SubscriberMirrored(l, s);
    if p !in l.subs[s].feeds.Values {
      assert s !in l.pubs[p].subscribers;
      assert l.pubs[p].subscribers - {s} == l.pubs[p].subscribers;
    }
    if l.subs[s].owner != p {
      assert l.pubs[p].subscriptions - {s} == l.pubs[p].subscriptions;
    }
  }

  lemma SubscriberGoneInSteps(l: LinkTable, s: Subscriber)
    requires LinkInv(l) && s in l.subs
    ensures WithSubscriber(Unsubscribed(OwnerLeft(l, s), s, l.subs[s].feeds.Values, l.subs[s].feeds), s,
                           SubscriberLinks(true, null, null, map[], null)) == SubscriberGone(l, s)
    ensures l.subs[s].feeds.Values <= l.pubs.Keys && (l.subs[s].owner != null ==> l.subs[s].owner in l.pubs)
  {
    hide LinkInv;
    var m := Unsubscribed(OwnerLeft(l, s), s, l.subs[s].feeds.Values, l.subs[s].feeds);
    forall p | p in l.pubs ensures m.pubs[p] == SubscriberGone(l, s).pubs[p] {
      SubscriberGoneFrom(l, s, p);
    }
    assert m.pubs == SubscriberGone(l, s).pubs;
    WatchedExist(l, s);
  }

  lemma WatchedExist(l: LinkTable, s: Subscriber)
    requires LinkInv(l) && s in l.subs
    ensures l.subs[s].feeds.Values <= l.pubs.Keys && (l.subs[s].owner != null ==> l.subs[s].owner in l.pubs)
  {
    assert SubscriberMirrored(l, s);
    forall u | u in l.subs[s].feeds ensures l.subs[s].feeds[u] in l.pubs {
      assert Feeds(l, l.subs[s].feeds[u], u, s);
    }
  }

  lemma FeedsSet(l: LinkTable, s: Subscriber, ps: set<Publisher>, f: map<int, Publisher>)
    requires s in l.subs
    ensures l.subs[s] == SubscriberLinks(l.subs[s].destroyed, l.subs[s].room, l.subs[s].backend, l.subs[s].feeds,
              l.subs[s].owner)
    ensures var v := SubscriberLinks(l.subs[s].destroyed, l.subs[s].room, l.subs[s].backend, f, l.subs[s].owner);
      WithSubscriber(Unsubscribed(l, s, ps, l.subs[s].feeds), s, v) == Unsubscribed(l, s, ps, f)
      && WithSubscriber(Subscribed(l, s, ps, l.subs[s].feeds), s, v) == Subscribed(l, s, ps, f)
  {
  }

  /** The feeds of a subscriber after a stream update that refers to the ids `current`, where `present` are the
      participants of the room: kept feeds, and referenced participants it did not watch before. */
  function SyncedFeeds(feeds: map<int, Publisher>, current: set<int>, present: map<int,
                       Publisher>): map<int, Publisher> {
    map u | u in current && (u in feeds || u in present) :: if u in feeds then feeds[u] else present[u]
  }

  lemma SyncedInSteps(feeds: map<int, Publisher>, current: set<int>, present: map<int, Publisher>)
    ensures (feeds - (feeds.Keys - current)) + (map u | u in current - feeds.Keys && u in present :: present[u])
         == SyncedFeeds(feeds, current, present)
    ensures current == feeds.Keys ==> SyncedFeeds(feeds, current, present) == feeds
  {
  }

  /** The participants of its room that subscriber `s` does not watch yet, among those with the ids `current`. */
  ghost function Joinable(st: ProxyState, s: Subscriber, current: set<int>): map<int, Publisher>
    requires s in st.links.subs && st.links.subs[s].room in st.index.rooms
  {
    var present := st.index.rooms[st.links.subs[s].room].participants;
    map u | u in current - st.links.subs[s].feeds.Keys && u in present :: present[u]
  }

  /** The proxy once subscriber `s` has left the feeds that are not in `current` and joined the participants in it. */
  ghost function SyncedState(st: ProxyState, s: Subscriber, current: set<int>, now: Time): ProxyState
    requires s in st.links.subs && st.links.subs[s].room in st.index.rooms
  {
    if current == st.links.subs[s].feeds.Keys then st
    else SubscribedState(UnsubscribedState(st, s, st.links.subs[s].feeds.Keys - current, now), s,
      Joinable(st, s, current))
  }

  lemma SyncedStateIs(st: ProxyState, s: Subscriber, current: set<int>, now: Time)
    requires s in st.links.subs && st.links.subs[s].room in st.index.rooms
    ensures current == st.links.subs[s].feeds.Keys ==> SyncedState(st, s, current, now) == st
    ensures current != st.links.subs[s].feeds.Keys ==> (SyncedState(st, s, current, now) ==
              SubscribedState(UnsubscribedState(st, s, st.links.subs[s].feeds.Keys - current, now), s,
                Joinable(st, s, current)))
    ensures s in UnsubscribedState(st, s, st.links.subs[s].feeds.Keys - current, now).links.subs
    ensures var present := st.index.rooms[st.links.subs[s].room].participants;
      Joinable(st, s, current) == map u | u in current - st.links.subs[s].feeds.Keys && u in present :: present[u]
  {
  }

  /** Afterwards a remote publisher counts `s` exactly if it counted `s` and its origin is still referenced, or its
      origin was joined now and it is the one on the server of `s`. */
  lemma SyncedWatchers(st: ProxyState, s: Subscriber, current: set<int>, now: Time, r: RemotePublisher)
    requires Inv(st) && s in st.links.subs && st.links.subs[s].room in st.index.rooms && r in st.trees.rems
    ensures r in SyncedState(st, s, current, now).trees.rems
    ensures s in SyncedState(st, s, current, now).trees.rems[r].subscribers <==>
              (s in st.trees.rems[r].subscribers && st.trees.rems[r].origin.userId in current)
              || (current != st.links.subs[s].feeds.Keys
                  && Serves(st.trees.rems[r], st.links.subs[s].backend, Joinable(st, s, current).Values))
  {
    var v := st.links.subs[s];
    if s in st.trees.rems[r].subscribers {
      assert Watches(st.trees.rems[r], st.links, s);
      assert PublisherMirrored(st.links, st.trees.rems[r].origin);
    }
    if current != v.feeds.Keys {
      var ids := v.feeds.Keys - current;
      var ps := set u | u in ids :: v.feeds[u];
      forall u | u in v.feeds ensures v.feeds[u].userId == u {
        assert SubscriberMirrored(st.links, s) && Feeds(st.links, v.feeds[u], u, s);
      }
      assert s in st.trees.rems[r].subscribers ==>
          (st.trees.rems[r].origin in ps <==> st.trees.rems[r].origin.userId !in current);
    }
  }

  /** Also without a living room the feeds are referenced ones, kept or present. */
  lemma SyncedFeedsAre(feeds: map<int, Publisher>, current: set<int>, present: map<int, Publisher>, u: int)
    ensures u in SyncedFeeds(feeds, current, present) <==> u in current && (u in feeds || u in present)
    ensures u in current && u in feeds ==> SyncedFeeds(feeds, current, present)[u] == feeds[u]
    ensures u in current && u !in feeds && u in present ==> SyncedFeeds(feeds, current, present)[u] == present[u]
  {
  }

  /** While the room is alive, the feeds after a stream update are exactly the referenced participants. */
  lemma SyncedIsReferenced(st: ProxyState, s: Subscriber, current: set<int>)
    requires Inv(st) && s in st.links.subs
    requires st.links.subs[s].room in st.index.rooms && !st.index.rooms[st.links.subs[s].room].destroyed
    ensures var present := st.index.rooms[st.links.subs[s].room].participants;
      SyncedFeeds(st.links.subs[s].feeds, current, present) == map u | u in current && u in present :: present[u]
  {
    var v := st.links.subs[s];
    forall u | u in v.feeds
      ensures u in st.index.rooms[v.room].participants && st.index.rooms[v.room].participants[u] == v.feeds[u]
    {
      assert InRoomOf(v, v.feeds[u], st.index) && SeatShape(st.index, v.feeds[u]);
      assert SubscriberMirrored(st.links, s) && Feeds(st.links, v.feeds[u], u, s);
    }
  }

  /** One stream of a subscription, as a backend server describes it. */
  datatype StreamInfo = DataStream(sourceIds: set<int>) | MediaStream(feedId: int)

  /** The feeds that the data streams refer to. */
  function DataIds(streams: seq<StreamInfo>): set<int> {
    if streams == [] then {}
    else DataIds(streams[..|streams| - 1]) +
         (match streams[|streams| - 1] case DataStream(ids) => ids case MediaStream(_) => {})
  }

  /** The feeds that the media streams refer to. */
  function MediaIds(streams: seq<StreamInfo>): set<int> {
    if streams == [] then {}
    else MediaIds(streams[..|streams| - 1]) +
         (match streams[|streams| - 1] case DataStream(_) => {} case MediaStream(id) => {id})
  }

  /** Which feeds the streams refer to. */
  lemma {:induction false} RefersIs(streams: seq<StreamInfo>, u: int)
    ensures u in MediaIds(streams) <==> exists i :: 0 <= i < |streams| && streams[i] == MediaStream(u)
    ensures u in DataIds(streams) <==>
              exists i :: 0 <= i < |streams| && streams[i].DataStream? && u in streams[i].sourceIds
  {
    if streams != [] {
      var rest, last := streams[..|streams| - 1], streams[|streams| - 1];
      assert streams == rest + [last];
      RefersIs(rest, u);
    }
  }

  /** The feeds that a list of streams asks for, among those present. */
  lemma ReferencedAre(streams: seq<StreamInfo>, present: map<int, Publisher>, feeds: map<int, Publisher>)
    requires feeds == map u | u in DataIds(streams) + MediaIds(streams) && u in present :: present[u]
    ensures forall u :: u in feeds <==> u in present && exists i ::
              (0 <= i < |streams|
               && (streams[i] == MediaStream(u) || (streams[i].DataStream? && u in streams[i].sourceIds)))
    ensures forall u :: u in feeds ==> feeds[u] == present[u]
  {
    forall u ensures u in DataIds(streams) + MediaIds(streams) <==> exists i ::
              (0 <= i < |streams|
               && (streams[i] == MediaStream(u) || (streams[i].DataStream? && u in streams[i].sourceIds)))
    {
      RefersIs(streams, u);
    }
  }

  /** `added` are participants of the room of `s` that it does not watch yet. */
  ghost predicate CanSubscribe(st: ProxyState, s: Subscriber, added: map<int, Publisher>) {
    && s in st.links.subs && !st.links.subs[s].destroyed && st.links.subs[s].room in st.index.rooms
    && (forall u :: u in added ==>
          u !in st.links.subs[s].feeds && IsParticipant(st.index.rooms[st.links.subs[s].room], u, added[u]))
  }

  ghost predicate IsParticipant(v: RoomTable, u: int, p: Publisher) {
    u in v.participants && v.participants[u] == p
  }

  lemma ParticipantReady(st: ProxyState, r: VideoRoom, u: int, p: Publisher)
    requires Inv(st) && r in st.index.rooms && IsParticipant(st.index.rooms[r], u, p)
    ensures p in st.links.pubs && p in st.trees.pubs && p in st.index.pubs
    ensures p.userId == u && !st.trees.pubs[p].destroyed && st.index.pubs[p].room == r && !st.index.rooms[r].destroyed
  {
    assert RoomShape(st.index, r);
    assert Seated(st.index, r, p);
    assert st.trees.pubs[p].destroyed ==> Departed(st, p);
  }

  ghost function SubscribedState(st: ProxyState, s: Subscriber, added: map<int, Publisher>): ProxyState
    requires s in st.links.subs
  {
    ProxyState(Watched(st.trees, s, st.links.subs[s].backend, added.Values),
               Subscribed(st.links, s, added.Values, st.links.subs[s].feeds + added), st.index)
  }

  lemma SubscribedKeepsFeeds(st: ProxyState, s: Subscriber, added: map<int, Publisher>)
    requires Inv(st) && CanSubscribe(st, s, added)
    ensures FeedInv(SubscribedState(st, s, added).links, st.index)
  {
    hide Inv, Watched;
    InvFeeds(st);
    var m := SubscribedState(st, s, added).links;
    forall t, u | t in m.subs && u in m.subs[t].feeds ensures InRoomOf(m.subs[t], m.subs[t].feeds[u], st.index) {
      if t in st.links.subs && u in st.links.subs[t].feeds {
        assert InRoomOf(st.links.subs[t], st.links.subs[t].feeds[u], st.index);
      } else {
        ParticipantReady(st, st.links.subs[s].room, u, added[u]);
      }
    }
  }

  lemma WatchedBy(st: ProxyState, p: Publisher, s: Subscriber)
    requires Inv(st) && p in st.links.pubs && s in st.links.pubs[p].subscribers
    ensures s in st.links.subs && p.userId in st.links.subs[s].feeds && st.links.subs[s].feeds[p.userId] == p
  {
    assert PublisherMirrored(st.links, p);
  }

  lemma WatchedCounts(st: ProxyState, s: Subscriber, u: int)
    requires Inv(st) && s in st.links.subs && u in st.links.subs[s].feeds
    ensures var p := st.links.subs[s].feeds[u]; p in st.links.pubs && s in st.links.pubs[p].subscribers
  {
    assert SubscriberMirrored(st.links, s) && Feeds(st.links, st.links.subs[s].feeds[u], u, s);
  }

  lemma InvFeeds(st: ProxyState)
    requires Inv(st)
    ensures FeedInv(st.links, st.index) && LinkInv(st.links) && WatchInv(st.trees, st.links)
  {
  }

  lemma SubscribedKeepsDead(st: ProxyState, s: Subscriber, added: map<int, Publisher>)
    requires Inv(st) && CanSubscribe(st, s, added)
    ensures DeadInv(SubscribedState(st, s, added))
  {
    hide TreeInv, LinkInv, WatchInv, IndexInv, FeedInv;
    var n := SubscribedState(st, s, added);
    AddedAreKnown(st, s, added);
    forall p | p in n.trees.pubs && n.trees.pubs[p].destroyed ensures Departed(n, p) {
      assert Departed(st, p);
      if p in added.Values {
        ParticipantReady(st, st.links.subs[s].room, p.userId, p);
      }
    }
  }

  lemma AddedAreKnown(st: ProxyState, s: Subscriber, added: map<int, Publisher>)
    requires Inv(st) && CanSubscribe(st, s, added)
    ensures added.Values <= st.links.pubs.Keys
    ensures forall u :: u in added ==> added[u] in added.Values && added[u].userId == u
    ensures forall p :: p in added.Values ==> p.userId in added && added[p.userId] == p
  {
    hide Inv;
    forall u | u in added ensures added[u] in st.links.pubs && added[u].userId == u {
      ParticipantReady(st, st.links.subs[s].room, u, added[u]);
    }
  }

  /** Watching more participants of the room keeps the invariant. */
  lemma SubscribedKeepsInv(st: ProxyState, s: Subscriber, added: map<int, Publisher>)
    requires Inv(st) && CanSubscribe(st, s, added)
    ensures Inv(SubscribedState(st, s, added))
  {
    hide TreeInv, LinkInv, WatchInv, IndexInv, FeedInv, DeadInv, CanSubscribe;
    CanSubscribeLinks(st, s, added);
    AddedAreKnown(st, s, added);
    WatchedKeepsTrees(st.trees, s, st.links.subs[s].backend, added.Values);
    SubscribeKeepsWatch(st.trees, st.links, s, added.Values, st.links.subs[s].feeds + added);
    SubscribedKeepsFeeds(st, s, added);
    SubscribedKeepsDead(st, s, added);
  }

  lemma CanSubscribeLinks(st: ProxyState, s: Subscriber, added: map<int, Publisher>)
    requires Inv(st) && CanSubscribe(st, s, added)
    ensures LinkInv(SubscribedState(st, s, added).links) && s in st.links.subs
  {
    hide Inv, LinkInv;
    InvFeeds(st);
    AddedAreKnown(st, s, added);
    SubscribedKeepsLinks(st.links, s, added.Values, st.links.subs[s].feeds + added);
  }

  lemma SubscriberDestroyedIs(st: ProxyState, s: Subscriber, now: Time)
    requires s in st.links.subs
    ensures SubscriberDestroyed(st, s, now) ==
      if st.links.subs[s].destroyed then st
      else ProxyState(Unwatched(st.trees, s, st.links.subs[s].feeds.Values, now), SubscriberGone(st.links, s), st.index)
    ensures OwnerLeft(st.links, s).subs.Keys == st.links.subs.Keys
  {
  }

  lemma SubscriberHungUpIs(st: ProxyState, s: Subscriber, now: Time)
    requires s in st.links.subs
    ensures SubscriberHungUp(st, s, now) ==
      ProxyState(Unwatched(st.trees, s, st.links.subs[s].feeds.Values, now),
                 Unsubscribed(st.links, s, st.links.subs[s].feeds.Values, map[]), st.index)
  {
  }

  ghost function UnsubscribedState(st: ProxyState, s: Subscriber, ids: set<int>, now: Time): ProxyState
    requires s in st.links.subs && ids <= st.links.subs[s].feeds.Keys
  {
    var ps := set u | u in ids :: st.links.subs[s].feeds[u];
    ProxyState(Unwatched(st.trees, s, ps, now), Unsubscribed(st.links, s, ps, st.links.subs[s].feeds - ids), st.index)
  }

  lemma SubscribedStateIs(st: ProxyState, s: Subscriber, added: map<int, Publisher>)
    requires s in st.links.subs
    ensures SubscribedState(st, s, added) ==
      ProxyState(Watched(st.trees, s, st.links.subs[s].backend, added.Values),
                 Subscribed(st.links, s, added.Values, st.links.subs[s].feeds + added), st.index)
  {
  }

  lemma DropReady(st: ProxyState, s: Subscriber, ids: set<int>, ps: set<Publisher>, now: Time)
    requires Inv(st) && s in st.links.subs && ids <= st.links.subs[s].feeds.Keys
    requires ps == set u | u in ids :: st.links.subs[s].feeds[u]
    ensures ps <= st.links.subs[s].feeds.Values
    ensures UnsubscribedState(st, s, ids, now) ==
      ProxyState(Unwatched(st.trees, s, ps, now), Unsubscribed(st.links, s, ps, st.links.subs[s].feeds - ids), st.index)
    ensures Inv(UnsubscribedState(st, s, ids, now))
  {
    hide Inv, Unwatched, Unsubscribed;
    var f := st.links.subs[s].feeds;
    WatchedUnderOwnId(st, s);
    forall u | u in f - ids ensures f[u] !in ps {
      assert f[u].userId == u;
    }
    UnsubscribedKeepsInv(st, s, ps, f - ids, now);
  }

  lemma WatchedUnderOwnId(st: ProxyState, s: Subscriber)
    requires Inv(st) && s in st.links.subs
    ensures forall u :: u in st.links.subs[s].feeds ==> st.links.subs[s].feeds[u].userId == u
  {
    assert SubscriberMirrored(st.links, s);
    forall u | u in st.links.subs[s].feeds ensures st.links.subs[s].feeds[u].userId == u {
      assert Feeds(st.links, st.links.subs[s].feeds[u], u, s);
    }
  }

  lemma RoomKnown(st: ProxyState, s: Subscriber)
    requires Inv(st) && s in st.links.subs && st.links.subs[s].room != null
    ensures st.links.subs[s].room in st.index.rooms
  {
  }

  lemma PresentCanJoin(st: ProxyState, s: Subscriber, ids: set<int>, added: map<int, Publisher>)
    requires s in st.links.subs && !st.links.subs[s].destroyed && st.links.subs[s].room in st.index.rooms
    requires ids !! st.links.subs[s].feeds.Keys
    requires var present := st.index.rooms[st.links.subs[s].room].participants;
      added == map u | u in ids && u in present :: present[u]
    ensures CanSubscribe(st, s, added)
  {
  }

  /** A stream of a publisher; `kind` is "audio", "video" or "data". */
  datatype Stream = Stream(mid: string, kind: string)

  /** One requested feed: a stream of it by mid, "" for all of them, or the feed with the kinds that are wanted. */
  datatype FeedRequest =
    | ByStream(feed: int, mid: string)
    | ByFeed(feed: int, audio: bool, video: bool, data: bool)

  predicate HasMid(streams: seq<Stream>, mid: string) {
    exists i :: 0 <= i < |streams| && streams[i].mid == mid
  }

  predicate Wants(q: FeedRequest, kind: string) {
    || q.ByStream? || (kind == "data" && q.data) || (kind == "video" && q.video) || (kind == "audio" && q.audio)
  }

  /** A publisher with these streams offers something that is wanted. */
  predicate Offers(q: FeedRequest, streams: seq<Stream>) {
    exists i :: 0 <= i < |streams| && Wants(q, streams[i].kind)
  }

  /** The room has a participant with the requested id, it publishes, and it has the requested stream. */
  ghost predicate Servable(q: FeedRequest, present: map<int, Publisher>)
    reads (if q.feed in present then {present[q.feed]} else {})`webrtcStarted
    reads (if q.feed in present then {present[q.feed]} else {})`streams
  {
    q.feed in present && present[q.feed].webrtcStarted
    && (q.ByStream? && q.mid != "" ==> HasMid(present[q.feed].streams, q.mid))
  }

  /** The requested participants that offer a wanted stream. */
  ghost function OfferedBy(requests: seq<FeedRequest>, present: map<int, Publisher>): set<Publisher>
    reads present.Values`streams
  {
    set i | 0 <= i < |requests| && requests[i].feed in present && Offers(requests[i], present[requests[i].feed].streams)
      :: present[requests[i].feed]
  }

  lemma OfferedMore(requests: seq<FeedRequest>, present: map<int, Publisher>, n: nat)
    requires n < |requests|
    ensures OfferedBy(requests[..n + 1], present) == OfferedBy(requests[..n], present) +
              (if requests[n].feed in present && Offers(requests[n], present[requests[n].feed].streams)
               then {present[requests[n].feed]} else {})
  {
    hide Offers;
    var a, b := requests[..n], requests[..n + 1];
    forall p | p in OfferedBy(a, present) ensures p in OfferedBy(b, present) {
      var i :| 0 <= i < |a| && a[i].feed in present && Offers(a[i], present[a[i].feed].streams)
          && present[a[i].feed] == p;
      assert b[i] == a[i];
    }
    forall p | p in OfferedBy(b, present) && (requests[n].feed !in present || p != present[requests[n].feed])
      ensures p in OfferedBy(a, present)
    {
      var i :| 0 <= i < |b| && b[i].feed in present && Offers(b[i], present[b[i].feed].streams)
          && present[b[i].feed] == p;
      assert i < n && a[i] == b[i];
    }
  }

  /** Which requests can be served, and whom they ask for. */
  lemma ServableIs(q: FeedRequest, present: map<int, Publisher>)
    ensures Servable(q, present) <==>
              && q.feed in present && present[q.feed].webrtcStarted
              && (q.ByStream? && q.mid != "" ==>
                    exists i :: 0 <= i < |present[q.feed].streams| && present[q.feed].streams[i].mid == q.mid)
  {
  }

  lemma OfferedIs(requests: seq<FeedRequest>, present: map<int, Publisher>, p: Publisher)
    ensures p in OfferedBy(requests, present) <==> exists i, j ::
              (&& 0 <= i < |requests| && requests[i].feed in present && present[requests[i].feed] == p
               && 0 <= j < |p.streams| && Wanted(requests[i], p.streams[j]))
  {
    hide Offers, Wanted;
    if p in OfferedBy(requests, present) {
      var i :| 0 <= i < |requests| && requests[i].feed in present
          && Offers(requests[i], present[requests[i].feed].streams)
               && present[requests[i].feed] == p;
      OffersIs(requests[i], p.streams);
    }
    forall i, j | 0 <= i < |requests| && requests[i].feed in present && present[requests[i].feed] == p
                  && 0 <= j < |p.streams| && Wanted(requests[i], p.streams[j])
      ensures p in OfferedBy(requests, present)
    {
      OffersIs(requests[i], p.streams);
      assert Offers(requests[i], present[requests[i].feed].streams);
    }
  }

  lemma OffersIs(q: FeedRequest, streams: seq<Stream>)
    ensures Offers(q, streams) <==> exists j :: 0 <= j < |streams| && Wanted(q, streams[j])
  {
    if Offers(q, streams) {
      var j :| 0 <= j < |streams| && Wants(q, streams[j].kind);
      assert Wanted(q, streams[j]);
    }
    forall j | 0 <= j < |streams| && Wanted(q, streams[j]) ensures Offers(q, streams) {
      assert Wants(q, streams[j].kind);
    }
  }

  /** A request by stream takes every kind, a request by feed the kinds that are wanted. */
  ghost predicate Wanted(q: FeedRequest, v: Stream) {
    || q.ByStream?
    || (v.kind == "audio" && q.audio) || (v.kind == "video" && q.video) || (v.kind == "data" && q.data)
  }

  lemma NoneOffered(present: map<int, Publisher>)
    ensures OfferedBy([], present) == {}
  {
  }

  lemma OfferedAreParticipants(requests: seq<FeedRequest>, present: map<int, Publisher>)
    ensures OfferedBy(requests, present) <= present.Values
  {
  }

  lemma ParticipantsKnown(st: ProxyState, r: VideoRoom)
    requires Inv(st) && r in st.index.rooms
    ensures st.index.rooms[r].participants.Values <= st.links.pubs.Keys
  {
    hide Inv;
    var present := st.index.rooms[r].participants;
    forall u | u in present ensures present[u] in st.links.pubs {
      ParticipantReady(st, r, u, present[u]);
    }
  }

  lemma SyncedFromNothing(current: set<int>, present: map<int, Publisher>)
    ensures SyncedFeeds(map[], current, present) == map u | u in current && u in present :: present[u]
  {
  }

  ghost function Entered(st: ProxyState, s: Subscriber, r: VideoRoom, b: BackendRoom): ProxyState
    requires s in st.links.subs
  {
    st.(links := WithSubscriber(st.links, s, st.links.subs[s].(room := r, backend := b)))
  }

  lemma EnteredIs(st: ProxyState, s: Subscriber, r: VideoRoom, b: BackendRoom)
    requires s in st.links.subs
    ensures Entered(st, s, r, b) == ProxyState(st.trees, WithSubscriber(st.links, s,
              SubscriberLinks(st.links.subs[s].destroyed, r, b, st.links.subs[s].feeds, st.links.subs[s].owner)),
                st.index)
  {
  }

  lemma NoFeedsYet(st: ProxyState, s: Subscriber)
    requires FeedInv(st.links, st.index) && s in st.links.subs && st.links.subs[s].room == null
    ensures st.links.subs[s].feeds == map[]
  {
    var f := st.links.subs[s].feeds;
    assert forall u :: u in f ==> InRoomOf(st.links.subs[s], f[u], st.index);
    assert f == map[];
  }

  lemma NotWatchingYet(st: ProxyState, s: Subscriber, r: RemotePublisher)
    requires Inv(st) && s in st.links.subs && st.links.subs[s].room == null && r in st.trees.rems
    ensures s !in st.trees.rems[r].subscribers
  {
    NoFeedsYet(st, s);
    assert s in st.trees.rems[r].subscribers ==> Watches(st.trees.rems[r], st.links, s);
  }

  lemma EnteredKeepsLinks(st: ProxyState, s: Subscriber, r: VideoRoom, b: BackendRoom)
    requires LinkInv(st.links) && s in st.links.subs
    ensures LinkInv(Entered(st, s, r, b).links)
  {
    var l, m := st.links, Entered(st, s, r, b).links;
    forall q | q in m.pubs ensures PublisherMirrored(m, q) {
      assert PublisherMirrored(l, q);
    }
    forall t | t in m.subs ensures SubscriberMirrored(m, t) {
      assert SubscriberMirrored(l, t);
      forall u | u in m.subs[t].feeds ensures Feeds(m, m.subs[t].feeds[u], u, t) {
        assert Feeds(l, l.subs[t].feeds[u], u, t);
      }
    }
  }

  /** A subscriber that is in no room yet watches nobody, so it can enter any room. */
  lemma EnteredKeepsInv(st: ProxyState, s: Subscriber, r: VideoRoom, b: BackendRoom)
    requires Inv(st) && s in st.links.subs && st.links.subs[s].room == null && r in st.index.rooms
    ensures Inv(Entered(st, s, r, b)) && st.links.subs[s].feeds == map[]
  {
    hide TreeInv, LinkInv, IndexInv;
    var n := Entered(st, s, r, b);
    NoFeedsYet(st, s);
    EnteredKeepsLinks(st, s, r, b);
    forall x, t | x in n.trees.rems && t in n.trees.rems[x].subscribers ensures Watches(n.trees.rems[x], n.links, t) {
      NotWatchingYet(st, s, x);
      assert Watches(st.trees.rems[x], st.links, t);
    }
    forall t, u | t in n.links.subs && u in n.links.subs[t].feeds
        ensures InRoomOf(n.links.subs[t], n.links.subs[t].feeds[u], n.index) {
      assert InRoomOf(st.links.subs[t], st.links.subs[t].feeds[u], st.index);
    }
    forall p | p in n.trees.pubs && n.trees.pubs[p].destroyed ensures Departed(n, p) {
      assert Departed(st, p);
    }
  }

  /** Every one of `ps` can serve on backend room `b`. */
  ghost predicate AllCanServe(ps: set<Publisher>, b: BackendRoom, active: bool, started: set<Publisher>,
                              published: set<Publisher>)
    reads ps`destroyed, ps`hasHandle, ps`webrtcStarted, ps`backendRoom, ps`remotePublishers
    reads (set p, x | p in ps && x in p.remotePublishers.Values :: x)`backendRoom
  {
    forall p :: p in ps ==> p.CanServe(b, active, p in started, p in published)
  }

  /** On a backend room that nobody knows yet only new remote publishers can serve. */
  lemma AllServeFresh(ps: set<Publisher>, b: BackendRoom, started: set<Publisher>, published: set<Publisher>)
    requires forall p :: p in ps ==> p.backendRoom != b && forall x :: x in p.remotePublishers.Values ==>
              x.backendRoom != b
    ensures AllCanServe(ps, b, true, started, published) <==> forall p :: p in ps ==>
              (&& !p.destroyed && p.hasHandle && p.cascadeEnabled && p.webrtcStarted && p.backendRoom != null
               && b.serverName !in p.remotePublishers && p in started && p in published)
  {
    hide Publisher.CanServe;
    forall p | p in ps
      ensures p.CanServe(b, true, p in started, p in published) <==>
                && !p.destroyed && p.hasHandle && p.cascadeEnabled && p.webrtcStarted && p.backendRoom != null
                && b.serverName !in p.remotePublishers && p in started && p in published
    {
      p.ServesFresh(b, p in started, p in published);
    }
  }

  /** A subscriber with or without cascade can be served with the publishers `ps` when `b` is offered. */
  ghost predicate JoinFits(cascade: bool, ps: set<Publisher>, b: BackendRoom?, started: set<Publisher>,
                           published: set<Publisher>)
    reads ps`destroyed, ps`hasHandle, ps`webrtcStarted, ps`backendRoom, ps`remotePublishers
    reads (set p, x | p in ps && x in p.remotePublishers.Values :: x)`backendRoom
    reads (if b != null then {b} else {})`active
  {
    if cascade then b != null && AllCanServe(ps, b, b.active, started, published)
    else |ps| == 1 && forall p :: p in ps ==> p.backendRoom != null
  }

  lemma JoinFitsIs(cascade: bool, ps: set<Publisher>, b: BackendRoom?, started: set<Publisher>,
                   published: set<Publisher>)
    ensures JoinFits(cascade, ps, b, started, published) <==>
              (if cascade
               then b != null && forall p :: p in ps ==> p.CanServe(b, b.active, p in started, p in published)
               else |ps| == 1 && forall p :: p in ps ==> p.backendRoom != null)
  {
  }

  /** Publisher `p` can be received from backend room `b`: it sits there or has a remote publisher there. */
  ghost predicate AvailableOn(g: Forest, i: IndexTable, p: Publisher, b: BackendRoom) {
    && p in g.pubs && p in i.pubs
    && (i.pubs[p].backend == b
        || (b.serverName in g.pubs[p].remotes && g.pubs[p].remotes[b.serverName] in g.rems
            && g.rems[g.pubs[p].remotes[b.serverName]].backend == b))
  }

  /** A cascade of one publisher leaves the registry of every other, and the backend room of every other node. */
  lemma CascadeKeepsNodes(st: ProxyState, n: ProxyState, p: Publisher, r: RemotePublisher, b: BackendRoom, now: Time)
    requires Inv(st) && (Cascades(st, n, p, r, b, null, now) || FailsToCascade(st, n, p, r, b, null, now))
    ensures forall q :: q in st.trees.pubs && q != p ==>
              q in n.trees.pubs && n.trees.pubs[q].remotes == st.trees.pubs[q].remotes
    ensures r !in st.trees.rems
    ensures forall x :: x in st.trees.rems ==> x in n.trees.rems && n.trees.rems[x].backend == st.trees.rems[x].backend
  {
    hide TreeInv, LinkInv, WatchInv, IndexInv, FeedInv, DeadInv;
  }

  lemma CascadeKeepsOthers(st: ProxyState, n: ProxyState, p: Publisher, r: RemotePublisher, b: BackendRoom, now: Time,
                           q: Publisher)
    requires Inv(st) && (Cascades(st, n, p, r, b, null, now) || FailsToCascade(st, n, p, r, b, null, now))
    ensures n.links == st.links && n.index == st.index
    ensures AvailableOn(st.trees, st.index, q, b) ==> AvailableOn(n.trees, n.index, q, b)
    ensures Cascades(st, n, p, r, b, null, now) && p in st.index.pubs ==> AvailableOn(n.trees, n.index, p, b)
  {
    hide TreeInv, LinkInv, WatchInv, IndexInv, FeedInv, DeadInv;
  }

  // ---------- Steps of a room ----------

  /** The index with a new valid backend room `b` of room `r`. */
  ghost function Hosted(i: IndexTable, r: VideoRoom, b: BackendRoom): IndexTable
    requires r in i.rooms
  {
    i.(rooms := i.rooms[r := i.rooms[r].(backends := i.rooms[r].backends[b.serverName := b])],
       backs := i.backs[b := BackendTable(false, r, {})])
  }

  /** The index once backend room `b` is destroyed: its room, while alive, forgets it, and nobody is counted on it. */
  ghost function BackendDown(i: IndexTable, b: BackendRoom): IndexTable
    requires b in i.backs
  {
    var r := i.backs[b].room;
    i.(rooms := if r in i.rooms && !i.rooms[r].destroyed
                then i.rooms[r := i.rooms[r].(backends := i.rooms[r].backends - {b.serverName})] else i.rooms,
       backs := i.backs[b := BackendTable(true, null, {})])
  }

  /** The index once publisher `p` has joined room `r` on backend room `b`. */
  ghost function Placed(i: IndexTable, p: Publisher, r: VideoRoom, b: BackendRoom, pvtId: int): IndexTable
    requires r in i.rooms && b in i.backs
  {
    IndexTable(i.pubs[p := PublisherSeat(pvtId, r, b)],
               i.rooms[r := i.rooms[r].(participants := i.rooms[r].participants[p.userId := p],
                                        privateIds := i.rooms[r].privateIds[pvtId := p], idleTs := 0)],
               i.backs[b := i.backs[b].(publishers := i.backs[b].publishers + {p.userId})])
  }

  /** The index once room `r` is destroyed: its tables are empty and its publishers sit nowhere. */
  ghost function RoomDown(i: IndexTable, r: VideoRoom): IndexTable
    requires r in i.rooms
  {
    i.(pubs := map p | p in i.pubs :: if i.pubs[p].room == r then i.pubs[p].(room := null) else i.pubs[p],
       rooms := i.rooms[r := RoomTable(true, map[], map[], map[], i.rooms[r].idleTs)])
  }

  /** The index once all the rooms `rs` are destroyed. */
  ghost function RoomsDown(i: IndexTable, rs: set<VideoRoom>): IndexTable {
    i.(pubs := map p | p in i.pubs :: if i.pubs[p].room in rs then i.pubs[p].(room := null) else i.pubs[p],
       rooms := map r | r in i.rooms :: if r in rs then RoomTable(true, map[], map[], map[], i.rooms[r].idleTs)
         else i.rooms[r])
  }

  /** Destroying rooms one after the other destroys them all. */
  lemma RoomsDownStep(i: IndexTable, done: set<VideoRoom>, r: VideoRoom)
    requires r in i.rooms && r !in done
    ensures r in RoomsDown(i, done).rooms && RoomDown(RoomsDown(i, done), r) == RoomsDown(i, done + {r})
  {
    var a, b := RoomDown(RoomsDown(i, done), r), RoomsDown(i, done + {r});
    assert a.rooms.Keys == b.rooms.Keys;
    assert a.rooms == b.rooms;
    assert a.pubs == b.pubs;
  }

  lemma NoRoomsDown(i: IndexTable)
    ensures RoomsDown(i, {}) == i
  {
    assert RoomsDown(i, {}).rooms == i.rooms && RoomsDown(i, {}).pubs == i.pubs;
  }

  /** The proxy once room `r` has chosen backend room `b`, which may be new. */
  ghost function Chosen(st: ProxyState, r: VideoRoom, b: BackendRoom): ProxyState
    requires r in st.index.rooms
  {
    if b in st.index.backs then st else st.(index := Hosted(st.index, r, b))
  }

  lemma ChosenIs(st: ProxyState, r: VideoRoom, b: BackendRoom)
    requires r in st.index.rooms
    ensures Chosen(st, r, b) == if b in st.index.backs then st else st.(index := Hosted(st.index, r, b))
    ensures r in Chosen(st, r, b).index.rooms && b in Chosen(st, r, b).index.backs
  {
  }

  lemma HostedKeepsIndex(i: IndexTable, r: VideoRoom, b: BackendRoom)
    requires IndexInv(i) && r in i.rooms && !i.rooms[r].destroyed && b !in i.backs
    requires b.serverName !in i.rooms[r].backends
    ensures IndexInv(Hosted(i, r, b))
  {
    var j := Hosted(i, r, b);
    forall p | p in j.pubs ensures SeatShape(j, p) {
      assert SeatShape(i, p);
    }
    forall x | x in j.rooms ensures RoomShape(j, x) {
      HostedKeepsRoom(i, r, b, x);
    }
    forall x | x in j.backs ensures BackendShape(j, x) {
      HostedKeepsBackend(i, r, b, x);
    }
  }

  lemma HostedKeepsRoom(i: IndexTable, r: VideoRoom, b: BackendRoom, x: VideoRoom)
    requires r in i.rooms && !i.rooms[r].destroyed && b !in i.backs && x in i.rooms && RoomShape(i, x)
    ensures RoomShape(Hosted(i, r, b), x)
  {
    var j := Hosted(i, r, b);
    forall u | u in j.rooms[x].participants ensures Seated(j, x, j.rooms[x].participants[u]) {
      assert Seated(i, x, i.rooms[x].participants[u]);
    }
    forall k | k in j.rooms[x].privateIds ensures Seated(j, x, j.rooms[x].privateIds[k]) {
      assert Seated(i, x, i.rooms[x].privateIds[k]);
    }
    forall n | n in j.rooms[x].backends ensures Hosts(j, x, n, j.rooms[x].backends[n]) {
      if !(x == r && n == b.serverName) { assert Hosts(i, x, n, i.rooms[x].backends[n]); }
    }
  }

  lemma HostedKeepsBackend(i: IndexTable, r: VideoRoom, b: BackendRoom, x: BackendRoom)
    requires r in i.rooms && !i.rooms[r].destroyed && b !in i.backs && b.serverName !in i.rooms[r].backends
    requires x == b || (x in i.backs && BackendShape(i, x))
    ensures BackendShape(Hosted(i, r, b), x)
  {
    var j := Hosted(i, r, b);
    forall u | u in j.backs[x].publishers ensures exists p :: p in j.pubs && PlacedAs(j, p, u, x) {
      var p :| p in i.pubs && PlacedAs(i, p, u, x);
      assert PlacedAs(j, p, u, x);
    }
  }

  lemma BackendDownKeepsSeat(i: IndexTable, b: BackendRoom, p: Publisher)
    requires b in i.backs && p in i.pubs && SeatShape(i, p)
    ensures SeatShape(BackendDown(i, b), p)
  {
  }

  lemma BackendDownKeepsRoom(i: IndexTable, b: BackendRoom, x: VideoRoom)
    requires b in i.backs && x in i.rooms && RoomShape(i, x)
    ensures RoomShape(BackendDown(i, b), x)
  {
    var j := BackendDown(i, b);
    forall u | u in j.rooms[x].participants ensures Seated(j, x, j.rooms[x].participants[u]) {
      assert Seated(i, x, i.rooms[x].participants[u]);
    }
    forall k | k in j.rooms[x].privateIds ensures Seated(j, x, j.rooms[x].privateIds[k]) {
      assert Seated(i, x, i.rooms[x].privateIds[k]);
    }
    forall n | n in j.rooms[x].backends ensures Hosts(j, x, n, j.rooms[x].backends[n]) {
      assert Hosts(i, x, n, i.rooms[x].backends[n]);
    }
  }

  lemma BackendDownKeepsBackend(i: IndexTable, b: BackendRoom, x: BackendRoom)
    requires b in i.backs && !i.backs[b].destroyed && BackendShape(i, b) && x in i.backs && BackendShape(i, x)
    ensures BackendShape(BackendDown(i, b), x)
  {
    var j := BackendDown(i, b);
    forall u | u in j.backs[x].publishers ensures exists p :: p in j.pubs && PlacedAs(j, p, u, x) {
      var p :| p in i.pubs && PlacedAs(i, p, u, x);
      assert PlacedAs(j, p, u, x);
    }
  }

  lemma BackendDownKeepsIndex(i: IndexTable, b: BackendRoom)
    requires IndexInv(i) && b in i.backs && !i.backs[b].destroyed
    ensures IndexInv(BackendDown(i, b))
  {
    hide SeatShape, RoomShape, BackendShape;
    var j := BackendDown(i, b);
    forall p | p in j.pubs ensures SeatShape(j, p) { BackendDownKeepsSeat(i, b, p); }
    forall x | x in j.rooms ensures RoomShape(j, x) { BackendDownKeepsRoom(i, b, x); }
    forall x | x in j.backs ensures BackendShape(j, x) { BackendDownKeepsBackend(i, b, x); }
  }

  /** Room `r` has place for publisher `p` with private id `pvtId` on its backend room `b`. */
  ghost predicate CanPlace(i: IndexTable, p: Publisher, r: VideoRoom, b: BackendRoom, pvtId: int) {
    && p in i.pubs && i.pubs[p].room == null && i.pubs[p].backend == null
    && r in i.rooms && !i.rooms[r].destroyed && b in i.backs && ServesRoom(i.rooms[r], b)
    && p.userId !in i.rooms[r].participants && p.userId != r.backendRoomId && pvtId !in i.rooms[r].privateIds
  }

  lemma PlacedKeepsSeat(i: IndexTable, p: Publisher, r: VideoRoom, b: BackendRoom, pvtId: int, q: Publisher)
    requires CanPlace(i, p, r, b, pvtId) && RoomShape(i, r) && q in i.pubs && SeatShape(i, q)
    ensures SeatShape(Placed(i, p, r, b, pvtId), q)
  {
    assert Hosts(i, r, b.serverName, b);
  }

  lemma PlacedKeepsRoom(i: IndexTable, p: Publisher, r: VideoRoom, b: BackendRoom, pvtId: int, x: VideoRoom)
    requires CanPlace(i, p, r, b, pvtId) && x in i.rooms && RoomShape(i, x)
    ensures RoomShape(Placed(i, p, r, b, pvtId), x)
  {
    var j := Placed(i, p, r, b, pvtId);
    forall u | u in j.rooms[x].participants
      ensures Seated(j, x, j.rooms[x].participants[u]) && j.rooms[x].participants[u].userId == u
    {
      if !(x == r && u == p.userId) { assert Seated(i, x, i.rooms[x].participants[u]); }
    }
    forall k | k in j.rooms[x].privateIds
      ensures Seated(j, x, j.rooms[x].privateIds[k]) && j.pubs[j.rooms[x].privateIds[k]].pvtId == k
    {
      if !(x == r && k == pvtId) { assert Seated(i, x, i.rooms[x].privateIds[k]); }
    }
    forall n | n in j.rooms[x].backends ensures Hosts(j, x, n, j.rooms[x].backends[n]) {
      assert Hosts(i, x, n, i.rooms[x].backends[n]);
    }
    assert x == r ==> p.userId in j.rooms[x].participants;
  }

  lemma PlacedKeepsBackend(i: IndexTable, p: Publisher, r: VideoRoom, b: BackendRoom, pvtId: int, x: BackendRoom)
    requires CanPlace(i, p, r, b, pvtId) && x in i.backs && BackendShape(i, x) && RoomShape(i, r)
    ensures BackendShape(Placed(i, p, r, b, pvtId), x)
  {
    var j := Placed(i, p, r, b, pvtId);
    assert Hosts(i, r, b.serverName, b);
    forall u | u in j.backs[x].publishers ensures exists q :: q in j.pubs && PlacedAs(j, q, u, x) {
      if x == b && u == p.userId {
        assert PlacedAs(j, p, u, x);
      } else {
        var q :| q in i.pubs && PlacedAs(i, q, u, x);
        assert PlacedAs(j, q, u, x);
      }
    }
  }

  /** Nobody else on backend room `b` has the id of the new participant: a publisher placed there sits in the room. */
  lemma PlacedAlone(i: IndexTable, p: Publisher, r: VideoRoom, b: BackendRoom, pvtId: int, q: Publisher)
    requires CanPlace(i, p, r, b, pvtId) && RoomShape(i, r) && q in i.pubs && SeatShape(i, q) && i.pubs[q].backend == b
    ensures q.userId != p.userId
  {
    assert Hosts(i, r, b.serverName, b);
  }

  lemma PlacedKeepsIndex(i: IndexTable, p: Publisher, r: VideoRoom, b: BackendRoom, pvtId: int)
    requires IndexInv(i) && CanPlace(i, p, r, b, pvtId)
    ensures IndexInv(Placed(i, p, r, b, pvtId))
  {
    hide SeatShape, RoomShape, BackendShape;
    var j := Placed(i, p, r, b, pvtId);
    forall q | q in j.pubs ensures SeatShape(j, q) { PlacedKeepsSeat(i, p, r, b, pvtId, q); }
    forall x | x in j.rooms ensures RoomShape(j, x) { PlacedKeepsRoom(i, p, r, b, pvtId, x); }
    forall x | x in j.backs ensures BackendShape(j, x) { PlacedKeepsBackend(i, p, r, b, pvtId, x); }
    forall q | q in i.pubs && i.pubs[q].backend == b ensures q.userId != p.userId {
      PlacedAlone(i, p, r, b, pvtId, q);
    }
    forall q, t | q in j.pubs && t in j.pubs && SamePlace(j, q, t) ensures q == t {
      assert q != p && t != p ==> SamePlace(i, q, t);
    }
  }

  lemma RoomDownKeepsIndex(i: IndexTable, r: VideoRoom)
    requires IndexInv(i) && r in i.rooms
    ensures IndexInv(RoomDown(i, r))
  {
    hide SeatShape, RoomShape, BackendShape;
    var j := RoomDown(i, r);
    forall p | p in j.pubs ensures SeatShape(j, p) { RoomDownKeepsSeat(i, r, p); }
    forall x | x in j.rooms ensures RoomShape(j, x) { RoomDownKeepsRoom(i, r, x); }
    forall b | b in j.backs ensures BackendShape(j, b) { RoomDownKeepsBackend(i, r, b); }
    forall p, q | p in j.pubs && q in j.pubs && SamePlace(j, p, q) ensures p == q {
      assert SamePlace(i, p, q);
    }
  }

  lemma RoomDownKeepsSeat(i: IndexTable, r: VideoRoom, p: Publisher)
    requires r in i.rooms && p in i.pubs && SeatShape(i, p)
    ensures SeatShape(RoomDown(i, r), p)
  {
  }

  lemma RoomDownKeepsRoom(i: IndexTable, r: VideoRoom, x: VideoRoom)
    requires r in i.rooms && x in i.rooms && RoomShape(i, x)
    ensures RoomShape(RoomDown(i, r), x)
  {
    var j := RoomDown(i, r);
    if x != r {
      forall u | u in j.rooms[x].participants ensures Seated(j, x, j.rooms[x].participants[u]) {
        assert Seated(i, x, i.rooms[x].participants[u]);
      }
      forall k | k in j.rooms[x].privateIds
        ensures Seated(j, x, j.rooms[x].privateIds[k]) && j.pubs[j.rooms[x].privateIds[k]].pvtId == k
      {
        assert Seated(i, x, i.rooms[x].privateIds[k]);
      }
      forall n | n in j.rooms[x].backends ensures Hosts(j, x, n, j.rooms[x].backends[n]) {
        assert Hosts(i, x, n, i.rooms[x].backends[n]);
      }
    }
  }

  lemma RoomDownKeepsBackend(i: IndexTable, r: VideoRoom, b: BackendRoom)
    requires r in i.rooms && b in i.backs && BackendShape(i, b)
    ensures BackendShape(RoomDown(i, r), b)
  {
    var j := RoomDown(i, r);
    forall u | u in j.backs[b].publishers ensures exists q :: q in j.pubs && PlacedAs(j, q, u, b) {
      var q :| q in i.pubs && PlacedAs(i, q, u, b);
      assert PlacedAs(j, q, u, b);
    }
  }

  /** A valid backend room counts exactly the publishers placed on it, each once. */
  lemma BackendCounts(i: IndexTable, b: BackendRoom)
    requires IndexInv(i) && b in i.backs && !i.backs[b].destroyed
    ensures i.backs[b].publishers == UserIds(PlacedPublishers(i, b))
    ensures |i.backs[b].publishers| == |PlacedPublishers(i, b)|
  {
    var ps := PlacedPublishers(i, b);
    assert BackendShape(i, b);
    forall p | p in ps ensures p.userId in i.backs[b].publishers {
      assert SeatShape(i, p);
    }
    var ids := UserIds(ps);
    forall u | u in i.backs[b].publishers ensures u in ids {
      var p :| p in i.pubs && PlacedAs(i, p, u, b);
      assert p in ps;
    }
    assert i.backs[b].publishers == ids;
    forall p, q | p in ps && q in ps && p.userId == q.userId ensures p == q {
      assert SamePlace(i, p, q);
    }
    DistinctIds(ps);
  }

  ghost function PlacedPublishers(i: IndexTable, b: BackendRoom): set<Publisher> {
    set p | p in i.pubs && i.pubs[p].backend == b
  }

  ghost function UserIds(ps: set<Publisher>): set<int> {
    set p | p in ps :: p.userId
  }

  lemma {:induction false} DistinctIds(ps: set<Publisher>)
    requires forall p, q :: p in ps && q in ps && p.userId == q.userId ==> p == q
    ensures |UserIds(ps)| == |ps|
  {
    var ids := UserIds(ps);
    if ps != {} {
      var p :| p in ps;
      DistinctIds(ps - {p});
      assert UserIds(ps - {p}) == ids - {p.userId};
      assert p.userId in ids;
    } else {
      assert ids == {};
    }
  }

  ghost function TotalCount(i: IndexTable, bs: seq<BackendRoom>): nat
    requires forall b :: b in bs ==> b in i.backs
  {
    if bs == [] then 0 else |i.backs[bs[0]].publishers| + TotalCount(i, bs[1..])
  }

  ghost function PlacedOnAny(i: IndexTable, bs: seq<BackendRoom>): set<Publisher> {
    set p | p in i.pubs && i.pubs[p].backend in bs
  }

  /** The counts of valid backend rooms sum up to the number of publishers placed on them. */
  lemma {:induction false} CountsSumUp(i: IndexTable, bs: seq<BackendRoom>)
    requires IndexInv(i) && forall b :: b in bs ==> b in i.backs && !i.backs[b].destroyed
    requires forall j, k :: 0 <= j < k < |bs| ==> bs[j] != bs[k]
    ensures TotalCount(i, bs) == |PlacedOnAny(i, bs)|
  {
    hide IndexInv;
    var placed := PlacedOnAny(i, bs);
    if bs == [] {
      assert placed == {};
    } else {
      CountsSumUp(i, bs[1..]);
      BackendCounts(i, bs[0]);
      var others := PlacedOnAny(i, bs[1..]);
      assert placed == PlacedPublishers(i, bs[0]) + others;
      assert PlacedPublishers(i, bs[0]) !! others;
    }
  }

  ghost predicate LivesIn(j: IndexTable, r: VideoRoom?) {
    r in j.rooms && !j.rooms[r].destroyed
  }

  /** A change of the index that keeps the rooms of publishers in living rooms and the seats of dead publishers
      keeps the invariant if it keeps the invariant of the index. */
  lemma IndexReplaced(st: ProxyState, j: IndexTable)
    requires Inv(st) && IndexInv(j) && j.pubs.Keys == st.index.pubs.Keys && st.index.rooms.Keys <= j.rooms.Keys
    requires forall r :: r in st.index.rooms && st.index.rooms[r].destroyed ==> j.rooms[r].destroyed
    requires forall p :: p in j.pubs && st.trees.pubs[p].destroyed ==> j.pubs[p] == st.index.pubs[p]
    requires forall p :: p in j.pubs && LivesIn(j, st.index.pubs[p].room) ==>
               j.pubs[p].room == st.index.pubs[p].room
    ensures Inv(st.(index := j))
  {
    hide TreeInv, LinkInv, WatchInv, IndexInv;
    var n := st.(index := j);
    forall p | p in n.trees.pubs && n.trees.pubs[p].destroyed ensures Departed(n, p) {
      assert Departed(st, p);
    }
    forall s, u | s in n.links.subs && u in n.links.subs[s].feeds
        ensures InRoomOf(n.links.subs[s], n.links.subs[s].feeds[u], j) {
      assert InRoomOf(st.links.subs[s], st.links.subs[s].feeds[u], st.index);
    }
  }

  lemma InvIndex(st: ProxyState)
    requires Inv(st)
    ensures IndexInv(st.index) && st.trees.pubs.Keys == st.links.pubs.Keys == st.index.pubs.Keys
  {
  }

  lemma HostedKeepsInv(st: ProxyState, r: VideoRoom, b: BackendRoom)
    requires Inv(st) && r in st.index.rooms && !st.index.rooms[r].destroyed
    requires b !in st.index.backs && b.serverName !in st.index.rooms[r].backends
    ensures Inv(st.(index := Hosted(st.index, r, b)))
  {
    hide Inv, IndexInv;
    InvIndex(st);
    HostedKeepsIndex(st.index, r, b);
    IndexReplaced(st, Hosted(st.index, r, b));
  }

  lemma BackendDownKeepsInv(st: ProxyState, b: BackendRoom)
    requires Inv(st) && b in st.index.backs && !st.index.backs[b].destroyed
    ensures Inv(st.(index := BackendDown(st.index, b)))
    ensures st.index.backs[b].room in st.index.rooms
  {
    hide Inv, IndexInv, BackendShape;
    InvIndex(st);
    BackendDownKeepsIndex(st.index, b);
    RoomOfBackend(st.index, b);
    IndexReplaced(st, BackendDown(st.index, b));
  }

  lemma RoomOfBackend(i: IndexTable, b: BackendRoom)
    requires IndexInv(i) && b in i.backs && !i.backs[b].destroyed
    ensures i.backs[b].room in i.rooms
  {
    assert BackendShape(i, b);
  }

  lemma HostedThenDown(i: IndexTable, r: VideoRoom, b: BackendRoom)
    requires r in i.rooms && !i.rooms[r].destroyed && b.serverName !in i.rooms[r].backends
    ensures b in Hosted(i, r, b).backs && r in Hosted(i, r, b).rooms
    ensures Hosted(i, r, b).backs[b] == BackendTable(false, r, {})
    ensures BackendDown(Hosted(i, r, b), b) == i.(backs := i.backs[b := BackendTable(true, null, {})])
  {
    assert i.rooms[r].backends[b.serverName := b] - {b.serverName} == i.rooms[r].backends;
    assert BackendDown(Hosted(i, r, b), b).rooms == i.rooms;
  }

  lemma BackendDownIs(i: IndexTable, b: BackendRoom, r: VideoRoom)
    requires b in i.backs && i.backs[b].room == r && r in i.rooms
    ensures BackendDown(i, b) == i.(
      rooms := if i.rooms[r].destroyed then i.rooms
               else i.rooms[r := i.rooms[r].(backends := i.rooms[r].backends - {b.serverName})],
      backs := i.backs[b := BackendTable(true, null, {})])
  {
  }

  datatype ServerChoice = NoServer | Server(name: string)

  lemma HostReady(st: ProxyState, r: VideoRoom, name: string)
    requires Inv(st) && r in st.index.rooms && name in st.index.rooms[r].backends
    ensures var b := st.index.rooms[r].backends[name];
      b in st.index.backs && !st.index.backs[b].destroyed && b.serverName == name
  {
    assert RoomShape(st.index, r) && Hosts(st.index, r, name, st.index.rooms[r].backends[name]);
  }

  /** The index once room `r` has put out its participant `p`, before anything else is told. */
  ghost function Evicted(i: IndexTable, p: Publisher, r: VideoRoom): IndexTable
    requires p in i.pubs && r in i.rooms
  {
    i.(pubs := i.pubs[p := PublisherSeat(i.pubs[p].pvtId, null, i.pubs[p].backend)],
       rooms := i.rooms[r := RoomTable(i.rooms[r].destroyed, i.rooms[r].participants - {p.userId},
                                       i.rooms[r].privateIds - {i.pubs[p].pvtId}, i.rooms[r].backends,
                                         i.rooms[r].idleTs)])
  }

  ghost function IdleChecked(i: IndexTable, r: VideoRoom, now: Time): IndexTable
    requires r in i.rooms
  {
    var v := i.rooms[r];
    i.(rooms := i.rooms[r := RoomTable(v.destroyed, v.participants, v.privateIds, v.backends,
                                       IdleTs(v.participants != map[], v.idleTs, now))])
  }

  lemma IdleCheckedIs(i: IndexTable, r: VideoRoom, now: Time)
    requires r in i.rooms
    ensures IdleChecked(i, r, now) == i.(rooms := i.rooms[r :=
      RoomTable(i.rooms[r].destroyed, i.rooms[r].participants, i.rooms[r].privateIds, i.rooms[r].backends,
                IdleTs(i.rooms[r].participants != map[], i.rooms[r].idleTs, now))])
  {
  }

  /** Putting a participant out, destroying it and checking for idleness amounts to destroying it. */
  lemma KickInSteps(st: ProxyState, r: VideoRoom, u: int, p: Publisher, now: Time)
    requires Inv(st) && r in st.index.rooms && IsParticipant(st.index.rooms[r], u, p)
    ensures p in st.index.pubs && SeatIsOwn(Evicted(st.index, p, r), p)
    ensures r in Unseat(Evicted(st.index, p, r), p, now).rooms
    ensures IdleChecked(Unseat(Evicted(st.index, p, r), p, now), r, now) == Unseat(st.index, p, now)
    ensures PublisherDestroyed(st, p, now) ==
              ProxyState(PublisherDown(st.trees, p, PublisherNode(true, false, map[], {})), PublisherGone(st.links, p),
                         Unseat(st.index, p, now))
  {
    hide Inv, PublisherDown, PublisherGone;
    ParticipantReady(st, r, u, p);
    SeatReady(st.index, p) by { InvIndex(st); }
  }

  lemma SeatReady(i: IndexTable, p: Publisher)
    requires IndexInv(i) && p in i.pubs
    ensures i.pubs[p].backend != null ==> i.pubs[p].backend in i.backs
    ensures i.pubs[p].room != null ==> i.pubs[p].room in i.rooms && p.userId in i.rooms[i.pubs[p].room].participants
  {
    assert SeatShape(i, p);
  }

  lemma EvictedIs(i: IndexTable, p: Publisher, r: VideoRoom)
    requires p in i.pubs && r in i.rooms
    ensures Evicted(i, p, r) == i.(
      pubs := i.pubs[p := PublisherSeat(i.pubs[p].pvtId, null, i.pubs[p].backend)],
      rooms := i.rooms[r := RoomTable(i.rooms[r].destroyed, i.rooms[r].participants - {p.userId},
                                      i.rooms[r].privateIds - {i.pubs[p].pvtId}, i.rooms[r].backends,
                                        i.rooms[r].idleTs)])
  {
  }

  lemma ParticipantIs(st: ProxyState, r: VideoRoom, u: int)
    requires Inv(st) && r in st.index.rooms && u in st.index.rooms[r].participants
    ensures IsParticipant(st.index.rooms[r], u, st.index.rooms[r].participants[u])
    ensures st.index.rooms[r].participants[u] in st.links.pubs
  {
    hide Inv;
    ParticipantReady(st, r, u, st.index.rooms[r].participants[u]);
  }

  /** The index while room `r` is being destroyed and has told the publishers `done`. */
  ghost function RoomClosing(i: IndexTable, r: VideoRoom, done: set<Publisher>): IndexTable
    requires r in i.rooms
  {
    i.(pubs := map p | p in i.pubs :: if p in done then PublisherSeat(i.pubs[p].pvtId, null, i.pubs[p].backend)
      else i.pubs[p],
       rooms := i.rooms[r := RoomTable(true, map[], map[], map[], i.rooms[r].idleTs)])
  }

  lemma RoomClosingStep(i: IndexTable, r: VideoRoom, done: set<Publisher>, p: Publisher)
    requires r in i.rooms && p in i.pubs && p !in done
    ensures var j := RoomClosing(i, r, done);
      p in j.pubs && j.(pubs := j.pubs[p := PublisherSeat(j.pubs[p].pvtId, null, j.pubs[p].backend)])
        == RoomClosing(i, r, done + {p})
  {
    var j := RoomClosing(i, r, done);
    assert j.pubs[p := PublisherSeat(j.pubs[p].pvtId, null, j.pubs[p].backend)] == RoomClosing(i, r, done + {p}).pubs;
  }

  lemma RoomClosingEnds(st: ProxyState, r: VideoRoom)
    requires Inv(st) && r in st.index.rooms
    ensures RoomClosing(st.index, r, {})
              == st.index.(rooms := st.index.rooms[r := RoomTable(true, map[], map[], map[], st.index.rooms[r].idleTs)])
    ensures RoomClosing(st.index, r, st.index.rooms[r].participants.Values) == RoomDown(st.index, r)
    ensures st.index.rooms[r].participants.Values <= st.index.pubs.Keys
  {
    hide Inv, RoomDown, IndexInv;
    InvIndex(st);
    ParticipantsKnown(st, r);
    assert RoomClosing(st.index, r, {}).pubs == st.index.pubs;
    AllClosed(st.index, r);
  }

  lemma AllClosed(i: IndexTable, r: VideoRoom)
    requires IndexInv(i) && r in i.rooms
    ensures RoomClosing(i, r, i.rooms[r].participants.Values) == RoomDown(i, r)
  {
    hide IndexInv;
    forall p | p in i.pubs ensures p in i.rooms[r].participants.Values <==> i.pubs[p].room == r {
      SeatedIsParticipant(i, r, p);
    }
    assert RoomClosing(i, r, i.rooms[r].participants.Values).pubs == RoomDown(i, r).pubs;
  }

  lemma SeatedIsParticipant(i: IndexTable, r: VideoRoom, p: Publisher)
    requires IndexInv(i) && r in i.rooms && p in i.pubs
    ensures p in i.rooms[r].participants.Values <==> i.pubs[p].room == r
  {
    assert SeatShape(i, p) && RoomShape(i, r);
    var present := i.rooms[r].participants;
    assert forall u :: u in present ==> Seated(i, r, present[u]);
    assert i.pubs[p].room == r ==> present[p.userId] == p;
  }

  /** The links with a new subscriber `s` of `owner` that watches nobody. */
  ghost function Owned(l: LinkTable, s: Subscriber, owner: Publisher?): LinkTable {
    LinkTable(if owner in l.pubs then l.pubs[owner := PublisherLinks(l.pubs[owner].subscribers,
      l.pubs[owner].subscriptions + {s})]
              else l.pubs,
              l.subs[s := SubscriberLinks(false, null, null, map[], owner)])
  }

  lemma OwnedInSteps(l: LinkTable, s: Subscriber, owner: Publisher?)
    requires owner != null ==> owner in l.pubs
    ensures var m := l.(subs := l.subs[s := SubscriberLinks(false, null, null, map[], owner)]);
      Owned(l, s, owner) ==
      if owner == null then m
      else m.(pubs := m.pubs[owner := PublisherLinks(l.pubs[owner].subscribers, l.pubs[owner].subscriptions + {s})])
  {
  }

  /** The proxy with a new subscriber `s` of `owner` that is in no room yet. */
  ghost function WithSubscription(st: ProxyState, s: Subscriber, owner: Publisher?): ProxyState {
    st.(links := Owned(st.links, s, owner))
  }

  lemma WithSubscriptionIs(st: ProxyState, s: Subscriber, owner: Publisher?)
    ensures WithSubscription(st, s, owner) == ProxyState(st.trees, Owned(st.links, s, owner), st.index)
    ensures s in Owned(st.links, s, owner).subs
  {
  }

  lemma WithSubscriptionKeepsLinks(st: ProxyState, s: Subscriber, owner: Publisher?)
    requires LinkInv(st.links) && s !in st.links.subs && (owner != null ==> owner in st.links.pubs)
    ensures LinkInv(WithSubscription(st, s, owner).links)
  {
    var l, m := st.links, WithSubscription(st, s, owner).links;
    forall q | q in m.pubs ensures PublisherMirrored(m, q) {
      assert PublisherMirrored(l, q);
    }
    forall t | t in m.subs ensures SubscriberMirrored(m, t) {
      assert t != s ==> SubscriberMirrored(l, t);
      forall u | u in m.subs[t].feeds ensures Feeds(m, m.subs[t].feeds[u], u, t) {
        assert Feeds(l, l.subs[t].feeds[u], u, t);
      }
    }
  }

  lemma WithSubscriptionKeepsInv(st: ProxyState, s: Subscriber, owner: Publisher?)
    requires Inv(st) && s !in st.links.subs
    requires owner != null ==> owner in st.links.pubs && !st.trees.pubs[owner].destroyed
    ensures Inv(WithSubscription(st, s, owner))
  {
    hide TreeInv, LinkInv, IndexInv;
    var n := WithSubscription(st, s, owner);
    WithSubscriptionKeepsLinks(st, s, owner);
    forall r, t | r in n.trees.rems && t in n.trees.rems[r].subscribers ensures Watches(n.trees.rems[r], n.links, t) {
      assert Watches(st.trees.rems[r], st.links, t);
    }
    forall q | q in n.trees.pubs && n.trees.pubs[q].destroyed ensures Departed(n, q) {
      assert Departed(st, q);
    }
    forall t, u | t in n.links.subs && u in n.links.subs[t].feeds
        ensures InRoomOf(n.links.subs[t], n.links.subs[t].feeds[u], n.index) {
      assert InRoomOf(st.links.subs[t], st.links.subs[t].feeds[u], st.index);
    }
  }

  /** Destroying a subscriber that has joined nothing takes its creation back. */
  lemma SubscriptionTakenBack(st: ProxyState, s: Subscriber, owner: Publisher?)
    requires Inv(st) && s !in st.links.subs && (owner != null ==> owner in st.links.pubs)
    ensures s in Owned(st.links, s, owner).subs && SubscriberGone(Owned(st.links, s, owner), s).pubs == st.links.pubs
  {
    hide Inv, SubscriberGone;
    InvFeeds(st);
    var m := SubscriberGone(Owned(st.links, s, owner), s);
    forall p | p in st.links.pubs
      ensures p in m.pubs && m.pubs[p] == st.links.pubs[p]
    {
      OneTakenBack(st, s, owner, p);
    }
    GoneKeys(Owned(st.links, s, owner), s);
    assert m.pubs == st.links.pubs;
  }

  lemma GoneKeys(l: LinkTable, s: Subscriber)
    requires s in l.subs
    ensures SubscriberGone(l, s).pubs.Keys == l.pubs.Keys
  {
  }

  lemma OneTakenBack(st: ProxyState, s: Subscriber, owner: Publisher?, p: Publisher)
    requires LinkInv(st.links) && s !in st.links.subs && p in st.links.pubs
    ensures SubscriberGone(Owned(st.links, s, owner), s).pubs.Keys == st.links.pubs.Keys
    ensures SubscriberGone(Owned(st.links, s, owner), s).pubs[p] == st.links.pubs[p]
  {
    assert PublisherMirrored(st.links, p);
    assert st.links.pubs[p].subscriptions + {s} - {s} == st.links.pubs[p].subscriptions;
    assert st.links.pubs[p].subscriptions - {s} == st.links.pubs[p].subscriptions;
    assert st.links.pubs[p].subscribers - {s} == st.links.pubs[p].subscribers;
  }

  lemma FirstOne(before: set<Subscriber>, s: Subscriber)
    requires s !in before
    ensures |before + {s}| == 1 <==> before == {}
  {
    assert |before + {s}| == |before| + 1;
  }

  lemma OwnerMirrored(st: ProxyState, s: Subscriber)
    requires Inv(st) && s in st.links.subs && st.links.subs[s].owner != null
    ensures st.links.subs[s].owner in st.links.pubs && s in st.links.pubs[st.links.subs[s].owner].subscriptions
  {
    assert SubscriberMirrored(st.links, s);
  }

  /** The owner of a private id is an undestroyed publisher of the room. */
  lemma PrivateIdReady(st: ProxyState, r: VideoRoom, k: int)
    requires Inv(st) && r in st.index.rooms && k in st.index.rooms[r].privateIds
    ensures st.index.rooms[r].privateIds[k] in st.links.pubs
    ensures !st.trees.pubs[st.index.rooms[r].privateIds[k]].destroyed
    ensures st.index.rooms[r].privateIds[k] in st.trees.pubs
    ensures st.index.pubs[st.index.rooms[r].privateIds[k]].room == r && !st.index.rooms[r].destroyed
  {
    assert RoomShape(st.index, r);
    var p := st.index.rooms[r].privateIds[k];
    assert Seated(st.index, r, p);
    assert st.trees.pubs[p].destroyed ==> Departed(st, p);
  }

  /** The proxy with the new participant `p` of room `r`, placed on backend room `b`. */
  ghost function Newcomer(st: ProxyState, p: Publisher, r: VideoRoom, b: BackendRoom, pvtId: int): ProxyState
    requires r in st.index.rooms && b in st.index.backs
  {
    var n := WithPublisher(st, p);
    n.(index := Placed(n.index, p, r, b, pvtId))
  }

  lemma WithPublisherIs(st: ProxyState, p: Publisher)
    ensures WithPublisher(st, p) ==
      ProxyState(st.trees.(pubs := st.trees.pubs[p := PublisherNode(false, false, map[], {})]),
                 st.links.(pubs := st.links.pubs[p := PublisherLinks({}, {})]),
                 st.index.(pubs := st.index.pubs[p := PublisherSeat(0, null, null)]))
  {
  }

  lemma EnrolledIs(i: IndexTable, p: Publisher, r: VideoRoom, pvtId: int, now: Time)
    requires p in i.pubs && r in i.rooms
    ensures var v := i.rooms[r];
      var j := i.(pubs := i.pubs[p := PublisherSeat(pvtId, i.pubs[p].room, i.pubs[p].backend)],
                  rooms := i.rooms[r := RoomTable(v.destroyed, v.participants[p.userId := p], v.privateIds[pvtId := p],
                    v.backends, v.idleTs)]);
      IdleChecked(j, r, now) == j.(rooms := i.rooms[r :=
        RoomTable(v.destroyed, v.participants[p.userId := p], v.privateIds[pvtId := p], v.backends, 0)])
  {
    assert p.userId in i.rooms[r].participants[p.userId := p];
  }

  lemma NewcomerReady(st: ProxyState, p: Publisher, r: VideoRoom, b: BackendRoom, pvtId: int, now: Time)
    requires r in st.index.rooms && !st.index.rooms[r].destroyed && b in st.index.backs
    requires ServesRoom(st.index.rooms[r], b)
    requires p.userId !in st.index.rooms[r].participants && p.userId != r.backendRoomId
    requires pvtId !in st.index.rooms[r].privateIds
    ensures CanPlace(WithPublisher(st, p).index, p, r, b, pvtId)
    ensures p in WithPublisher(st, p).trees.pubs && p in WithPublisher(st, p).links.pubs
    ensures p in WithPublisher(st, p).index.pubs
    ensures PublisherDestroyed(WithPublisher(st, p), p, now).index == WithPublisher(st, p).index
    ensures WithPublisher(st, p).index.rooms == st.index.rooms
    ensures Newcomer(st, p, r, b, pvtId)
              == WithPublisher(st, p).(index := Placed(WithPublisher(st, p).index, p, r, b, pvtId))
  {
    var n := WithPublisher(st, p);
    assert Unseat(n.index, p, now).pubs == n.index.pubs;
  }

  lemma PlacedIs(i: IndexTable, p: Publisher, r: VideoRoom, b: BackendRoom, pvtId: int)
    requires r in i.rooms && b in i.backs
    ensures Placed(i, p, r, b, pvtId) == IndexTable(
      i.pubs[p := PublisherSeat(pvtId, r, b)],
      i.rooms[r := RoomTable(i.rooms[r].destroyed, i.rooms[r].participants[p.userId := p],
                             i.rooms[r].privateIds[pvtId := p], i.rooms[r].backends, 0)],
      i.backs[b := BackendTable(i.backs[b].destroyed, i.backs[b].room, i.backs[b].publishers + {p.userId})])
  {
  }

  lemma HostedIs(i: IndexTable, r: VideoRoom, b: BackendRoom)
    requires r in i.rooms
    ensures Hosted(i, r, b) == i.(
      rooms := i.rooms[r := RoomTable(i.rooms[r].destroyed, i.rooms[r].participants, i.rooms[r].privateIds,
                                      i.rooms[r].backends[b.serverName := b], i.rooms[r].idleTs)],
      backs := i.backs[b := BackendTable(false, r, {})])
  {
  }

  /** The proxy with a new publisher `p` that is in no room yet. */
  ghost function WithPublisher(st: ProxyState, p: Publisher): ProxyState {
    ProxyState(st.trees.(pubs := st.trees.pubs[p := PublisherNode(false, false, map[], {})]),
               st.links.(pubs := st.links.pubs[p := PublisherLinks({}, {})]),
               st.index.(pubs := st.index.pubs[p := PublisherSeat(0, null, null)]))
  }

  lemma WithPublisherKeepsTrees(g: Forest, p: Publisher)
    requires TreeInv(g) && p !in g.pubs
    ensures TreeInv(g.(pubs := g.pubs[p := PublisherNode(false, false, map[], {})]))
  {
    var h := g.(pubs := g.pubs[p := PublisherNode(false, false, map[], {})]);
    forall q | q in h.pubs ensures PublisherShape(h, q) && PublisherQuiet(h, q) {
      if q != p { assert PublisherShape(g, q) && PublisherQuiet(g, q); }
    }
    forall r | r in h.rems ensures RemoteShape(h, r) && RemoteLinked(h, r) {
      assert RemoteShape(g, r) && RemoteLinked(g, r);
    }
  }

  lemma WithPublisherKeepsLinks(l: LinkTable, p: Publisher)
    requires LinkInv(l) && p !in l.pubs
    ensures LinkInv(l.(pubs := l.pubs[p := PublisherLinks({}, {})]))
  {
    var m := l.(pubs := l.pubs[p := PublisherLinks({}, {})]);
    forall q | q in m.pubs ensures PublisherMirrored(m, q) {
      assert q != p ==> PublisherMirrored(l, q);
    }
    forall t | t in m.subs ensures SubscriberMirrored(m, t) {
      assert SubscriberMirrored(l, t);
      forall u | u in m.subs[t].feeds ensures Feeds(m, m.subs[t].feeds[u], u, t) {
        assert Feeds(l, l.subs[t].feeds[u], u, t);
      }
    }
  }

  lemma WithPublisherKeepsRoom(i: IndexTable, p: Publisher, x: VideoRoom)
    requires p !in i.pubs && x in i.rooms && RoomShape(i, x)
    ensures RoomShape(i.(pubs := i.pubs[p := PublisherSeat(0, null, null)]), x)
  {
    var j := i.(pubs := i.pubs[p := PublisherSeat(0, null, null)]);
    forall u | u in j.rooms[x].participants ensures Seated(j, x, j.rooms[x].participants[u]) {
      assert Seated(i, x, i.rooms[x].participants[u]);
    }
    forall k | k in j.rooms[x].privateIds
      ensures Seated(j, x, j.rooms[x].privateIds[k]) && j.pubs[j.rooms[x].privateIds[k]].pvtId == k
    {
      assert Seated(i, x, i.rooms[x].privateIds[k]);
    }
    forall n | n in j.rooms[x].backends ensures Hosts(j, x, n, j.rooms[x].backends[n]) {
      assert Hosts(i, x, n, i.rooms[x].backends[n]);
    }
  }

  lemma WithPublisherKeepsBackend(i: IndexTable, p: Publisher, b: BackendRoom)
    requires p !in i.pubs && b in i.backs && BackendShape(i, b)
    ensures BackendShape(i.(pubs := i.pubs[p := PublisherSeat(0, null, null)]), b)
  {
    var j := i.(pubs := i.pubs[p := PublisherSeat(0, null, null)]);
    forall u | u in j.backs[b].publishers ensures exists q :: q in j.pubs && PlacedAs(j, q, u, b) {
      var q :| q in i.pubs && PlacedAs(i, q, u, b);
      assert PlacedAs(j, q, u, b);
    }
  }

  lemma WithPublisherKeepsIndex(i: IndexTable, p: Publisher)
    requires IndexInv(i) && p !in i.pubs
    ensures IndexInv(i.(pubs := i.pubs[p := PublisherSeat(0, null, null)]))
  {
    hide RoomShape, BackendShape;
    var j := i.(pubs := i.pubs[p := PublisherSeat(0, null, null)]);
    forall q | q in j.pubs ensures SeatShape(j, q) {
      assert q != p ==> SeatShape(i, q);
    }
    forall x | x in j.rooms ensures RoomShape(j, x) { WithPublisherKeepsRoom(i, p, x); }
    forall b | b in j.backs ensures BackendShape(j, b) { WithPublisherKeepsBackend(i, p, b); }
    forall q, t | q in j.pubs && t in j.pubs && SamePlace(j, q, t) ensures q == t {
      assert q != p && t != p ==> SamePlace(i, q, t);
    }
  }

  lemma WithPublisherKeepsInv(st: ProxyState, p: Publisher)
    requires Inv(st) && p !in st.trees.pubs
    ensures Inv(WithPublisher(st, p))
  {
    hide TreeInv, LinkInv, IndexInv;
    var n := WithPublisher(st, p);
    WithPublisherKeepsTrees(st.trees, p);
    WithPublisherKeepsLinks(st.links, p);
    WithPublisherKeepsIndex(st.index, p);
    forall r, s | r in n.trees.rems && s in n.trees.rems[r].subscribers ensures Watches(n.trees.rems[r], n.links, s) {
      assert Watches(st.trees.rems[r], st.links, s);
    }
    forall q | q in n.trees.pubs && n.trees.pubs[q].destroyed ensures Departed(n, q) {
      assert Departed(st, q);
    }
    forall s, u | s in n.links.subs && u in n.links.subs[s].feeds
        ensures InRoomOf(n.links.subs[s], n.links.subs[s].feeds[u], n.index) {
      assert InRoomOf(st.links.subs[s], st.links.subs[s].feeds[u], st.index);
    }
  }

  lemma PlacedKeepsInv(st: ProxyState, p: Publisher, r: VideoRoom, b: BackendRoom, pvtId: int)
    requires Inv(st) && CanPlace(st.index, p, r, b, pvtId) && p in st.trees.pubs && !st.trees.pubs[p].destroyed
    ensures Inv(st.(index := Placed(st.index, p, r, b, pvtId)))
  {
    hide Inv, IndexInv;
    InvIndex(st);
    PlacedKeepsIndex(st.index, p, r, b, pvtId);
    IndexReplaced(st, Placed(st.index, p, r, b, pvtId));
  }

  lemma RoomDownKeepsInv(st: ProxyState, r: VideoRoom)
    requires Inv(st) && r in st.index.rooms
    ensures Inv(st.(index := RoomDown(st.index, r)))
  {
    hide TreeInv, LinkInv, WatchInv, FeedInv, IndexInv;
    RoomDownKeepsIndex(st.index, r);
    assert forall p :: p in st.trees.pubs && st.trees.pubs[p].destroyed ==> Departed(st, p);
    IndexReplaced(st, RoomDown(st.index, r));
  }

  // ---------- Destroying one remote publisher ----------

  /** What an undestroyed remote publisher may rely on between two steps. */
  lemma RemoteReady(st: ProxyState, r: RemotePublisher)
    requires Inv(st) && r in st.trees.rems
    ensures TreeInv(st.trees) && TreeShape(st.trees)
    ensures !st.trees.rems[r].destroyed ==>
              st.trees.rems[r].backend != null && st.trees.rems[r].origin != null
              && (st.trees.rems[r].idleTs == 0 <==>
                  st.trees.rems[r].children != {} || st.trees.rems[r].subscribers != {})
  {
    assert RemoteLinked(st.trees, r);
  }

  /** The subtree at a node without children is the node alone. */
  lemma {:induction false} LeafSubtree(g: Forest, r: RemotePublisher, gone: set<RemotePublisher>, x: RemotePublisher)
    requires TreeShape(g) && IsSubtree(g, {r}, gone) && g.rems[r].children == {} && x in gone
    ensures x == r
    decreases g.rems[x].depth
  {
    if x != r {
      assert HasParentIn(g, x, gone);
      var y :| y in gone && y in g.rems && x in g.rems[y].children;
      assert RemoteShape(g, y);
      LeafSubtree(g, r, gone, y);
    }
  }

  /** A link from outside a subtree into it leads to its root. */
  lemma SubtreeEdges(g: Forest, r: RemotePublisher, gone: set<RemotePublisher>)
    requires TreeShape(g) && IsSubtree(g, {r}, gone)
    ensures forall x, c :: x in g.rems && x !in gone && c in g.rems[x].children && c in gone ==> c in {r}
    ensures forall p, c :: p in g.pubs && c in g.pubs[p].children && c in gone ==> c in {r}
  {
    hide TreeShape;
    forall x, c | x in g.rems && x !in gone && c in g.rems[x].children && c in gone ensures c in {r} {
      if c != r {
        assert HasParentIn(g, c, gone);
        LinksOf(g, c);
      }
    }
    forall p, c | p in g.pubs && c in g.pubs[p].children && c in gone ensures c in {r} {
      if c != r {
        assert HasParentIn(g, c, gone);
        LinksOf(g, c);
      }
    }
  }

  lemma SubtreeDownKeepsRemote(g: Forest, r: RemotePublisher, gone: set<RemotePublisher>, now: Time, x: RemotePublisher)
    requires x in g.rems && RemoteLinked(g, x) && IsSubtree(g, {r}, gone)
    ensures RemoteLinked(TearDown(g, {r}, gone, now), x)
  {
    if x !in gone && g.rems[x].parent.UnderRemote? {
      assert g.rems[x].destroyed || g.rems[x].parent.remote !in gone;
    }
  }

  /** Destroying a node with its subtree keeps the invariant of the forest. */
  lemma SubtreeDownKeepsTrees(g: Forest, r: RemotePublisher, gone: set<RemotePublisher>, now: Time)
    requires TreeInv(g) && IsSubtree(g, {r}, gone)
    ensures TreeInv(TearDown(g, {r}, gone, now))
  {
    hide IsSubtree, TreeShape, RemoteLinked, RemoteShape, PublisherShape;
    var h := TearDown(g, {r}, gone, now);
    SubtreeEdges(g, r, gone);
    TearDownShape(g, {r}, gone, now);
    forall x | x in h.rems ensures RemoteLinked(h, x) {
      SubtreeDownKeepsRemote(g, r, gone, now, x);
    }
    forall p | p in h.pubs ensures PublisherQuiet(h, p) {
      assert PublisherQuiet(g, p);
    }
  }

  lemma LeafDown(st: ProxyState, r: RemotePublisher, gone: set<RemotePublisher>, now: Time)
    requires Inv(st) && IsSubtree(st.trees, {r}, gone) && st.trees.rems[r].children == {}
    ensures gone == {r}
  {
    forall x | x in gone ensures x == r { LeafSubtree(st.trees, r, gone, x); }
  }

  /** What is left of a node that is torn down. */
  lemma DownFields(g: Forest, r: RemotePublisher, now: Time)
    requires r in g.rems
    ensures var v := TearDown(g, {r}, {r}, now).rems[r];
      v == RemoteNode(g.rems[r].remoteId, null, null, true, NoParent, {}, {}, 0, g.rems[r].depth)
  {
  }

  lemma SubtreeDownKeepsInv(st: ProxyState, r: RemotePublisher, gone: set<RemotePublisher>, now: Time)
    requires Inv(st) && IsSubtree(st.trees, {r}, gone)
    ensures Inv(st.(trees := TearDown(st.trees, {r}, gone, now)))
  {
    hide TreeInv, LinkInv, WatchInv, IndexInv, FeedInv, DeadInv, IsSubtree;
    SubtreeDownKeepsTrees(st.trees, r, gone, now);
    TreesReplaced(st, TearDown(st.trees, {r}, gone, now));
  }

  /** Tearing down a subtree touches only its nodes, the parent of its root, and the origin. */
  lemma UnrelatedUnchanged(g: Forest, r: RemotePublisher, gone: set<RemotePublisher>, now: Time)
    requires TreeInv(g) && IsSubtree(g, {r}, gone)
    ensures forall x :: x in g.rems && x !in gone && g.rems[r].parent != UnderRemote(x) ==>
              TearDown(g, {r}, gone, now).rems[x] == g.rems[x]
    ensures forall p :: p in g.pubs && g.rems[r].origin != p ==> TearDown(g, {r}, gone, now).pubs[p] == g.pubs[p]
    ensures forall x :: x in gone ==>
              TearDown(g, {r}, gone, now).rems[x].destroyed && g.rems[x].origin == g.rems[r].origin
  {
    hide TreeInv, TreeShape, IsSubtree;
    var h := TearDown(g, {r}, gone, now);
    InvShape(g);
    SubtreeAlive(g, r, gone);
    forall x | x in gone ensures h.rems[x].destroyed && g.rems[x].origin == g.rems[r].origin {
      SameOrigin(g, r, gone, x);
    }
    LinksOf(g, r);
    forall p | p in g.pubs && g.rems[r].origin != p ensures h.pubs[p] == g.pubs[p] {
      NoneOfIts(g, r, gone, p);
    }
  }

  lemma InvShape(g: Forest)
    requires TreeInv(g)
    ensures TreeShape(g)
  {
  }

  lemma SubtreeAlive(g: Forest, r: RemotePublisher, gone: set<RemotePublisher>)
    requires IsSubtree(g, {r}, gone)
    ensures r in gone && gone <= g.rems.Keys && r in Alive(g)
  {
  }

  lemma {:induction false} SameOrigin(g: Forest, r: RemotePublisher, gone: set<RemotePublisher>, x: RemotePublisher)
    requires TreeShape(g) && IsSubtree(g, {r}, gone) && x in gone
    ensures x in g.rems && g.rems[x].origin == g.rems[r].origin
    decreases g.rems[x].depth
  {
    if x != r {
      assert HasParentIn(g, x, gone);
      var y :| y in gone && y in g.rems && x in g.rems[y].children;
      assert RemoteShape(g, y);
      SameOrigin(g, r, gone, y);
    }
  }

  lemma NoneOfIts(g: Forest, r: RemotePublisher, gone: set<RemotePublisher>, p: Publisher)
    requires TreeShape(g) && IsSubtree(g, {r}, gone) && p in g.pubs && g.rems[r].origin != p
    requires forall x :: x in gone ==> g.rems[x].origin == g.rems[r].origin
    ensures ForgetPublisher(g.pubs[p], {r}, gone) == g.pubs[p]
  {
    var v := g.pubs[p];
    assert PublisherShape(g, p);
    assert r !in v.children;
    assert v.children - {r} == v.children;
    assert (map n | n in v.remotes && v.remotes[n] !in gone :: v.remotes[n]) == v.remotes;
  }

  /** The publisher at the root of the tree that a remote publisher hangs in. */
  ghost function RootOf(g: Forest, r: RemotePublisher): Publisher
    requires TreeInv(g) && r in Alive(g)
    decreases g.rems[r].depth
  {
    assert RemoteLinked(g, r);
    match g.rems[r].parent
    case UnderPublisher(p) => p
    case UnderRemote(q) => assert RemoteShape(g, q); RootOf(g, q)
  }

  lemma {:induction false} RootIsOrigin(g: Forest, r: RemotePublisher)
    requires TreeInv(g) && r in Alive(g)
    ensures RootOf(g, r) == g.rems[r].origin
    decreases g.rems[r].depth
  {
    assert RemoteLinked(g, r);
    if g.rems[r].parent.UnderRemote? {
      var q := g.rems[r].parent.remote;
      assert RemoteShape(g, q);
      RootIsOrigin(g, q);
    }
  }

  /** The registered remote publishers of a publisher are exactly the nodes of its forwarding tree, each registered
      under its own remote id. */
  lemma RegisteredAreNodes(g: Forest, p: Publisher)
    requires TreeInv(g) && p in g.pubs
    ensures forall r :: r in g.rems ==> (r in g.pubs[p].remotes.Values <==> r in Alive(g) && RootOf(g, r) == p)
    ensures forall n :: n in g.pubs[p].remotes ==>
              g.pubs[p].remotes[n] in g.rems && g.rems[g.pubs[p].remotes[n]].remoteId == n
  {
    assert PublisherShape(g, p);
    forall r | r in g.rems ensures r in g.pubs[p].remotes.Values <==> r in Alive(g) && RootOf(g, r) == p {
      assert RemoteShape(g, r) && RemoteLinked(g, r);
      if r in Alive(g) {
        RootIsOrigin(g, r);
        assert g.rems[r].origin == p ==> g.pubs[p].remotes[g.rems[r].remoteId] == r;
      }
    }
  }

  // ---------- Cascading: a new remote publisher joins a forwarding tree ----------

  /** A remote publisher as its constructor leaves it, or, with a backend room, as `start` leaves it. */
  ghost function NewNode(p: Publisher, name: string, b: BackendRoom?, idleTs: int, depth: nat): RemoteNode {
    RemoteNode(name, p, b, false, NoParent, {}, {}, idleTs, depth)
  }

  ghost function Registered(g: Forest, p: Publisher, r: RemotePublisher, v: RemoteNode): Forest
    requires p in g.pubs
  {
    g.(pubs := g.pubs[p := g.pubs[p].(remotes := g.pubs[p].remotes[v.remoteId := r])], rems := g.rems[r := v])
  }

  /** The forest once `add_child` has hung `r` under `parent`. */
  ghost function Hung(g: Forest, r: RemotePublisher, parent: Parent): Forest
    requires r in g.rems && CanHang(g, r, parent)
  {
    var h := WithParent(g, r, parent);
    match parent
    case NoParent => h
    case UnderPublisher(p) => h.(pubs := h.pubs[p := h.pubs[p].(children := h.pubs[p].children + {r})])
    case UnderRemote(q) => h.(rems := h.rems[q := h.rems[q].(children := h.rems[q].children + {r}, idleTs := 0)])
  }

  ghost predicate CanHang(g: Forest, r: RemotePublisher, parent: Parent) {
    match parent
    case NoParent => true
    case UnderPublisher(p) => p in g.pubs
    case UnderRemote(q) => q in g.rems && q != r
  }

  /** `parent` is a node of the tree of `p`: the publisher itself, or one of its remote publishers. */
  ghost predicate InTree(g: Forest, p: Publisher, parent: Parent) {
    match parent
    case NoParent => false
    case UnderPublisher(o) => o == p && p in g.pubs
    case UnderRemote(q) => q in g.rems && !g.rems[q].destroyed && g.rems[q].origin == p
  }

  ghost function DepthBelow(g: Forest, parent: Parent): nat {
    if parent.UnderRemote? && parent.remote in g.rems then g.rems[parent.remote].depth + 1 else 0
  }

  /** `p` may get a remote publisher `r` on server `name`. */
  ghost predicate CanCascade(g: Forest, p: Publisher, r: RemotePublisher, name: string) {
    && p in g.pubs && !g.pubs[p].destroyed && g.pubs[p].started && p.cascadeEnabled
    && name !in g.pubs[p].remotes && r !in g.rems
  }

  lemma RegisteredIs(g: Forest, p: Publisher, r: RemotePublisher, name: string, now: Time, d: nat)
    requires p in g.pubs
    ensures var v := NewNode(p, name, null, now, d);
      Registered(g, p, r, v) == g.(
        pubs := g.pubs[p := PublisherNode(g.pubs[p].destroyed, g.pubs[p].started, g.pubs[p].remotes[name := r],
          g.pubs[p].children)],
        rems := g.rems[r := v])
  {
  }

  lemma RegisteredPublisher(g: Forest, p: Publisher, r: RemotePublisher, v: RemoteNode, q: Publisher)
    requires CanCascade(g, p, r, v.remoteId) && q in g.pubs && PublisherShape(g, q)
    requires v == NewNode(p, v.remoteId, v.backend, v.idleTs, v.depth)
    ensures PublisherShape(Registered(g, p, r, v), q)
  {
  }

  lemma RegisteredRemote(g: Forest, p: Publisher, r: RemotePublisher, v: RemoteNode, x: RemotePublisher)
    requires CanCascade(g, p, r, v.remoteId) && (x == r || (x in g.rems && RemoteShape(g, x)))
    requires v == NewNode(p, v.remoteId, v.backend, v.idleTs, v.depth)
    ensures RemoteShape(Registered(g, p, r, v), x)
  {
  }

  lemma RegisteredShape(g: Forest, p: Publisher, r: RemotePublisher, v: RemoteNode)
    requires TreeInv(g) && CanCascade(g, p, r, v.remoteId)
    requires v == NewNode(p, v.remoteId, v.backend, v.idleTs, v.depth)
    ensures TreeShape(Registered(g, p, r, v))
  {
    hide PublisherShape, RemoteShape;
    var h := Registered(g, p, r, v);
    forall q | q in h.pubs ensures PublisherShape(h, q) { RegisteredPublisher(g, p, r, v, q); }
    forall x | x in h.rems ensures RemoteShape(h, x) { RegisteredRemote(g, p, r, v, x); }
  }

  lemma HungPublisher(h: Forest, r: RemotePublisher, parent: Parent, p: Publisher, q: Publisher)
    requires r in h.rems && InTree(h, p, parent) && CanHang(h, r, parent) && q in h.pubs && PublisherShape(h, q)
    requires h.rems[r] == NewNode(p, h.rems[r].remoteId, h.rems[r].backend, h.rems[r].idleTs, DepthBelow(h, parent))
    requires p in h.pubs && !h.pubs[p].destroyed && h.pubs[p].started
    ensures PublisherShape(Hung(h, r, parent), q)
  {
  }

  lemma HungRemote(h: Forest, r: RemotePublisher, parent: Parent, p: Publisher, x: RemotePublisher)
    requires r in h.rems && InTree(h, p, parent) && CanHang(h, r, parent) && x in h.rems && RemoteShape(h, x)
    requires h.rems[r] == NewNode(p, h.rems[r].remoteId, h.rems[r].backend, h.rems[r].idleTs, DepthBelow(h, parent))
    requires parent == UnderRemote(x) ==> h.rems[x].backend != null
    ensures RemoteShape(Hung(h, r, parent), x)
  {
    var k := Hung(h, r, parent);
    assert k.pubs.Keys == h.pubs.Keys && k.rems.Keys == h.rems.Keys;
    if x == r {
    } else if parent == UnderRemote(x) {
      assert k.rems[x] == h.rems[x].(children := h.rems[x].children + {r}, idleTs := 0);
    } else {
      assert k.rems[x] == h.rems[x];
    }
  }

  lemma HungShape(g: Forest, p: Publisher, r: RemotePublisher, v: RemoteNode, parent: Parent)
    requires TreeInv(g) && CanCascade(g, p, r, v.remoteId) && InTree(g, p, parent)
    requires v == NewNode(p, v.remoteId, v.backend, v.idleTs, DepthBelow(g, parent))
    ensures TreeShape(Hung(Registered(g, p, r, v), r, parent))
  {
    hide PublisherShape, RemoteShape;
    var h := Registered(g, p, r, v);
    RegisteredShape(g, p, r, v);
    var k := Hung(h, r, parent);
    forall q | q in k.pubs ensures PublisherShape(k, q) {
      HungPublisher(h, r, parent, p, q);
    }
    forall x | x in k.rems ensures RemoteShape(k, x) {
      if parent == UnderRemote(x) { assert RemoteLinked(g, x); }
      HungRemote(h, r, parent, p, x);
    }
  }

  lemma HungLinked(g: Forest, p: Publisher, r: RemotePublisher, v: RemoteNode, parent: Parent, x: RemotePublisher)
    requires CanCascade(g, p, r, v.remoteId) && InTree(g, p, parent)
    requires v == NewNode(p, v.remoteId, v.backend, v.idleTs, DepthBelow(g, parent))
    requires v.backend != null && v.backend.serverName == v.remoteId && v.idleTs != 0
    requires x == r || (x in g.rems && RemoteLinked(g, x))
    ensures RemoteLinked(Hung(Registered(g, p, r, v), r, parent), x)
  {
  }

  /** Cascading a publisher to a server keeps the invariant of the forest. */
  lemma HungKeepsTrees(g: Forest, p: Publisher, r: RemotePublisher, v: RemoteNode, parent: Parent)
    requires TreeInv(g) && CanCascade(g, p, r, v.remoteId) && InTree(g, p, parent)
    requires v == NewNode(p, v.remoteId, v.backend, v.idleTs, DepthBelow(g, parent))
    requires v.backend != null && v.backend.serverName == v.remoteId && v.idleTs != 0
    ensures TreeInv(Hung(Registered(g, p, r, v), r, parent))
  {
    hide TreeShape, RemoteLinked;
    HungShape(g, p, r, v, parent);
    var h := Hung(Registered(g, p, r, v), r, parent);
    forall x | x in h.rems ensures RemoteLinked(h, x) {
      HungLinked(g, p, r, v, parent, x);
    }
    forall q | q in h.pubs ensures PublisherQuiet(h, q) {
      assert PublisherQuiet(g, q);
    }
  }

  ghost function TreeNode(p: Publisher, via: RemotePublisher?): Parent {
    if via == null then UnderPublisher(p) else UnderRemote(via)
  }

  /** The forest once `p` has a remote publisher `r` on backend room `b`, under `parent`. */
  ghost function Cascaded(g: Forest, p: Publisher, r: RemotePublisher, b: BackendRoom, now: Time,
                          parent: Parent): Forest
    requires p in g.pubs && CanHang(g, r, parent)
  {
    Hung(Registered(g, p, r, NewNode(p, b.serverName, b, now, DepthBelow(g, parent))), r, parent)
  }

  /** A successful cascade of `p` to `b`: there is a new remote publisher, and nothing else changes. */
  ghost predicate Cascades(st: ProxyState, n: ProxyState, p: Publisher, r: RemotePublisher, b: BackendRoom,
                           via: RemotePublisher?, now: Time) {
    && CanCascade(st.trees, p, r, b.serverName) && InTree(st.trees, p, TreeNode(p, via))
    && n == st.(trees := Cascaded(st.trees, p, r, b, now, TreeNode(p, via)))
  }

  /** A failed cascade, before or after the new remote publisher was hung under its parent. */
  ghost predicate FailsToCascade(st: ProxyState, n: ProxyState, p: Publisher, r: RemotePublisher, b: BackendRoom,
                                 via: RemotePublisher?, now: Time) {
    var v := NewNode(p, b.serverName, null, now, DepthBelow(st.trees, TreeNode(p, via)));
    r !in st.trees.rems
    && (n == st.(trees := CascadeUndone(st.trees, r, v, NoParent, now))
        || n == st.(trees := CascadeUndone(st.trees, r, v, TreeNode(p, via), now)))
  }

  lemma NewNodeFields(p: Publisher, name: string, b: BackendRoom?, now: Time, d: nat)
    ensures NewNode(p, name, b, now, d) == RemoteNode(name, p, b, false, NoParent, {}, {}, now, d)
  {
  }

  lemma StartedNode(g: Forest, p: Publisher, r: RemotePublisher, name: string, b: BackendRoom?, now: Time, d: nat)
    requires p in g.pubs
    ensures NewNode(p, name, b, now, d) == RemoteNode(name, p, b, false, NoParent, {}, {}, now, d)
    ensures var h := Registered(g, p, r, NewNode(p, name, null, now, d));
      h.(rems := h.rems[r := NewNode(p, name, b, now, d)]) == Registered(g, p, r, NewNode(p, name, b, now, d))
    ensures r in Registered(g, p, r, NewNode(p, name, b, now, d)).rems
    ensures Registered(g, p, r, NewNode(p, name, b, now, d)).rems[r] == NewNode(p, name, b, now, d)
    ensures CanHang(Registered(g, p, r, NewNode(p, name, b, now, d)), r, NoParent)
  {
  }

  lemma TreeNodeReady(st: ProxyState, p: Publisher, via: RemotePublisher?)
    requires Inv(st) && p in st.trees.pubs
    requires via != null ==> via in st.trees.rems && !st.trees.rems[via].destroyed && st.trees.rems[via].origin == p
    ensures InTree(st.trees, p, TreeNode(p, via)) && TreeShape(st.trees)
  {
  }

  lemma MayCascade(g: Forest, p: Publisher, r: RemotePublisher, name: string)
    requires p in g.pubs && !g.pubs[p].destroyed && g.pubs[p].started && p.cascadeEnabled
    requires name !in g.pubs[p].remotes && r !in g.rems
    ensures CanCascade(g, p, r, name)
  {
  }

  /** The forest in the middle of a cascade is in shape, so that the new node can be destroyed again. */
  lemma TriedShape(st: ProxyState, p: Publisher, r: RemotePublisher, name: string, b: BackendRoom?, now: Time,
                   via: RemotePublisher?, parent: Parent)
    requires Inv(st) && CanCascade(st.trees, p, r, name) && InTree(st.trees, p, TreeNode(p, via))
    requires parent == NoParent || parent == TreeNode(p, via)
    ensures var h := Registered(st.trees, p, r, NewNode(p, name, b, now, DepthBelow(st.trees, TreeNode(p, via))));
      CanHang(h, r, parent) && TreeShape(Hung(h, r, parent))
      && r in Hung(h, r, parent).rems && Hung(h, r, parent).rems[r].children == {}
  {
    hide TreeInv, TreeShape, LinkInv, WatchInv, IndexInv, FeedInv, DeadInv;
    var v := NewNode(p, name, b, now, DepthBelow(st.trees, TreeNode(p, via)));
    if parent == NoParent {
      RegisteredShape(st.trees, p, r, v);
      HungNowhere(Registered(st.trees, p, r, v), r);
    } else {
      HungShape(st.trees, p, r, v, parent);
    }
  }

  lemma TriedUndone(st: ProxyState, p: Publisher, r: RemotePublisher, b: BackendRoom, o: BackendRoom?, now: Time,
                    via: RemotePublisher?, parent: Parent, gone: set<RemotePublisher>)
    requires Inv(st) && CanCascade(st.trees, p, r, b.serverName) && InTree(st.trees, p, TreeNode(p, via))
    requires parent == NoParent || parent == TreeNode(p, via)
    requires var h := Registered(st.trees, p, r,
              NewNode(p, b.serverName, o, now, DepthBelow(st.trees, TreeNode(p, via))));
      CanHang(h, r, parent) && IsSubtree(Hung(h, r, parent), {r}, gone)
    ensures var k := Hung(Registered(st.trees, p, r,
              NewNode(p, b.serverName, o, now, DepthBelow(st.trees, TreeNode(p, via)))), r, parent);
      FailsToCascade(st, st.(trees := TearDown(k, {r}, gone, now)), p, r, b, via, now)
      && Inv(st.(trees := TearDown(k, {r}, gone, now)))
  {
    hide TreeInv, TreeShape, LinkInv, WatchInv, IndexInv, FeedInv, DeadInv, IsSubtree, Hung, TearDown, CascadeUndone;
    var d := DepthBelow(st.trees, TreeNode(p, via));
    var v := NewNode(p, b.serverName, o, now, d);
    TriedShape(st, p, r, b.serverName, o, now, via, parent);
    var k := Hung(Registered(st.trees, p, r, v), r, parent);
    forall x | x in gone ensures x == r { LeafSubtree(k, r, gone, x); }
    RootIsGone(k, r, gone);
    assert gone == {r};
    CascadeTakenBack(st.trees, p, r, v, parent, now) by { InvTrees(st); }
    UndoneAnyhow(st.trees, r, v.(parent := parent), NewNode(p, b.serverName, null, now, d), parent, now);
    CascadeUndoneKeepsInv(st, p, r, NewNode(p, b.serverName, null, now, d), parent, now);
  }

  lemma RootIsGone(g: Forest, r: RemotePublisher, gone: set<RemotePublisher>)
    requires IsSubtree(g, {r}, gone)
    ensures r in gone
  {
  }

  lemma InvTrees(st: ProxyState)
    requires Inv(st)
    ensures TreeInv(st.trees) && TreeShape(st.trees)
  {
  }

  lemma UndoneAnyhow(g: Forest, r: RemotePublisher, v: RemoteNode, u: RemoteNode, parent: Parent, now: Time)
    requires ClearedRemote(v) == ClearedRemote(u)
    ensures CascadeUndone(g, r, v, parent, now) == CascadeUndone(g, r, u, parent, now)
  {
  }

  lemma CascadeSucceeds(st: ProxyState, p: Publisher, r: RemotePublisher, b: BackendRoom, now: Time,
                        via: RemotePublisher?)
    requires Inv(st) && CanCascade(st.trees, p, r, b.serverName) && InTree(st.trees, p, TreeNode(p, via))
    ensures var n := st.(trees := Cascaded(st.trees, p, r, b, now, TreeNode(p, via)));
      Inv(n) && Cascades(st, n, p, r, b, via, now)
    ensures var v := NewNode(p, b.serverName, b, now, DepthBelow(st.trees, TreeNode(p, via)));
      CanHang(Registered(st.trees, p, r, v), r, TreeNode(p, via))
      && Cascaded(st.trees, p, r, b, now, TreeNode(p, via)) == Hung(Registered(st.trees, p, r, v), r, TreeNode(p, via))
  {
    hide Inv, Hung;
    CascadedKeepsInv(st, p, r, NewNode(p, b.serverName, b, now, DepthBelow(st.trees, TreeNode(p, via))),
      TreeNode(p, via));
  }

  lemma RegisteredReady(st: ProxyState, p: Publisher, name: string)
    requires Inv(st) && p in st.trees.pubs && name in st.trees.pubs[p].remotes
    ensures var r := st.trees.pubs[p].remotes[name];
      r in st.trees.rems && !st.trees.rems[r].destroyed && st.trees.rems[r].backend != null
  {
    assert PublisherShape(st.trees, p) && RemoteLinked(st.trees, st.trees.pubs[p].remotes[name]);
  }

  lemma HungUnderPublisher(g: Forest, r: RemotePublisher, p: Publisher)
    requires r in g.rems && p in g.pubs
    ensures CanHang(g, r, UnderPublisher(p))
    ensures var h := g.(pubs := g.pubs[p := PublisherNode(g.pubs[p].destroyed, g.pubs[p].started, g.pubs[p].remotes,
              g.pubs[p].children + {r})]);
      WithParent(h, r, UnderPublisher(p)) == Hung(g, r, UnderPublisher(p))
  {
  }

  lemma HungUnderRemote(g: Forest, r: RemotePublisher, q: RemotePublisher)
    requires r in g.rems && q in g.rems && q != r
    ensures CanHang(g, r, UnderRemote(q))
    ensures var v := g.rems[q];
      var h := g.(rems := g.rems[q :=
        RemoteNode(v.remoteId, v.origin, v.backend, v.destroyed, v.parent, v.children + {r}, v.subscribers, 0,
          v.depth)]);
      WithParent(h, r, UnderRemote(q)) == Hung(g, r, UnderRemote(q))
  {
    var v := g.rems[q];
    var h := g.(rems := g.rems[q :=
      RemoteNode(v.remoteId, v.origin, v.backend, v.destroyed, v.parent, v.children + {r}, v.subscribers, 0, v.depth)]);
    assert WithParent(h, r, UnderRemote(q)).rems == Hung(g, r, UnderRemote(q)).rems;
  }

  lemma HungNowhere(g: Forest, r: RemotePublisher)
    requires r in g.rems && g.rems[r].parent == NoParent
    ensures Hung(g, r, NoParent) == g
  {
    assert g.rems[r].(parent := NoParent) == g.rems[r];
    assert WithParent(g, r, NoParent).rems == g.rems;
  }

  /** The forest after a cascade that failed with `r` under `parent`: of `r` only the destroyed object is left,
      and the idle period of a mediate remote publisher that is now unused again starts at `now`. */
  ghost function CascadeUndone(g: Forest, r: RemotePublisher, v: RemoteNode, parent: Parent, now: Time): Forest {
    var h := if parent.UnderRemote? && parent.remote in g.rems then Retimed(g, parent.remote, now) else g;
    h.(rems := h.rems[r := ClearedRemote(v)])
  }

  ghost function Retimed(g: Forest, q: RemotePublisher, now: Time): Forest
    requires q in g.rems
  {
    g.(rems := g.rems[q := g.rems[q].(idleTs := IdleTs(g.rems[q].children != {} || g.rems[q].subscribers != {}, 0,
      now))])
  }

  lemma ShapeAvoids(g: Forest, q: Publisher, r: RemotePublisher)
    requires q in g.pubs && PublisherShape(g, q) && r !in g.rems
    ensures r !in g.pubs[q].children && forall n :: n in g.pubs[q].remotes ==> g.pubs[q].remotes[n] != r
  {
  }

  lemma HungPublisherIs(g: Forest, p: Publisher, r: RemotePublisher, v: RemoteNode, parent: Parent, q: Publisher)
    requires CanCascade(g, p, r, v.remoteId) && (parent == NoParent || InTree(g, p, parent)) && q in g.pubs
    ensures CanHang(Registered(g, p, r, v), r, parent) && q in Hung(Registered(g, p, r, v), r, parent).pubs
    ensures Hung(Registered(g, p, r, v), r, parent).pubs[q]
         == WithNode(g.pubs[q], v.remoteId, r, parent == UnderPublisher(q), q == p)
  {
  }

  /** A publisher that has taken up node `r`, as a child or in its registry. */
  ghost function WithNode(u: PublisherNode, name: string, r: RemotePublisher, child: bool,
    registered: bool): PublisherNode {
    u.(children := if child then u.children + {r} else u.children,
       remotes := if registered then u.remotes[name := r] else u.remotes)
  }

  lemma NodeForgotten(u: PublisherNode, name: string, r: RemotePublisher, child: bool, registered: bool)
    requires r !in u.children && (forall n :: n in u.remotes ==> u.remotes[n] != r)
              && (registered ==> name !in u.remotes)
    ensures ForgetPublisher(WithNode(u, name, r, child, registered), {r}, {r}) == u
  {
    var v := WithNode(u, name, r, child, registered);
    assert v.children - {r} == u.children;
    assert (map n | n in v.remotes && v.remotes[n] !in {r} :: v.remotes[n]) == u.remotes;
  }

  lemma UndonePublisher(g: Forest, p: Publisher, r: RemotePublisher, v: RemoteNode, parent: Parent, now: Time,
    q: Publisher)
    requires CanCascade(g, p, r, v.remoteId) && (parent == NoParent || InTree(g, p, parent))
    requires q in g.pubs && PublisherShape(g, q)
    ensures ForgetPublisher(Hung(Registered(g, p, r, v), r, parent).pubs[q], {r}, {r}) == g.pubs[q]
  {
    ShapeAvoids(g, q, r);
    HungPublisherIs(g, p, r, v, parent, q);
    hide PublisherShape, Hung, Registered, ForgetPublisher, WithNode;
    NodeForgotten(g.pubs[q], v.remoteId, r, parent == UnderPublisher(q), q == p);
  }

  lemma UndoneRemote(g: Forest, p: Publisher, r: RemotePublisher, v: RemoteNode, parent: Parent, now: Time,
                     x: RemotePublisher)
    requires CanCascade(g, p, r, v.remoteId) && (parent == NoParent || InTree(g, p, parent))
    requires x in g.rems && RemoteShape(g, x)
    ensures ForgetRemote(Hung(Registered(g, p, r, v), r, parent).rems[x], {r}, now)
         == if parent == UnderRemote(x) then Retimed(g, x, now).rems[x] else g.rems[x]
  {
    assert r !in g.rems[x].children;
    if parent == UnderRemote(x) {
      assert g.rems[x].children + {r} - {r} == g.rems[x].children;
    }
  }

  lemma TakenBackPublishers(g: Forest, p: Publisher, r: RemotePublisher, v: RemoteNode, parent: Parent, now: Time)
    requires TreeShape(g) && CanCascade(g, p, r, v.remoteId) && (parent == NoParent || InTree(g, p, parent))
    ensures TearDown(Hung(Registered(g, p, r, v), r, parent), {r}, {r}, now).pubs == g.pubs
  {
    hide PublisherShape, RemoteShape, ForgetPublisher, ForgetRemote;
    var h := Hung(Registered(g, p, r, v), r, parent);
    assert h.pubs.Keys == g.pubs.Keys;
    forall q | q in g.pubs ensures ForgetPublisher(h.pubs[q], {r}, {r}) == g.pubs[q] {
      UndonePublisher(g, p, r, v, parent, now, q);
    }
  }

  lemma TakenBackRemote(g: Forest, p: Publisher, r: RemotePublisher, v: RemoteNode, parent: Parent, now: Time,
                        x: RemotePublisher)
    requires CanCascade(g, p, r, v.remoteId) && (parent == NoParent || InTree(g, p, parent))
    requires x == r || (x in g.rems && RemoteShape(g, x))
    ensures TearDown(Hung(Registered(g, p, r, v), r, parent), {r}, {r}, now).rems[x]
         == CascadeUndone(g, r, v.(parent := parent), parent, now).rems[x]
  {
    hide RemoteShape, ForgetRemote;
    if x != r { UndoneRemote(g, p, r, v, parent, now, x); }
  }

  lemma TakenBackKeys(g: Forest, p: Publisher, r: RemotePublisher, v: RemoteNode, parent: Parent, now: Time)
    requires CanCascade(g, p, r, v.remoteId) && (parent == NoParent || InTree(g, p, parent))
    ensures TearDown(Hung(Registered(g, p, r, v), r, parent), {r}, {r}, now).rems.Keys == g.rems.Keys + {r}
    ensures CascadeUndone(g, r, v.(parent := parent), parent, now).rems.Keys == g.rems.Keys + {r}
  {
    hide ForgetRemote;
    assert Hung(Registered(g, p, r, v), r, parent).rems.Keys == g.rems.Keys + {r};
  }

  lemma TakenBackRemotes(g: Forest, p: Publisher, r: RemotePublisher, v: RemoteNode, parent: Parent, now: Time)
    requires TreeShape(g) && CanCascade(g, p, r, v.remoteId) && (parent == NoParent || InTree(g, p, parent))
    ensures TearDown(Hung(Registered(g, p, r, v), r, parent), {r}, {r}, now).rems
         == CascadeUndone(g, r, v.(parent := parent), parent, now).rems
  {
    var a := TearDown(Hung(Registered(g, p, r, v), r, parent), {r}, {r}, now).rems;
    var b := CascadeUndone(g, r, v.(parent := parent), parent, now).rems;
    hide PublisherShape, RemoteShape, TearDown, Hung, Registered, CascadeUndone;
    TakenBackKeys(g, p, r, v, parent, now);
    forall x | x in g.rems.Keys + {r} ensures a[x] == b[x] {
      TakenBackRemote(g, p, r, v, parent, now, x);
    }
  }

  /** Destroying the new remote publisher takes a failed cascade back. */
  lemma CascadeTakenBack(g: Forest, p: Publisher, r: RemotePublisher, v: RemoteNode, parent: Parent, now: Time)
    requires TreeShape(g) && CanCascade(g, p, r, v.remoteId) && (parent == NoParent || InTree(g, p, parent))
    ensures TearDown(Hung(Registered(g, p, r, v), r, parent), {r}, {r}, now)
         == CascadeUndone(g, r, v.(parent := parent), parent, now)
  {
    hide TreeShape, TearDown, Hung, Registered;
    TakenBackPublishers(g, p, r, v, parent, now);
    TakenBackRemotes(g, p, r, v, parent, now);
  }

  lemma DeadNodePublisher(g: Forest, r: RemotePublisher, v: RemoteNode, q: Publisher)
    requires r !in g.rems && q in g.pubs && PublisherShape(g, q) && PublisherQuiet(g, q)
    ensures PublisherShape(g.(rems := g.rems[r := v]), q) && PublisherQuiet(g.(rems := g.rems[r := v]), q)
  {
  }

  lemma DeadNodeRemote(g: Forest, r: RemotePublisher, v: RemoteNode, x: RemotePublisher)
    requires r !in g.rems && v == ClearedRemote(v)
              && (x == r || (x in g.rems && RemoteShape(g, x) && RemoteLinked(g, x)))
    ensures RemoteShape(g.(rems := g.rems[r := v]), x) && RemoteLinked(g.(rems := g.rems[r := v]), x)
  {
  }

  lemma DeadNodeKeepsTrees(g: Forest, r: RemotePublisher, v: RemoteNode)
    requires TreeInv(g) && r !in g.rems && v == ClearedRemote(v)
    ensures TreeInv(g.(rems := g.rems[r := v]))
  {
    hide PublisherShape, RemoteShape, RemoteLinked, PublisherQuiet;
    var h := g.(rems := g.rems[r := v]);
    forall q | q in h.pubs ensures PublisherShape(h, q) && PublisherQuiet(h, q) { DeadNodePublisher(g, r, v, q); }
    forall x | x in h.rems ensures RemoteShape(h, x) && RemoteLinked(h, x) { DeadNodeRemote(g, r, v, x); }
  }

  lemma RetimedNode(g: Forest, q: RemotePublisher, now: Time, x: RemotePublisher)
    requires q in g.rems && !g.rems[q].destroyed && x in g.rems && RemoteShape(g, x) && RemoteLinked(g, x)
    ensures SameNode(g.rems[x], Retimed(g, q, now).rems[x])
  {
  }

  lemma RetimedKeepsTrees(g: Forest, q: RemotePublisher, now: Time)
    requires TreeInv(g) && q in g.rems && !g.rems[q].destroyed
    ensures TreeInv(Retimed(g, q, now))
  {
    hide PublisherShape, RemoteShape, RemoteLinked, PublisherQuiet;
    var h := Retimed(g, q, now);
    forall x | x in g.rems ensures SameNode(g.rems[x], h.rems[x]) {
      RetimedNode(g, q, now, x);
    }
    SameTreesKeep(g, h);
  }

  /** A failed cascade keeps the invariant. */
  lemma CascadeUndoneKeepsInv(st: ProxyState, p: Publisher, r: RemotePublisher, v: RemoteNode, parent: Parent,
                              now: Time)
    requires Inv(st) && r !in st.trees.rems && (parent == NoParent || InTree(st.trees, p, parent))
    ensures Inv(st.(trees := CascadeUndone(st.trees, r, v, parent, now)))
  {
    hide TreeInv, LinkInv, WatchInv, IndexInv, FeedInv, DeadInv;
    if parent.UnderRemote? { RetimedKeepsTrees(st.trees, parent.remote, now); }
    var h := if parent.UnderRemote? then Retimed(st.trees, parent.remote, now) else st.trees;
    DeadNodeKeepsTrees(h, r, ClearedRemote(v));
    TreesReplaced(st, CascadeUndone(st.trees, r, v, parent, now));
  }

  /** A successful cascade keeps the invariant. */
  lemma CascadedKeepsInv(st: ProxyState, p: Publisher, r: RemotePublisher, v: RemoteNode, parent: Parent)
    requires Inv(st) && CanCascade(st.trees, p, r, v.remoteId) && InTree(st.trees, p, parent)
    requires v == NewNode(p, v.remoteId, v.backend, v.idleTs, DepthBelow(st.trees, parent))
    requires v.backend != null && v.backend.serverName == v.remoteId && v.idleTs != 0
    ensures Inv(st.(trees := Hung(Registered(st.trees, p, r, v), r, parent)))
  {
    hide TreeInv, LinkInv, WatchInv, IndexInv, FeedInv, DeadInv;
    HungKeepsTrees(st.trees, p, r, v, parent);
    TreesReplaced(st, Hung(Registered(st.trees, p, r, v), r, parent));
  }

  // ---------- The first state, and new rooms ----------

  /** A proxy without any object satisfies the invariant. */
  lemma EmptyInv()
    ensures Inv(ProxyState(Forest(map[], map[]), LinkTable(map[], map[]), IndexTable(map[], map[], map[])))
  {
  }

  ghost function WithRoom(i: IndexTable, r: VideoRoom, now: Time): IndexTable {
    i.(rooms := i.rooms[r := RoomTable(false, map[], map[], map[], now)])
  }

  lemma WithRoomKeepsInv(st: ProxyState, r: VideoRoom, now: Time)
    requires Inv(st) && r !in st.index.rooms
    ensures Inv(st.(index := WithRoom(st.index, r, now)))
  {
    hide Inv, IndexInv;
    InvIndex(st);
    WithRoomKeepsIndex(st.index, r, now);
    NoneSitsIn(st.index, r);
    IndexReplaced(st, WithRoom(st.index, r, now));
  }

  lemma RoomReady(st: ProxyState, r: VideoRoom)
    requires Inv(st) && r in st.index.rooms && !st.index.rooms[r].destroyed
    ensures st.index.rooms[r].idleTs == 0 <==> st.index.rooms[r].participants != map[]
  {
    assert RoomShape(st.index, r);
  }

  lemma NoneSitsIn(i: IndexTable, r: VideoRoom)
    requires IndexInv(i) && r !in i.rooms
    ensures forall p :: p in i.pubs ==> i.pubs[p].room != r
  {
    assert forall p :: p in i.pubs ==> SeatShape(i, p);
  }

  lemma WithRoomKeepsIndex(i: IndexTable, r: VideoRoom, now: Time)
    requires IndexInv(i) && r !in i.rooms
    ensures IndexInv(WithRoom(i, r, now))
  {
    var j := WithRoom(i, r, now);
    forall p | p in j.pubs ensures SeatShape(j, p) { assert SeatShape(i, p); }
    forall x | x in j.rooms ensures RoomShape(j, x) { WithRoomKeepsRoom(i, r, now, x); }
    forall b | b in j.backs ensures BackendShape(j, b) { WithRoomKeepsBackend(i, r, now, b); }
  }

  lemma WithRoomKeepsRoom(i: IndexTable, r: VideoRoom, now: Time, x: VideoRoom)
    requires x == r || (x in i.rooms && RoomShape(i, x))
    ensures RoomShape(WithRoom(i, r, now), x)
  {
    var j := WithRoom(i, r, now);
    if x != r {
      forall u | u in j.rooms[x].participants ensures Seated(j, x, j.rooms[x].participants[u]) {
        assert Seated(i, x, i.rooms[x].participants[u]);
      }
      forall k | k in j.rooms[x].privateIds
        ensures Seated(j, x, j.rooms[x].privateIds[k]) && j.pubs[j.rooms[x].privateIds[k]].pvtId == k
      {
        assert Seated(i, x, i.rooms[x].privateIds[k]);
      }
      forall n | n in j.rooms[x].backends ensures Hosts(j, x, n, j.rooms[x].backends[n]) {
        assert Hosts(i, x, n, i.rooms[x].backends[n]);
      }
    }
  }

  lemma WithRoomKeepsBackend(i: IndexTable, r: VideoRoom, now: Time, b: BackendRoom)
    requires r !in i.rooms && b in i.backs && BackendShape(i, b)
    ensures BackendShape(WithRoom(i, r, now), b)
  {
    var j := WithRoom(i, r, now);
    forall u | u in j.backs[b].publishers ensures exists q :: q in j.pubs && PlacedAs(j, q, u, b) {
      var q :| q in i.pubs && PlacedAs(i, q, u, b);
      assert PlacedAs(j, q, u, b);
    }
  }

  // ---------- The objects ----------

  /** Registry of every object the proxy has created (specification only). */
  class World {
    ghost var publishers: set<Publisher>
    ghost var remotes: set<RemotePublisher>
    ghost var subscribers: set<Subscriber>
    ghost var rooms: set<VideoRoom>
    ghost var backends: set<BackendRoom>

    ghost function Trees(): Forest
      reads this`publishers, this`remotes, publishers`destroyed, publishers`webrtcStarted, publishers`remotePublishers
      reads publishers`children, remotes
    {
      Forest(map p | p in publishers :: p.Node(), map r | r in remotes :: r.Node())
    }

    ghost function Links(): LinkTable
      reads this`publishers, this`subscribers, publishers`subscribers, publishers`subscriptions
      reads subscribers`destroyed, subscribers`room, subscribers`backendRoom, subscribers`feeds, subscribers`owner
    {
      LinkTable(map p | p in publishers :: p.Links(), map s | s in subscribers :: s.Links())
    }

    ghost function Index(): IndexTable
      reads this`publishers, this`rooms, this`backends, publishers`pvtId, publishers`room, publishers`backendRoom
      reads rooms`destroyed, rooms`participants, rooms`privateIds, rooms`backendRooms, rooms`idleTs
      reads backends`destroyed, backends`room, backends`publishers
    {
      IndexTable(map p | p in publishers :: p.Seat(), map r | r in rooms :: r.Table(), map b | b in backends ::
        b.Table())
    }

    ghost function State(): ProxyState
      reads this, publishers`destroyed, publishers`webrtcStarted, publishers`remotePublishers, publishers`children
      reads remotes
      reads publishers`subscribers, publishers`subscriptions
      reads subscribers`destroyed, subscribers`room, subscribers`backendRoom, subscribers`feeds, subscribers`owner
      reads publishers`pvtId, publishers`room, publishers`backendRoom
      reads rooms`destroyed, rooms`participants, rooms`privateIds, rooms`backendRooms, rooms`idleTs
      reads backends`destroyed, backends`room, backends`publishers
    {
      ProxyState(Trees(), Links(), Index())
    }

    lemma StateEntry(p: Publisher)
      requires p in publishers
      ensures State() == ProxyState(Trees(), Links(), Index())
      ensures p in Trees().pubs && p in Links().pubs && p in Index().pubs
      ensures Trees().pubs[p].destroyed == p.destroyed
    {
    }

    lemma NodeEntry(p: Publisher)
      requires p in publishers
      ensures p in Trees().pubs
      ensures Trees().pubs[p] == PublisherNode(p.destroyed, p.webrtcStarted, p.remotePublishers, p.children)
      ensures Trees().rems.Keys == remotes
    {
    }

    lemma SubscriberState(s: Subscriber)
      requires s in subscribers
      ensures State() == ProxyState(Trees(), Links(), Index())
      ensures s in Links().subs && Links().subs.Keys == subscribers
      ensures Links().pubs.Keys == publishers == Trees().pubs.Keys
      ensures Links().subs[s] == SubscriberLinks(s.destroyed, s.room, s.backendRoom, s.feeds, s.owner)
      ensures Index().rooms.Keys == rooms
    {
    }

    lemma RoomEntry(r: VideoRoom)
      requires r in rooms
      ensures State() == ProxyState(Trees(), Links(), Index())
      ensures r in Index().rooms && Index().rooms.Keys == rooms && Index().backs.Keys == backends
      ensures Index().rooms[r] == RoomTable(r.destroyed, r.participants, r.privateIds, r.backendRooms, r.idleTs)
    {
    }

    lemma OwnerReady(r: VideoRoom, pvtId: int)
      requires r in rooms && Inv(State())
      ensures State() == ProxyState(Trees(), Links(), Index())
      ensures Links().pubs.Keys == publishers == Trees().pubs.Keys && Links().subs.Keys == subscribers
      ensures r.OwnerOf(pvtId) != null ==> r.OwnerOf(pvtId) in publishers && !Trees().pubs[r.OwnerOf(pvtId)].destroyed
    {
      hide Inv;
      RoomEntry(r);
      if r.OwnerOf(pvtId) != null {
        PrivateIdReady(State(), r, pvtId);
      }
    }

    lemma KnownSubscribers()
      ensures State() == ProxyState(Trees(), Links(), Index())
      ensures Links().subs.Keys == subscribers && Links().pubs.Keys == publishers
    {
    }

    /** The registries and backend rooms, as the forest has them. */
    lemma AllNodes()
      ensures Trees().pubs.Keys == publishers && Trees().rems.Keys == remotes
      ensures forall q :: q in publishers ==> Trees().pubs[q].remotes == q.remotePublishers
      ensures forall x :: x in remotes && !x.destroyed ==> Trees().rems[x].backend == x.backendRoom
      ensures forall x :: x in remotes ==> Trees().rems[x].backend == x.backendRoom
    {
    }

    /** The registered remote publishers are known. */
    lemma AllRegistered()
      requires Inv(State())
      ensures forall q, name :: q in publishers && name in q.remotePublishers ==> q.remotePublishers[name] in remotes
    {
      hide *;
      AllNodes();
      KnownPublishers();
      forall q, name | q in publishers && name in q.remotePublishers ensures q.remotePublishers[name] in remotes {
        RegisteredReady(State(), q, name);
      }
    }

    lemma SubscriberListed(s: Subscriber)
      requires s in Links().subs
      ensures s in subscribers && Links().subs[s].feeds == s.feeds
    {
    }

    twostate lemma OneMoreTree(p: Publisher)
      requires publishers == old(publishers) + {p} && p !in old(publishers) && remotes == old(remotes)
      requires forall x :: x in publishers ==> unchanged(x)
      requires forall x :: x in remotes ==> unchanged(x)
      ensures Trees() == old(Trees()).(pubs := old(Trees()).pubs[p := p.Node()])
    {
      assert Trees().pubs == old(Trees()).pubs[p := p.Node()];
    }

    twostate lemma OneMoreLinks(p: Publisher)
      requires publishers == old(publishers) + {p} && p !in old(publishers) && subscribers == old(subscribers)
      requires forall x :: x in publishers ==> unchanged(x)
      requires forall x :: x in subscribers ==> unchanged(x)
      ensures Links() == old(Links()).(pubs := old(Links()).pubs[p := p.Links()])
    {
      assert Links().pubs == old(Links()).pubs[p := p.Links()];
    }

    twostate lemma OneMoreSeat(p: Publisher)
      requires publishers == old(publishers) + {p} && p !in old(publishers) && rooms == old(rooms)
      requires backends == old(backends)
      requires forall x :: x in publishers ==> unchanged(x)
      requires forall x :: x in rooms ==> unchanged(x)
      requires forall x :: x in backends ==> unchanged(x)
      ensures Index() == old(Index()).(pubs := old(Index()).pubs[p := p.Seat()])
    {
      assert Index().pubs == old(Index()).pubs[p := p.Seat()];
    }

    /** Only the links of subscriber `s` changed. */
    twostate lemma OneSubscriberChanged(s: Subscriber)
      requires s in subscribers && unchanged(this)
      requires forall x :: x in publishers ==> unchanged(x)
      requires forall x :: x in subscribers && x != s ==> unchanged(x)
      ensures Links() == old(Links()).(subs := old(Links()).subs[s := Links().subs[s]])
    {
    }

    /** Only the tables of room `r` changed. */
    twostate lemma OneRoomChanged(r: VideoRoom)
      requires r in rooms && unchanged(this)
      requires forall x :: x in publishers ==> unchanged(x)
      requires forall x :: x in rooms && x != r ==> unchanged(x)
      requires forall x :: x in backends ==> unchanged(x)
      ensures r in old(Index()).rooms
      ensures Index() == old(Index()).(rooms := old(Index()).rooms[r := r.Table()])
    {
      assert Index().rooms == old(Index()).rooms[r := r.Table()];
    }

    lemma KnownRooms()
      ensures State() == ProxyState(Trees(), Links(), Index()) && Index().rooms.Keys == rooms
    {
    }

    lemma KnownPublishers()
      ensures State() == ProxyState(Trees(), Links(), Index()) && Links().pubs.Keys == publishers == Trees().pubs.Keys
    {
    }

    lemma AvailableAlready(p: Publisher, b: BackendRoom)
      requires p in publishers && Inv(State())
      ensures p.backendRoom == b ==> AvailableOn(Trees(), Index(), p, b)
      ensures b.serverName in p.remotePublishers && p.remotePublishers[b.serverName].backendRoom == b ==>
                AvailableOn(Trees(), Index(), p, b)
    {
      hide Inv;
      NodeEntry(p);
      if b.serverName in p.remotePublishers {
        RegisteredReady(State(), p, b.serverName);
      }
    }

    lemma BackendEntry(b: BackendRoom)
      requires b in backends
      ensures State() == ProxyState(Trees(), Links(), Index())
      ensures b in Index().backs && Index().backs[b] == BackendTable(b.destroyed, b.room, b.publishers)
      ensures Index().rooms.Keys == rooms && Index().backs.Keys == backends
    {
    }

    lemma RemoteEntry(r: RemotePublisher)
      requires r in remotes
      ensures State() == ProxyState(Trees(), Links(), Index())
      ensures Trees().rems.Keys == remotes
      ensures Trees().rems[r] == r.Node()
      ensures r.Node() == RemoteNode(r.remoteId, r.origin, r.backendRoom, r.destroyed, r.parent, r.children,
                r.subscribers,
                                     if r.destroyed then 0 else r.idleTs, r.depth)
    {
    }

    lemma SeatEntry(p: Publisher)
      requires p in Index().pubs
      ensures p in publishers && Index().pubs[p] == PublisherSeat(p.pvtId, p.room, p.backendRoom)
      ensures p.room in Index().rooms ==> p.room in rooms && Index().rooms[p.room] == p.room.Table()
      ensures p.backendRoom in Index().backs ==>
                p.backendRoom in backends && Index().backs[p.backendRoom] == p.backendRoom.Table()
    {
    }

    lemma PublisherEntry(p: Publisher)
      requires p in publishers
      ensures p in Links().pubs && Links().pubs[p] == PublisherLinks(p.subscribers, p.subscriptions)
      ensures Links().subs.Keys == subscribers
    {
    }

    lemma SubscriberEntry(s: Subscriber)
      requires s in subscribers
      ensures s in Links().subs
      ensures Links().subs[s] == SubscriberLinks(s.destroyed, s.room, s.backendRoom, s.feeds, s.owner)
    {
    }
  }

  class Publisher {
    const userId: int
    const cascadeEnabled: bool
    var pvtId: int
    var room: VideoRoom?
    var webrtcStarted: bool
    var streams: seq<Stream>
    var hasHandle: bool
    var backendRoom: BackendRoom?
    var destroyed: bool
    var remotePublishers: map<string, RemotePublisher>
    var children: set<RemotePublisher>
    var subscribers: set<Subscriber>
    var subscriptions: set<Subscriber>

    ghost function Node(): PublisherNode
      reads this`destroyed, this`webrtcStarted, this`remotePublishers, this`children
    {
      PublisherNode(destroyed, webrtcStarted, remotePublishers, children)
    }

    ghost function Links(): PublisherLinks
      reads this`subscribers, this`subscriptions
    {
      PublisherLinks(subscribers, subscriptions)
    }

    ghost function Seat(): PublisherSeat
      reads this`pvtId, this`room, this`backendRoom
    {
      PublisherSeat(pvtId, room, backendRoom)
    }

    constructor (id: int, cascade: bool)
      ensures Node() == PublisherNode(false, false, map[], {}) && Links() == PublisherLinks({}, {})
      ensures Seat() == PublisherSeat(0, null, null)
      ensures userId == id && cascadeEnabled == cascade && !hasHandle && !destroyed && room == null
    {
      userId, cascadeEnabled, pvtId, room, backendRoom := id, cascade, 0, null, null;
      webrtcStarted, hasHandle, destroyed := false, false, false;
      remotePublishers, children, subscribers, subscriptions := map[], {}, {}, {};
    }

    /** Joins backend room `b`, one of the rooms that serve `target`. */
    method Join(ghost w: World, target: VideoRoom, b: BackendRoom, joinOk: bool) returns (outcome: Outcome)
      requires this in w.publishers && b in w.backends
      modifies this`hasHandle, this`backendRoom, this`room, b`publishers
      ensures outcome ==
                if destroyed then Raised(AlreadyDestroyed)
                else if old(hasHandle) then Raised(AlreadyBackend)
                else if old(room) != null then Raised(AlreadyJoined)
                else if !joinOk then Raised(BackendError) else Done
      ensures outcome.Raised? ==> w.Index() == old(w.Index()) && hasHandle == old(hasHandle)
      ensures outcome.Done? ==> hasHandle && room == target && backendRoom == b && w.Index() == old(w.Index()).(
                pubs := old(w.Index()).pubs[this := PublisherSeat(pvtId, target, b)],
                backs := old(w.Index()).backs[b := BackendTable(b.destroyed, b.room, old(b.publishers) + {userId})])
    {
      if destroyed {
        return Raised(AlreadyDestroyed);
      }
      if hasHandle {
        return Raised(AlreadyBackend);
      }
      if room != null {
        return Raised(AlreadyJoined);
      }
      if !joinOk {
        return Raised(BackendError);
      }
      Place(w, b);
      SetRoom(w, target);
      return Done;
    }

    method Place(ghost w: World, b: BackendRoom)
      requires this in w.publishers && b in w.backends
      modifies this`hasHandle, this`backendRoom, b`publishers
      ensures hasHandle && backendRoom == b
      ensures w.Index() == old(w.Index()).(
                pubs := old(w.Index()).pubs[this := PublisherSeat(pvtId, room, b)],
                backs := old(w.Index()).backs[b := BackendTable(b.destroyed, b.room, old(b.publishers) + {userId})])
    {
      hide *;
      hasHandle := true;
      SetBackend(w, b);
      b.AddPublisher(w, userId);
    }

    method TakeSubscribers(ghost w: World) returns (taken: set<Subscriber>)
      requires this in w.publishers
      modifies this`subscribers
      ensures taken == old(subscribers)
      ensures w.Links() == old(w.Links()).(pubs := old(w.Links()).pubs[this := PublisherLinks({}, subscriptions)])
    {
      taken := subscribers;
      subscribers := {};
    }

    method TakeSubscriptions(ghost w: World) returns (taken: set<Subscriber>)
      requires this in w.publishers
      modifies this`subscriptions
      ensures taken == old(subscriptions)
      ensures w.Links() == old(w.Links()).(pubs := old(w.Links()).pubs[this := PublisherLinks(subscribers, {})])
    {
      taken := subscriptions;
      subscriptions := {};
    }

    /** Takes the feed of this publisher from everyone who watches it. */
    method HangUpSubscribers(ghost w: World)
      requires this in w.publishers && subscribers <= w.subscribers
      modifies this`subscribers, w.subscribers`feeds, w.subscribers`dataFeedIds, w.subscribers`mediaFeedIds
      ensures w.Links() == FeedsDropped(old(w.Links()), this, old(subscribers))
    {
      hide *;
      ghost var l, done := w.Links(), {};
      w.PublisherEntry(this);
      NoneDropped(l, this);
      var pending := TakeSubscribers(w);
      while pending != {}
        invariant done + pending == old(subscribers) && done !! pending
        invariant w.Links() == FeedsDropped(l, this, done)
        decreases |pending|
      {
        var subscriber :| subscriber in pending;
        w.SubscriberEntry(subscriber);
        OneFeedDropped(l, this, done, subscriber);
        subscriber.OnFeedHangup(w, this);
        pending := pending - {subscriber};
        done := done + {subscriber};
      }
      assert done == old(subscribers);
    }

    /** Lets go of the subscribers that this publisher owns. */
    method ReleaseSubscriptions(ghost w: World)
      requires this in w.publishers && subscriptions <= w.subscribers
      modifies this`subscriptions, w.subscribers`owner
      ensures w.Links() == OwnersDropped(old(w.Links()), this, old(subscriptions))
    {
      hide *;
      ghost var l, done := w.Links(), {};
      w.PublisherEntry(this);
      NoneDropped(l, this);
      var pending := TakeSubscriptions(w);
      while pending != {}
        invariant done + pending == old(subscriptions) && done !! pending
        invariant w.Links() == OwnersDropped(l, this, done)
        decreases |pending|
      {
        var subscriber :| subscriber in pending;
        w.SubscriberEntry(subscriber);
        OneOwnerDropped(l, this, done, subscriber);
        subscriber.OnOwnerDestroy(w, this);
        pending := pending - {subscriber};
        done := done + {subscriber};
      }
      assert done == old(subscriptions);
    }

    method MarkDestroyed(ghost w: World) returns (kids: set<RemotePublisher>)
      requires this in w.publishers
      modifies this`destroyed, this`streams, this`remotePublishers, this`children
      ensures kids == old(children)
      ensures w.Trees() == old(w.Trees()).(pubs := old(w.Trees()).pubs[this :=
                             PublisherNode(true, webrtcStarted, map[], {})])
      ensures streams == []
      ensures destroyed
    {
      destroyed, streams := true, [];
      kids := children;
      remotePublishers := map[];
      children := {};
    }

    /** A backend server described the streams of this publisher. */
    method UpdateStreams(info: seq<Stream>)
      modifies this`streams
      ensures streams == info
    {
      streams := info;
    }

    method SetStarted(ghost w: World, started: bool)
      requires this in w.publishers
      modifies this`webrtcStarted
      ensures webrtcStarted == started
      ensures w.Trees() == old(w.Trees()).(pubs := old(w.Trees()).pubs[this :=
                             PublisherNode(destroyed, started, remotePublishers, children)])
    {
      webrtcStarted := started;
    }

    /** Tears this publisher down: its forwarding tree, its links to subscribers, its seat in the room. */
    method Destroy(ghost w: World, now: Time)
      requires this in w.publishers
      requires TreeInv(w.Trees()) && LinkInv(w.Links()) && WatchInv(w.Trees(), w.Links()) && SeatIsOwn(w.Index(), this)
      modifies this`destroyed, this`webrtcStarted, this`streams, this`hasHandle, this`backendRoom, this`room
      modifies this`subscribers, this`subscriptions, w.publishers`children, w.publishers`remotePublishers, w.remotes
      modifies w.subscribers`feeds, w.subscribers`dataFeedIds, w.subscribers`mediaFeedIds, w.subscribers`owner
      modifies w.rooms`participants, w.rooms`privateIds, w.rooms`idleTs, w.backends`publishers
      ensures !old(destroyed) ==> streams == []
      ensures destroyed
      ensures old(destroyed) ==>
                w.Trees() == old(w.Trees()) && w.Links() == old(w.Links()) && w.Index() == old(w.Index())
      ensures !old(destroyed) ==>
                w.Trees() == PublisherDown(old(w.Trees()), this, PublisherNode(true, false, map[], {}))
      ensures !old(destroyed) ==> w.Links() == PublisherGone(old(w.Links()), this)
      ensures !old(destroyed) ==> w.Index() == Unseat(old(w.Index()), this, now)
      ensures TreeInv(w.Trees()) && LinkInv(w.Links()) && WatchInv(w.Trees(), w.Links())
    {
      hide *;
      if !destroyed {
        DestroyAlive(w, now);
      }
    }

    /** `destroy` of a publisher that is alive. */
    method DestroyAlive(ghost w: World, now: Time)
      requires this in w.publishers && !destroyed
      requires TreeInv(w.Trees()) && LinkInv(w.Links()) && WatchInv(w.Trees(), w.Links()) && SeatIsOwn(w.Index(), this)
      modifies this`destroyed, this`webrtcStarted, this`streams, this`hasHandle, this`backendRoom, this`room
      modifies this`subscribers, this`subscriptions, w.publishers`children, w.publishers`remotePublishers, w.remotes
      modifies w.subscribers`feeds, w.subscribers`dataFeedIds, w.subscribers`mediaFeedIds, w.subscribers`owner
      modifies w.rooms`participants, w.rooms`privateIds, w.rooms`idleTs, w.backends`publishers
      ensures destroyed && streams == []
      ensures w.Trees() == PublisherDown(old(w.Trees()), this, PublisherNode(true, false, map[], {}))
      ensures w.Links() == PublisherGone(old(w.Links()), this)
      ensures w.Index() == Unseat(old(w.Index()), this, now)
      ensures TreeInv(w.Trees()) && LinkInv(w.Links()) && WatchInv(w.Trees(), w.Links())
    {
      hide *;
      ghost var g, l, i := w.Trees(), w.Links(), w.Index();
      w.NodeEntry(this);
      w.PublisherEntry(this);
      OwnSeat(i, this);
      GoneInSteps(l, this);
      StillOwnSeat(i, this);
      UnseatInSteps(i, this, now);
      DownAndGone(g, l, this);
      PublisherDownAgain(g, this, PublisherNode(true, webrtcStarted, map[], {}), PublisherNode(true, false, map[], {}));
      DestroyTree(w, now);
      Depart(w, now);
    }

    /** Last part of `destroy`: after the loop over the children. */
    method Depart(ghost w: World, now: Time)
      requires this in w.publishers && subscribers <= w.subscribers && SeatIsOwn(w.Index(), this)
      modifies this`room, this`webrtcStarted, this`subscribers
      modifies w.rooms`participants, w.rooms`privateIds, w.rooms`idleTs
      modifies w.subscribers`feeds, w.subscribers`dataFeedIds, w.subscribers`mediaFeedIds
      ensures w.Trees() == old(w.Trees()).(pubs := old(w.Trees()).pubs[this :=
                             PublisherNode(destroyed, false, remotePublishers, children)])
      ensures w.Links() == FeedsDropped(old(w.Links()), this, old(subscribers))
      ensures w.Index() == WithoutRoom(old(w.Index()), this, now)
    {
      hide *;
      LeaveRoom(w, now);
      SetStarted(w, false);
      HangUpSubscribers(w);
    }

    /** The backend handle is closed: the publisher is destroyed. */
    method OnClose(ghost w: World, now: Time)
      requires this in w.publishers && Inv(w.State())
      modifies this`destroyed, this`webrtcStarted, this`streams, this`hasHandle, this`backendRoom, this`room
      modifies this`subscribers, this`subscriptions, w.publishers`children, w.publishers`remotePublishers, w.remotes
      modifies w.subscribers`feeds, w.subscribers`dataFeedIds, w.subscribers`mediaFeedIds, w.subscribers`owner
      modifies w.rooms`participants, w.rooms`privateIds, w.rooms`idleTs, w.backends`publishers
      ensures Inv(w.State()) && w.State() == PublisherDestroyed(old(w.State()), this, now)
      ensures destroyed
    {
      hide *;
      if destroyed {
        w.StateEntry(this);
        PublisherDestroyedIs(w.State(), this, now);
        return;
      }
      hasHandle := false;
      DestroyStep(w, now);
    }

    /** `destroy` as one step of the proxy. */
    method DestroyStep(ghost w: World, now: Time)
      requires this in w.publishers && Inv(w.State())
      modifies this`destroyed, this`webrtcStarted, this`streams, this`hasHandle, this`backendRoom, this`room
      modifies this`subscribers, this`subscriptions, w.publishers`children, w.publishers`remotePublishers, w.remotes
      modifies w.subscribers`feeds, w.subscribers`dataFeedIds, w.subscribers`mediaFeedIds, w.subscribers`owner
      modifies w.rooms`participants, w.rooms`privateIds, w.rooms`idleTs, w.backends`publishers
      ensures Inv(w.State()) && w.State() == PublisherDestroyed(old(w.State()), this, now)
      ensures destroyed
    {
      hide *;
      ghost var st := w.State();
      w.StateEntry(this);
      InvParts(st, this);
      PublisherDestroyedKeepsInv(st, this, now);
      PublisherDestroyedIs(st, this, now);
      Destroy(w, now);
      w.StateEntry(this);
    }

    /** The peer connection is up. */
    method OnWebrtcUp(ghost w: World)
      requires this in w.publishers && Inv(w.State())
      modifies this`webrtcStarted
      ensures !destroyed && hasHandle ==> webrtcStarted
      ensures Inv(w.State())
      ensures w.State() == if destroyed || !hasHandle then old(w.State())
                           else old(w.State()).(trees := WithStarted(old(w.Trees()), this))
    {
      hide *;
      if destroyed || !hasHandle {
        return;
      }
      w.StateEntry(this);
      w.NodeEntry(this);
      StartedKeepsInv(w.State(), this);
      WithStartedIs(w.Trees(), this);
      SetStarted(w, true);
      w.StateEntry(this);
    }

    /** The peer connection is down: the forwarding tree and all subscribers go, the publisher stays in its room. */
    method OnHangup(ghost w: World, now: Time)
      requires this in w.publishers && Inv(w.State())
      modifies this`webrtcStarted, this`streams, this`subscribers, w.publishers`children, w.publishers`remotePublishers,
        w.remotes
      modifies w.subscribers`feeds, w.subscribers`dataFeedIds, w.subscribers`mediaFeedIds
      ensures !destroyed && hasHandle ==>
                !webrtcStarted && children == {} && remotePublishers == map[] && subscribers == {}
      ensures !old(destroyed) && hasHandle ==> forall s :: s in old(subscribers) ==> userId !in s.feeds
      ensures !destroyed && hasHandle ==> streams == []
      ensures Inv(w.State())
      ensures w.State() == if old(destroyed) || !hasHandle then old(w.State())
                else PublisherHungUp(old(w.State()), this)
    {
      hide *;
      if destroyed || !hasHandle {
        return;
      }
      ghost var st := w.State();
      w.StateEntry(this);
      w.NodeEntry(this);
      w.PublisherEntry(this);
      InvParts(st, this);
      PublisherHungUpKeepsInv(st, this);
      PublisherHungUpIs(st, this);
      GoneInSteps(st.links, this);
      HangUpTree(w, now);
      HangUpSubscribers(w);
      w.StateEntry(this);
      SeenHungUp(w, st);
    }

    lemma SeenHungUp(w: World, st: ProxyState)
      requires this in w.publishers && Inv(st) && this in st.trees.pubs && this in st.links.pubs
      requires w.State() == PublisherHungUp(st, this)
      ensures !webrtcStarted && children == {} && remotePublishers == map[] && subscribers == {}
      ensures forall s :: s in st.links.pubs[this].subscribers ==> userId !in s.feeds
    {
      hide *;
      HungUpFields(st, this);
      w.StateEntry(this);
      w.NodeEntry(this);
      w.PublisherEntry(this);
      forall s | s in st.links.pubs[this].subscribers ensures userId !in s.feeds { w.SubscriberListed(s); }
    }

    method HangUpTree(ghost w: World, now: Time)
      requires this in w.publishers && !destroyed && TreeInv(w.Trees())
      modifies this`webrtcStarted, this`streams, w.publishers`children, w.publishers`remotePublishers, w.remotes
      ensures streams == []
      ensures w.Trees() == PublisherDown(old(w.Trees()), this, PublisherNode(false, false, map[], {}))
      ensures w.Links() == old(w.Links()) && w.Index() == old(w.Index())
    {
      hide *;
      ghost var g, u := w.Trees(), PublisherNode(false, false, remotePublishers, {});
      w.NodeEntry(this);
      ReadyForChildren(g, this, u);
      var kids := StopAndTakeChildren(w);
      ghost var gone := DestroyChildren(w, kids, now);
      ChildrenDestroyed(g, this, u, gone, now);
    }

    method StopAndTakeChildren(ghost w: World) returns (kids: set<RemotePublisher>)
      requires this in w.publishers
      modifies this`webrtcStarted, this`streams, this`children
      ensures streams == []
      ensures kids == old(children)
      ensures w.Trees() == old(w.Trees()).(pubs := old(w.Trees()).pubs[this :=
                             PublisherNode(destroyed, false, remotePublishers, {})])
    {
      webrtcStarted, streams := false, [];
      kids := children;
      children := {};
    }

    method SetChildren(ghost w: World, cs: set<RemotePublisher>)
      requires this in w.publishers
      modifies this`children
      ensures children == cs
      ensures w.Trees() == old(w.Trees()).(pubs := old(w.Trees()).pubs[this :=
                             PublisherNode(destroyed, webrtcStarted, remotePublishers, cs)])
    {
      children := cs;
    }

    /** First part of `destroy`: up to the loop over the children. */
    method DestroyTree(ghost w: World, now: Time)
      requires this in w.publishers && !destroyed
      requires TreeInv(w.Trees()) && LinkInv(w.Links()) && SeatIsOwn(w.Index(), this)
      modifies this`destroyed, this`streams, this`hasHandle, this`backendRoom, this`subscriptions
      modifies w.publishers`children, w.publishers`remotePublishers, w.remotes
      modifies w.subscribers`owner, w.backends`publishers
      ensures streams == []
      ensures destroyed && remotePublishers == map[] && children == {}
      ensures w.Trees() == PublisherDown(old(w.Trees()), this, PublisherNode(true, webrtcStarted, map[], {}))
      ensures w.Links() == OwnersDropped(old(w.Links()), this, old(subscriptions))
      ensures w.Index() == WithoutBackend(old(w.Index()), this)
    {
      hide *;
      ghost var g, l, i := w.Trees(), w.Links(), w.Index();
      w.NodeEntry(this);
      w.PublisherEntry(this);
      OwnSeat(i, this);
      w.SeatEntry(this);
      GoneInSteps(l, this);
      ghost var u := PublisherNode(true, webrtcStarted, map[], {});
      ReadyForChildren(g, this, u);
      var kids := Detach(w);
      ghost var gone := DestroyChildren(w, kids, now);
      ChildrenDestroyed(g, this, u, gone, now);
      w.NodeEntry(this);
      PublisherDownAgain(g, this, u, u);
    }

    method Detach(ghost w: World) returns (kids: set<RemotePublisher>)
      requires this in w.publishers && subscriptions <= w.subscribers
                && (backendRoom != null ==> backendRoom in w.backends)
      modifies this`destroyed, this`streams, this`remotePublishers, this`children, this`subscriptions, this`backendRoom
      modifies this`hasHandle
      modifies w.subscribers`owner, w.backends`publishers
      ensures streams == []
      ensures destroyed && kids == old(children)
      ensures w.Trees() == old(w.Trees()).(pubs := old(w.Trees()).pubs[this :=
                             PublisherNode(true, webrtcStarted, map[], {})])
      ensures w.Links() == OwnersDropped(old(w.Links()), this, old(subscriptions))
      ensures w.Index() == WithoutBackend(old(w.Index()), this)
    {
      hide *;
      kids := MarkDestroyed(w);
      ReleaseSubscriptions(w);
      LeaveBackend(w);
    }

    method LeaveBackend(ghost w: World)
      requires this in w.publishers && (backendRoom != null ==> backendRoom in w.backends)
      modifies this`backendRoom, this`hasHandle, w.backends`publishers
      ensures w.Index() == WithoutBackend(old(w.Index()), this)
    {
      hide *;
      w.StateEntry(this);
      w.SeatEntry(this);
      if backendRoom != null { w.BackendEntry(backendRoom); }
      WithoutBackendInSteps(w.Index(), this);
      if backendRoom != null {
        backendRoom.DelPublisher(w, userId);
        SetBackend(w, null);
      }
      hasHandle := false;
    }

    method SetBackend(ghost w: World, b: BackendRoom?)
      requires this in w.publishers
      modifies this`backendRoom
      ensures backendRoom == b
      ensures w.Index() == old(w.Index()).(pubs := old(w.Index()).pubs[this := PublisherSeat(pvtId, room, b)])
    {
      backendRoom := b;
    }

    method SetPvtId(ghost w: World, id: int)
      requires this in w.publishers
      modifies this`pvtId
      ensures pvtId == id
      ensures w.Index() == old(w.Index()).(pubs := old(w.Index()).pubs[this := PublisherSeat(id, room, backendRoom)])
    {
      pvtId := id;
    }

    method LeaveRoom(ghost w: World, now: Time)
      requires SeatIsOwn(w.Index(), this)
      modifies this`room, w.rooms`participants, w.rooms`privateIds, w.rooms`idleTs
      ensures w.Index() == WithoutRoom(old(w.Index()), this, now)
    {
      w.SeatEntry(this);
      if room != null {
        room.OnParticipantDestroy(w, userId, now);
        SetRoom(w, null);
      }
    }

    method SetRoom(ghost w: World, r: VideoRoom?)
      requires this in w.publishers
      modifies this`room
      ensures room == r
      ensures w.Index() == old(w.Index()).(pubs := old(w.Index()).pubs[this := PublisherSeat(pvtId, r, backendRoom)])
    {
      room := r;
    }

    method Enlist(ghost w: World, s: Subscriber)
      requires this in w.publishers && s in w.subscribers
      modifies this`subscribers
      ensures w.Links() == Subscribed(old(w.Links()), s, {this}, s.feeds)
      ensures w.Trees() == old(w.Trees())
    {
      subscribers := subscribers + {s};
    }

    method Delist(ghost w: World, s: Subscriber)
      requires this in w.publishers && s in w.subscribers
      modifies this`subscribers
      ensures w.Links() == Unsubscribed(old(w.Links()), s, {this}, s.feeds)
      ensures w.Trees() == old(w.Trees())
    {
      subscribers := subscribers - {s};
    }

    method AddSubscriber(ghost w: World, s: Subscriber)
      requires this in w.publishers && s in w.subscribers && TreeInv(w.Trees()) && WatchInv(w.Trees(), w.Links())
      modifies this`subscribers, w.remotes`subscribers, w.remotes`idleTs
      ensures TreeInv(w.Trees()) && WatchInv(w.Trees(), w.Links())
      ensures w.Links() == Subscribed(old(w.Links()), s, {this}, s.feeds)
      ensures w.Trees() == Watched(old(w.Trees()), s, s.backendRoom, {this})
    {
      hide TreeInv, WatchInv, Watched, Subscribed;
      ghost var g := w.Trees();
      assert g.pubs[this] == Node() && w.Links().subs[s] == s.Links();
      WatchedKeepsTrees(g, s, s.backendRoom, {this});
      SubscribeKeepsWatch(g, w.Links(), s, {this}, s.feeds);
      WatchedOne(g, s, this, s.backendRoom);
      Enlist(w, s);
      var b := s.backendRoom;
      if HasRemoteOn(g, this, b) {
        RemoteOn(g, this, b);
        assert g.rems[remotePublishers[b.serverName]] == remotePublishers[b.serverName].Node();
      }
      if cascadeEnabled {
        if b != null && b.serverName in remotePublishers {
          remotePublishers[b.serverName].AddSubscriber(w, s);
        }
      }
    }

    method DelSubscriber(ghost w: World, s: Subscriber, now: Time)
      requires this in w.publishers && s in w.subscribers && TreeInv(w.Trees()) && WatchInv(w.Trees(), w.Links())
      modifies this`subscribers, w.remotes`subscribers, w.remotes`idleTs
      ensures TreeInv(w.Trees()) && WatchInv(w.Trees(), w.Links())
      ensures w.Links() == Unsubscribed(old(w.Links()), s, {this}, s.feeds)
      ensures w.Trees() == Unwatched(old(w.Trees()), s, {this}, now)
    {
      hide TreeInv, WatchInv, Unwatched, WithoutWatcher, Unsubscribed;
      ghost var g := w.Trees();
      assert g.pubs[this] == Node() && w.Links().subs[s] == s.Links();
      UnwatchedKeepsTrees(g, s, {this}, now);
      UnsubscribeKeepsWatch(g, w.Links(), s, {this}, s.feeds, now);
      var b := s.backendRoom;
      if HasRemoteOn(g, this, b) {
        UnwatchedOne(g, w.Links(), s, this, remotePublishers[b.serverName], now);
        assert g.rems[remotePublishers[b.serverName]] == remotePublishers[b.serverName].Node();
      } else {
        UnwatchedNone(g, w.Links(), s, this, now);
      }
      Delist(w, s);
      if cascadeEnabled {
        if b != null && b.serverName in remotePublishers {
          remotePublishers[b.serverName].DelSubscriber(w, s, now);
        }
      }
    }

    method CreateRemote(ghost w: World, name: string, now: Time, ghost d: nat) returns (rp: RemotePublisher)
      modifies w`remotes
      ensures fresh(rp) && rp.Node() == NewNode(this, name, null, now, d) && rp.remoteId == name
      ensures w.remotes == old(w.remotes) + {rp}
      ensures w.Trees() == old(w.Trees()).(rems := old(w.Trees()).rems[rp := rp.Node()])
    {
      rp := new RemotePublisher(this, name, now, d);
      w.remotes := w.remotes + {rp};
      assert w.Trees().rems == old(w.Trees()).rems[rp := rp.Node()];
    }

    method SetRemotes(ghost w: World, rps: map<string, RemotePublisher>)
      requires this in w.publishers
      modifies this`remotePublishers
      ensures remotePublishers == rps
      ensures w.Trees() == old(w.Trees()).(pubs := old(w.Trees()).pubs[this := PublisherNode(destroyed, webrtcStarted,
                rps, children)])
    {
      remotePublishers := rps;
    }

    /** Registers a new remote publisher for server `name`. */
    method Register(ghost w: World, name: string, now: Time, ghost d: nat) returns (rp: RemotePublisher)
      requires this in w.publishers
      modifies this`remotePublishers, w`remotes
      ensures fresh(rp) && rp.Node() == NewNode(this, name, null, now, d) && rp.remoteId == name
      ensures w.remotes == old(w.remotes) + {rp}
      ensures w.Trees() == Registered(old(w.Trees()), this, rp, NewNode(this, name, null, now, d))
    {
      hide *;
      w.NodeEntry(this);
      ghost var g := w.Trees();
      rp := CreateRemote(w, name, now, d);
      RegisteredIs(g, this, rp, name, now, d);
      SetRemotes(w, remotePublishers[name := rp]);
    }

    /** Forwards the media of this publisher to `rp`. A refused request leaves `rp` linked. */
    method AddChild(ghost w: World, rp: RemotePublisher, publishOk: bool) returns (outcome: Outcome)
      requires this in w.publishers && rp in w.remotes
      modifies this`children, rp`parent
      ensures outcome ==
                if destroyed then Raised(AlreadyDestroyed)
                else if !hasHandle || backendRoom == null then Raised(JoinFirst)
                else if !webrtcStarted then Raised(NotPublished)
                else if rp in old(children) || publishOk then Done else Raised(BackendError)
      ensures w.Trees() == if !destroyed && hasHandle && backendRoom != null && webrtcStarted && rp !in old(children)
                           then Hung(old(w.Trees()), rp, UnderPublisher(this)) else old(w.Trees())
    {
      if destroyed {
        return Raised(AlreadyDestroyed);
      }
      if !hasHandle || backendRoom == null {
        return Raised(JoinFirst);
      }
      if !webrtcStarted {
        return Raised(NotPublished);
      }
      if rp in children {
        return Done;
      }
      Adopt(w, rp);
      return if publishOk then Done else Raised(BackendError);
    }

    method Adopt(ghost w: World, rp: RemotePublisher)
      requires this in w.publishers && rp in w.remotes
      modifies this`children, rp`parent
      ensures w.Trees() == Hung(old(w.Trees()), rp, UnderPublisher(this))
    {
      hide *;
      w.NodeEntry(this);
      w.RemoteEntry(rp);
      HungUnderPublisher(w.Trees(), rp, this);
      SetChildren(w, children + {rp});
      rp.SetParent(w, UnderPublisher(this));
    }

    /** `_add_rp_to_cascade_tree`. */
    method AddToTree(ghost w: World, rp: RemotePublisher, via: RemotePublisher?, publishOk: bool)
      returns (outcome: Outcome, ghost parent: Parent)
      requires this in w.publishers && rp in w.remotes && rp.parent == NoParent && rp !in children && cascadeEnabled
      requires via != null ==> via in w.remotes && via != rp && rp !in via.children
      modifies this`children, w.remotes`children, w.remotes`idleTs, rp`parent
      ensures parent == NoParent || parent == TreeNode(this, via)
      ensures outcome.Done? ==> parent == TreeNode(this, via)
      ensures outcome.Done? <==> publishOk && (if via == null then Refusal().Done? && backendRoom != null
                                               else !via.destroyed && via.backendRoom != null && via.backendRoom.active)
      ensures CanHang(old(w.Trees()), rp, parent) && w.Trees() == Hung(old(w.Trees()), rp, parent)
    {
      hide Hung;
      w.NodeEntry(this);
      HungNowhere(w.Trees(), rp) by { assert w.Trees().rems[rp] == rp.Node(); }
      if via == null {
        outcome := AddChild(w, rp, publishOk);
        parent := if !destroyed && hasHandle && backendRoom != null && webrtcStarted then UnderPublisher(this)
            else NoParent;
      } else {
        outcome := via.AddChild(w, rp, publishOk);
        parent := if !via.destroyed && via.backendRoom != null && via.backendRoom.active then UnderRemote(via)
            else NoParent;
      }
    }

    /** What `cascade` answers before it looks at the remote publishers. */
    function Refusal(): Outcome
      reads this`destroyed, this`hasHandle, this`webrtcStarted
    {
      if destroyed then Raised(AlreadyDestroyed)
      else if !hasHandle then Raised(JoinFirst)
      else if !cascadeEnabled then Raised(InvalidRequest)
      else if !webrtcStarted then Raised(NotPublished)
      else Done
    }

    /** A cascade is not refused exactly if the publisher lives, has joined, may cascade and has media. */
    lemma RefusalIs()
      ensures Refusal() == Done <==> !destroyed && hasHandle && cascadeEnabled && webrtcStarted
      ensures Refusal() == Raised(AlreadyDestroyed) <==> destroyed
      ensures Refusal() == Raised(JoinFirst) <==> !destroyed && !hasHandle
      ensures Refusal() == Raised(InvalidRequest) <==> !destroyed && hasHandle && !cascadeEnabled
      ensures Refusal() == Raised(NotPublished) <==> !destroyed && hasHandle && cascadeEnabled && !webrtcStarted
    {
    }

    lemma NotRefused()
      requires Refusal().Done?
      ensures !destroyed && hasHandle && cascadeEnabled && webrtcStarted
    {
    }

    /** A cascade to backend room `b`, which is `active` or not, succeeds: this publisher sits there, or has its remote
        publisher of that server there, or can get a new one, which the servers start and forward. */
    ghost predicate CanServe(b: BackendRoom, active: bool, startOk: bool, publishOk: bool)
      reads this`destroyed, this`hasHandle, this`webrtcStarted, this`backendRoom, this`remotePublishers
      reads remotePublishers.Values`backendRoom
    {
      && !destroyed && hasHandle && cascadeEnabled && webrtcStarted
      && (backendRoom == b
          || (if b.serverName in remotePublishers then remotePublishers[b.serverName].backendRoom == b
              else active && startOk && publishOk && backendRoom != null))
    }

    /** As long as the registry and the backend rooms of its nodes stay, what a publisher can serve stays. */
    twostate lemma SameRegistry(b: BackendRoom)
      requires remotePublishers == old(remotePublishers) && destroyed == old(destroyed) && hasHandle == old(hasHandle)
      requires webrtcStarted == old(webrtcStarted) && backendRoom == old(backendRoom)
      requires forall x :: x in remotePublishers.Values ==> x.backendRoom == old(x.backendRoom)
      ensures forall active, startOk, publishOk ::
                CanServe(b, active, startOk, publishOk) == old(CanServe(b, active, startOk, publishOk))
    {
    }

    /** On a backend room that nobody knows yet only a new remote publisher can serve. */
    lemma ServesFresh(b: BackendRoom, startOk: bool, publishOk: bool)
      requires backendRoom != b && forall x :: x in remotePublishers.Values ==> x.backendRoom != b
      ensures CanServe(b, true, startOk, publishOk) <==>
                && !destroyed && hasHandle && cascadeEnabled && webrtcStarted && backendRoom != null
                && b.serverName !in remotePublishers && startOk && publishOk
    {
    }

    lemma CanServeIs(b: BackendRoom, active: bool, startOk: bool, publishOk: bool)
      ensures CanServe(b, active, startOk, publishOk) <==>
                && Refusal().Done?
                && (backendRoom == b
                    || (if b.serverName in remotePublishers then remotePublishers[b.serverName].backendRoom == b
                        else active && startOk && publishOk && backendRoom != null))
    {
    }

    lemma MayStart(w: World, name: string, via: RemotePublisher?)
      requires this in w.publishers && Inv(w.State()) && Refusal().Done? && name !in remotePublishers
      requires via != null ==> via in w.remotes && !via.destroyed && via.origin == this
      ensures w.State() == ProxyState(w.Trees(), w.Links(), w.Index()) && w.Trees().rems.Keys == w.remotes
      ensures InTree(w.Trees(), this, TreeNode(this, via)) && (via != null ==> via.backendRoom != null)
      ensures this in w.Trees().pubs && name !in w.Trees().pubs[this].remotes && cascadeEnabled
      ensures !w.Trees().pubs[this].destroyed && w.Trees().pubs[this].started
    {
      hide Inv, InTree;
      w.NodeEntry(this);
      if via != null {
        w.RemoteEntry(via);
        RemoteReady(w.State(), via);
      }
      TreeNodeReady(w.State(), this, via);
    }

    /** Registers, starts and hangs a new remote publisher; an error leaves it as far as it got. */
    method TryCascade(ghost w: World, b: BackendRoom, via: RemotePublisher?, startOk: bool, publishOk: bool, now: Time)
      returns (outcome: Outcome, rp: RemotePublisher, ghost parent: Parent)
      requires this in w.publishers && Refusal().Done? && InTree(w.Trees(), this, TreeNode(this, via))
      requires via != null ==> via in w.remotes && !via.destroyed && via.backendRoom != null
      modifies this`children, this`remotePublishers, w`remotes, w.remotes`children, w.remotes`idleTs
      ensures fresh(rp) && w.remotes == old(w.remotes) + {rp} && !rp.destroyed
      ensures parent == NoParent || parent == TreeNode(this, via)
      ensures outcome.Done? <==> b.active && startOk && publishOk
                                 && (if via == null then backendRoom != null else via.backendRoom.active)
      ensures outcome.Done? ==> parent == TreeNode(this, via) && rp.backendRoom == b
      ensures var v := NewNode(this, b.serverName, rp.backendRoom, now,
                DepthBelow(old(w.Trees()), TreeNode(this, via)));
        CanHang(Registered(old(w.Trees()), this, rp, v), rp, parent)
        && w.Trees() == Hung(Registered(old(w.Trees()), this, rp, v), rp, parent)
    {
      hide *;
      NotRefused();
      outcome, rp := RegisterAndStart(w, b, startOk, now, DepthBelow(w.Trees(), TreeNode(this, via)));
      parent := NoParent;
      HungNowhere(w.Trees(), rp);
      if outcome.Done? {
        outcome, parent := AddToTree(w, rp, via, publishOk);
      }
    }

    /** Registers a new remote publisher and starts it. */
    method RegisterAndStart(ghost w: World, b: BackendRoom, startOk: bool, now: Time, ghost d: nat)
      returns (outcome: Outcome, rp: RemotePublisher)
      requires this in w.publishers
      modifies this`remotePublishers, w`remotes
      ensures fresh(rp) && w.remotes == old(w.remotes) + {rp} && !rp.destroyed && rp.parent == NoParent
      ensures outcome.Done? <==> b.active && startOk
      ensures rp.backendRoom == if outcome.Done? then b else null
      ensures var v := NewNode(this, b.serverName, rp.backendRoom, now, d);
        && rp in Registered(old(w.Trees()), this, rp, v).rems && w.Trees() == Registered(old(w.Trees()), this, rp, v)
        && Registered(old(w.Trees()), this, rp, v).rems[rp].parent == NoParent
        && CanHang(Registered(old(w.Trees()), this, rp, v), rp, NoParent)
    {
      hide *;
      ghost var g := w.Trees();
      w.NodeEntry(this);
      rp := Register(w, b.serverName, now, d);
      NewNodeFields(this, b.serverName, null, now, d);
      w.RemoteEntry(rp);
      outcome := rp.Start(w, b, startOk);
      w.RemoteEntry(rp);
      StartedNode(g, this, rp, b.serverName, rp.backendRoom, now, d);
      NewNodeFields(this, b.serverName, rp.backendRoom, now, d);
    }

    /** The part of `cascade` that makes a new remote publisher. */
    method StartRemote(ghost w: World, b: BackendRoom, via: RemotePublisher?, startOk: bool, publishOk: bool, now: Time)
      returns (outcome: Outcome, made: RemotePublisher)
      requires this in w.publishers && Inv(w.State()) && Refusal().Done? && b.serverName !in remotePublishers
      requires via != null ==> via in w.remotes && !via.destroyed && via.origin == this
      modifies w`remotes, w.remotes, w.publishers`children, w.publishers`remotePublishers
      ensures Inv(w.State()) && fresh(made) && w.remotes == old(w.remotes) + {made}
      ensures outcome.Done? <==> b.active && startOk && publishOk
                                 && (if via == null then backendRoom != null
                                     else old(via.backendRoom) != null && old(via.backendRoom).active)
      ensures outcome.Done? ==> Cascades(old(w.State()), w.State(), this, made, b, via, now)
      ensures outcome.Raised? ==> FailsToCascade(old(w.State()), w.State(), this, made, b, via, now)
    {
      hide *;
      ghost var st, parent := w.State(), NoParent;
      MayStart(w, b.serverName, via);
      outcome, made, parent := TryCascade(w, b, via, startOk, publishOk, now);
      MayCascade(st.trees, this, made, b.serverName);
      if outcome.Raised? {
        TakeBack(w, made, st, b, via, parent, now);
      } else {
        CascadeSucceeds(st, this, made, b, now, via);
        w.StateEntry(this);
      }
    }

    /** Destroys the new remote publisher of a cascade that failed. */
    method TakeBack(ghost w: World, rp: RemotePublisher, ghost st: ProxyState, ghost b: BackendRoom,
                    ghost via: RemotePublisher?, ghost parent: Parent, now: Time)
      requires this in w.publishers && rp in w.remotes && !rp.destroyed && Inv(st)
      requires CanCascade(st.trees, this, rp, b.serverName) && InTree(st.trees, this, TreeNode(this, via))
      requires parent == NoParent || parent == TreeNode(this, via)
      requires var v := NewNode(this, b.serverName, rp.backendRoom, now, DepthBelow(st.trees, TreeNode(this, via)));
        CanHang(Registered(st.trees, this, rp, v), rp, parent)
        && w.Trees() == Hung(Registered(st.trees, this, rp, v), rp, parent)
      requires w.Links() == st.links && w.Index() == st.index
      modifies w.remotes, w.publishers`children, w.publishers`remotePublishers
      ensures Inv(w.State()) && FailsToCascade(st, w.State(), this, rp, b, via, now)
    {
      hide *;
      ghost var o := rp.backendRoom;
      TriedShape(st, this, rp, b.serverName, o, now, via, parent);
      ghost var gone := rp.Destroy(w, now);
      TriedUndone(st, this, rp, b, o, now, via, parent, gone);
      w.StateEntry(this);
    }

    /** Makes this publisher available on backend room `b`. `via` is the node that forwards to a new remote
        publisher; null is the publisher itself, the only choice `_add_rp_to_cascade_tree` makes so far.
        A failure at any point leaves nothing of the new remote publisher behind. */
    method Cascade(ghost w: World, b: BackendRoom, via: RemotePublisher?, startOk: bool, publishOk: bool, now: Time)
      returns (outcome: Outcome, ghost made: RemotePublisher?)
      requires this in w.publishers && Inv(w.State())
      requires via != null ==> via in w.remotes && !via.destroyed && via.origin == this
      modifies w`remotes, w.remotes, w.publishers`children, w.publishers`remotePublishers
      ensures Inv(w.State())
      ensures made != null <==> old(Refusal()).Done? && backendRoom != b && b.serverName !in old(remotePublishers)
      ensures made == null ==> w.State() == old(w.State()) && w.remotes == old(w.remotes)
      ensures made != null ==> w.remotes == old(w.remotes) + {made}
      ensures old(Refusal()).Raised? ==> outcome == old(Refusal())
      ensures old(Refusal()).Done? && made == null ==>
                (outcome == if backendRoom == b || old(remotePublishers[b.serverName].backendRoom) == b then Done
                            else Raised(AlreadyBackend))
      ensures made != null && outcome.Done? ==>
                fresh(made) && Cascades(old(w.State()), w.State(), this, made, b, via, now)
      ensures made != null && outcome.Raised? ==>
                fresh(made) && FailsToCascade(old(w.State()), w.State(), this, made, b, via, now)
      ensures made != null ==> (
                outcome.Done? <==> b.active && startOk && publishOk
                                   && (if via == null then backendRoom != null
                                       else old(via.backendRoom) != null && old(via.backendRoom).active))
    {
      hide *;
      outcome, made := Refusal(), null;
      if outcome.Raised? {
        return;
      }
      if backendRoom == b {
        return;
      }
      w.StateEntry(this);
      w.NodeEntry(this);
      if b.serverName !in remotePublishers {
        outcome, made := StartRemote(w, b, via, startOk, publishOk, now);
      } else {
        var rp := remotePublishers[b.serverName];
        RegisteredReady(w.State(), this, b.serverName);
        w.RemoteEntry(rp);
        outcome := rp.Start(w, b, startOk);
        w.StateEntry(this);
      }
    }

    /** Asks every subscription of this publisher to pause. */
    method KickAllSubscriptions(ghost w: World)
      requires subscriptions <= w.subscribers
      modifies w.subscribers`kicked
      ensures forall s :: s in subscriptions ==> s.kicked
    {
      var pending := subscriptions;
      while pending != {}
        invariant pending <= subscriptions && forall s :: s in subscriptions - pending ==> s.kicked
        decreases |pending|
      {
        var subscriber :| subscriber in pending;
        subscriber.Kick();
        pending := pending - {subscriber};
      }
    }

    method AddSubscription(ghost w: World, s: Subscriber)
      requires this in w.publishers
      modifies this`subscriptions
      ensures subscriptions == old(subscriptions) + {s}
      ensures w.Links() == old(w.Links()).(pubs := old(w.Links()).pubs[this := PublisherLinks(subscribers,
                old(subscriptions) + {s})])
    {
      subscriptions := subscriptions + {s};
    }

    method DelSubscription(ghost w: World, s: Subscriber)
      requires this in w.publishers
      modifies this`subscriptions
      ensures w.Links() == old(w.Links()).(pubs := old(w.Links()).pubs[this := PublisherLinks(subscribers,
                old(subscriptions) - {s})])
    {
      subscriptions := subscriptions - {s};
    }

    method OnChildDestroy(rp: RemotePublisher)
      requires destroyed || !webrtcStarted ==> children == {}
      modifies this`children
      ensures Node() == old(Node()).(children := old(children) - {rp})
    {
      if destroyed || !webrtcStarted || rp !in children {
        return;
      }
      children := children - {rp};
    }

    method OnRpDestroy(rp: RemotePublisher)
      requires destroyed ==> remotePublishers == map[]
      modifies this`remotePublishers
      ensures Node() == old(Node()).(remotes := old(remotePublishers) - {rp.remoteId})
    {
      if destroyed {
        return;
      }
      remotePublishers := remotePublishers - {rp.remoteId};
    }
  }

  class RemotePublisher {
    const remoteId: string
    var origin: Publisher?
    var backendRoom: BackendRoom?
    var destroyed: bool
    var parent: Parent
    var children: set<RemotePublisher>
    var subscribers: set<Subscriber>
    var idleTs: int
    ghost var depth: nat

    ghost function Node(): RemoteNode
      reads this
    {
      RemoteNode(remoteId, origin, backendRoom, destroyed, parent, children, subscribers,
                 if destroyed then 0 else idleTs, depth)
    }

    constructor (p: Publisher, name: string, now: Time, ghost d: nat)
      ensures Node() == NewNode(p, name, null, now, d) && remoteId == name
      ensures !destroyed && backendRoom == null && children == {} && parent == NoParent
    {
      remoteId, origin, backendRoom, destroyed, parent := name, p, null, false, NoParent;
      children, subscribers, idleTs, depth := {}, {}, now, d;
    }

    /** Creates this remote publisher on backend room `b`; a second start on the same one changes nothing. */
    method Start(ghost w: World, b: BackendRoom, startOk: bool) returns (outcome: Outcome)
      requires this in w.remotes
      modifies this`backendRoom
      ensures outcome ==
                if destroyed then Raised(AlreadyDestroyed)
                else if old(backendRoom) != null then (if old(backendRoom) == b then Done else Raised(AlreadyBackend))
                else if !b.active then Raised(BadGateway)
                else if !startOk then Raised(BackendError) else Done
      ensures backendRoom == if outcome.Done? then b else old(backendRoom)
      ensures w.Trees() == old(w.Trees()).(rems := old(w.Trees()).rems[this := Node()])
    {
      if destroyed {
        return Raised(AlreadyDestroyed);
      }
      if backendRoom != null {
        return if backendRoom != b then Raised(AlreadyBackend) else Done;
      }
      if !b.active {
        return Raised(BadGateway);
      }
      if !startOk {
        return Raised(BackendError);
      }
      backendRoom := b;
      return Done;
    }

    /** Forwards the media of this remote publisher to `rp`. A refused request leaves `rp` linked. */
    method AddChild(ghost w: World, rp: RemotePublisher, publishOk: bool) returns (outcome: Outcome)
      requires this in w.remotes && rp in w.remotes && rp != this
      modifies this`children, this`idleTs, rp`parent
      ensures outcome ==
                if destroyed then Raised(AlreadyDestroyed)
                else if backendRoom == null then Raised(JoinFirst)
                else if rp in old(children) then Done
                else if !backendRoom.active then Raised(BadGateway)
                else if !publishOk then Raised(BackendError) else Done
      ensures w.Trees() == if !destroyed && backendRoom != null && rp !in old(children) && backendRoom.active
                           then Hung(old(w.Trees()), rp, UnderRemote(this)) else old(w.Trees())
    {
      if destroyed {
        return Raised(AlreadyDestroyed);
      }
      if backendRoom == null {
        return Raised(JoinFirst);
      }
      if rp in children {
        return Done;
      }
      if !backendRoom.active {
        return Raised(BadGateway);
      }
      Adopt(w, rp);
      return if publishOk then Done else Raised(BackendError);
    }

    method Adopt(ghost w: World, rp: RemotePublisher)
      requires this in w.remotes && rp in w.remotes && rp != this
      modifies this`children, this`idleTs, rp`parent
      ensures w.Trees() == Hung(old(w.Trees()), rp, UnderRemote(this))
    {
      hide *;
      w.RemoteEntry(this);
      w.RemoteEntry(rp);
      HungUnderRemote(w.Trees(), rp, this);
      Use(w, children + {rp});
      rp.SetParent(w, UnderRemote(this));
    }

    method Use(ghost w: World, cs: set<RemotePublisher>)
      requires this in w.remotes
      modifies this`children, this`idleTs
      ensures children == cs && idleTs == 0
      ensures w.Trees() == old(w.Trees()).(rems := old(w.Trees()).rems[this :=
                RemoteNode(remoteId, origin, backendRoom, destroyed, parent, cs, subscribers, 0, depth)])
    {
      children := cs;
      idleTs := 0;
    }

    method SetParent(ghost w: World, p: Parent)
      requires this in w.remotes
      modifies this`parent
      ensures w.Trees() == WithParent(old(w.Trees()), this, p)
    {
      parent := p;
    }

    method AddSubscriber(ghost w: World, s: Subscriber)
      requires this in w.remotes && !destroyed
      modifies this`subscribers, this`idleTs
      ensures w.Trees() == old(w.Trees()).(rems := old(w.Trees().rems)[this :=
                old(Node()).(subscribers := old(subscribers) + {s}, idleTs := 0)])
      ensures w.Links() == old(w.Links())
    {
      subscribers := subscribers + {s};
      idleTs := 0;
    }

    method DelSubscriber(ghost w: World, s: Subscriber, now: Time)
      requires this in w.remotes && !destroyed
      modifies this`subscribers, this`idleTs
      ensures w.Trees() == old(w.Trees()).(rems := old(w.Trees().rems)[this := WithoutWatcher(old(Node()), s, now)])
      ensures w.Links() == old(w.Links())
    {
      subscribers := subscribers - {s};
      var _ := CheckIdle(now);
    }

    method CheckIdle(now: Time) returns (idle: bool)
      modifies this`idleTs
      ensures idle <==> children == {} && subscribers == {}
      ensures idleTs == IdleTs(!idle, old(idleTs), now)
    {
      if children == {} && subscribers == {} {
        if idleTs == 0 {
          idleTs := now;
        }
        return true;
      } else {
        idleTs := 0;
        return false;
      }
    }

    method OnChildDestroy(rp: RemotePublisher, now: Time)
      requires destroyed ==> children == {}
      requires children != {} ==> backendRoom != null
      modifies this`children, this`idleTs
      ensures Node() == ForgetRemote(old(Node()), {rp}, now)
    {
      if destroyed || rp !in children {
        return;
      }
      assert !(children !! {rp});
      children := children - {rp};
      var _ := CheckIdle(now);
    }

    /** Calls back the parent that this node had, if any. */
    method NotifyParent(ghost w: World, p: Parent, now: Time)
      requires this in w.remotes && children == {}
      requires p.UnderPublisher? ==> p.publisher in w.publishers
      requires p.UnderPublisher? && (p.publisher.destroyed || !p.publisher.webrtcStarted) ==> p.publisher.children == {}
      requires p.UnderRemote? ==> p.remote in w.remotes && (p.remote.destroyed ==> p.remote.children == {})
                                  && (p.remote.children != {} ==> p.remote.backendRoom != null)
      modifies w.remotes`children, w.remotes`idleTs, w.publishers`children
      ensures Node() == old(Node())
      ensures forall x :: x in w.remotes && x != this ==>
                x.Node() == if p == UnderRemote(x) then ForgetRemote(old(x.Node()), {this}, now) else old(x.Node())
      ensures forall x :: x in w.publishers ==>
                x.children == if p == UnderPublisher(x) then old(x.children) - {this} else old(x.children)
    {
      match p {
        case NoParent =>
        case UnderPublisher(publisher) => publisher.OnChildDestroy(this);
        case UnderRemote(remote) => remote.OnChildDestroy(this, now);
      }
    }

    method MarkDestroyed() returns (pending: set<RemotePublisher>, p: Parent)
      requires !destroyed
      modifies this
      ensures pending == old(children) && p == old(parent) && origin == old(origin)
      ensures Node() == ClearedRemote(old(Node())).(origin := origin)
    {
      destroyed := true;
      subscribers := {};
      pending := children;
      children := {};
      p := parent;
      parent := NoParent;
      backendRoom := null;
    }

    method NotifyOrigin(ghost w: World)
      requires origin != null ==> origin in w.publishers && (origin.destroyed ==> origin.remotePublishers == map[])
      modifies this`origin, w.publishers`remotePublishers
      ensures origin == null
      ensures forall p :: p in w.publishers ==>
                p.remotePublishers == if old(origin) == p then old(p.remotePublishers) - {remoteId}
                  else old(p.remotePublishers)
    {
      if origin != null {
        origin.OnRpDestroy(this);
        origin := null;
      }
    }

    /** First half of `destroy`: marks this node destroyed and takes it out of every link.
        The children it had are left for the caller to destroy. */
    method Unlink(ghost w: World, now: Time) returns (pending: set<RemotePublisher>)
      requires this in w.remotes && !destroyed
      requires parent.UnderPublisher? ==> parent.publisher in w.publishers
      requires parent.UnderPublisher? && (parent.publisher.destroyed || !parent.publisher.webrtcStarted)
               ==> parent.publisher.children == {}
      requires parent.UnderRemote? ==>
                parent.remote in w.remotes && (parent.remote.destroyed ==> parent.remote.children == {})
                                       && (parent.remote.children != {} ==> parent.remote.backendRoom != null)
      requires origin != null ==> origin in w.publishers && (origin.destroyed ==> origin.remotePublishers == map[])
      modifies w.remotes, w.publishers`children, w.publishers`remotePublishers
      ensures pending == old(children)
      ensures Node() == ClearedRemote(old(Node()))
      ensures forall x :: x in w.remotes && x != this ==>
                x.Node() == if old(parent) == UnderRemote(x) then ForgetRemote(old(x.Node()), {this}, now)
                  else old(x.Node())
      ensures forall p :: p in w.publishers ==>
                p.Node() == DropNode(old(p.Node()), this, old(parent) == UnderPublisher(p), old(origin) == p, remoteId)
    {
      hide ForgetRemote;
      var p;
      pending, p := MarkDestroyed();
      NotifyParent(w, p, now);
      NotifyOrigin(w);
    }

    /** The first half of `destroy`, seen on the whole forest. */
    method Leave(ghost w: World, now: Time) returns (pending: set<RemotePublisher>)
      requires this in w.remotes && !destroyed && TreeShape(w.Trees())
      modifies w.remotes, w.publishers`children, w.publishers`remotePublishers
      ensures pending == old(children)
      ensures w.Trees() == Unlinked(old(w.Trees()), this, now)
    {
      hide TreeShape, DropNode, ForgetRemote, ClearedRemote;
      ghost var g := w.Trees();
      assert g.rems[this] == Node();
      CallbacksAreSafe(g, this);
      pending := Unlink(w, now);
      assert w.Trees().rems == Unlinked(g, this, now).rems;
      assert w.Trees().pubs == Unlinked(g, this, now).pubs;
    }

    /** In the invariant the idle timestamp is already what `_check_idle` would make it. */
    method CheckSettled(ghost w: World, now: Time) returns (idle: bool)
      requires this in w.remotes && !destroyed && (idleTs == 0 <==> children != {} || subscribers != {})
      modifies this`idleTs
      ensures idle <==> children == {} && subscribers == {}
      ensures idleTs == old(idleTs) && w.State() == old(w.State()) && w.Trees() == old(w.Trees())
    {
      hide w.State, w.Trees, Inv, TreeInv;
      idle := CheckIdle(now);
      assert idleTs == old(idleTs);
    }

    /** One round of `_idle_check_routine`: reaps this remote publisher exactly if nobody uses it and its
        idle period is longer than the timeout. */
    method IdleCheck(ghost w: World, now: Time) returns (reaped: bool)
      requires this in w.remotes && Inv(w.State())
      modifies w.remotes, w.publishers`children, w.publishers`remotePublishers
      ensures Inv(w.State())
      ensures reaped <==> !old(destroyed) && old(children) == {} && old(subscribers) == {}
                          && now - old(idleTs) > REMOTE_IDLE_TIMEOUT
      ensures reaped ==> destroyed && origin == null && parent == NoParent
      ensures w.State() == if reaped then old(w.State()).(trees := TearDown(old(w.Trees()), {this}, {this}, now))
                           else old(w.State())
    {
      hide *;
      if destroyed {
        return false;
      }
      ghost var st := w.State();
      w.RemoteEntry(this);
      RemoteReady(st, this);
      if backendRoom == null {
        assert false;
      }
      var idle := CheckSettled(w, now);
      if idle && now - idleTs > REMOTE_IDLE_TIMEOUT {
        ghost var gone := Destroy(w, now);
        LeafDown(st, this, gone, now);
        SubtreeDownKeepsInv(st, this, gone, now);
        DownFields(st.trees, this, now);
        w.RemoteEntry(this);
        return true;
      }
      return false;
    }

    /** Tears down this remote publisher and everything it forwards to. */
    method Destroy(ghost w: World, now: Time) returns (ghost gone: set<RemotePublisher>)
      requires this in w.remotes && TreeShape(w.Trees())
      modifies w.remotes, w.publishers`children, w.publishers`remotePublishers
      ensures TreeShape(w.Trees())
      ensures old(destroyed) ==> gone == {} && w.Trees() == old(w.Trees())
      ensures !old(destroyed) ==> IsSubtree(old(w.Trees()), {this}, gone)
      ensures !old(destroyed) ==> w.Trees() == TearDown(old(w.Trees()), {this}, gone, now)
      decreases Alive(w.Trees()), 0
    {
      hide TreeShape, IsSubtree, TearDown, Orphans, Alive, Unlinked;
      if destroyed {
        return {};
      }
      ghost var g := w.Trees();
      assert g.rems[this] == Node();
      var pending := Leave(w, now);
      UnlinkedIsTearDown(g, this, now);
      TearDownShape(g, {this}, {this}, now);
      NodeLeaves(g, this, now);
      ChildrenBecomeOrphans(g, this, now);
      ghost var below := DestroyChildren(w, pending, now);
      NodeThenChildren(g, this, below, now);
      gone := {this} + below;
    }
  }

  /** The loop over the children, shared by the three teardowns: each is orphaned and destroyed. */
  method DestroyChildren(ghost w: World, children: set<RemotePublisher>, now: Time)
    returns (ghost gone: set<RemotePublisher>)
    requires TreeShape(w.Trees()) && Orphans(w.Trees(), children)
    modifies w.remotes, w.publishers`children, w.publishers`remotePublishers
    ensures TreeShape(w.Trees())
    ensures IsSubtree(old(w.Trees()), children, gone)
    ensures w.Trees() == TearDown(old(w.Trees()), {}, gone, now)
    decreases Alive(w.Trees()), 1
  {
    hide TreeShape, IsSubtree, TearDown, Orphans, Alive;
    gone := {};
    ghost var g, done := w.Trees(), {};
    TearDownNothing(g, now);
    var pending := children;
    while pending != {}
      invariant done + pending == children
      invariant TreeShape(w.Trees()) && Orphans(w.Trees(), pending)
      invariant IsSubtree(g, done, gone) && gone <= Alive(g)
      invariant w.Trees() == TearDown(g, {}, gone, now)
      decreases |pending|
    {
      var child :| child in pending;
      ghost var h := w.Trees();
      OneOrphan(g, gone, pending, child, now);
      assert h.rems[child] == child.Node();
      DetachedShape(h, pending, child);
      child.SetParent(w, NoParent);
      ghost var below := child.Destroy(w, now);
      OrphansLeft(h, pending, child, below, now);
      SubtreesJoin(g, done, gone, child, below, now);
      TearDownOrphan(g, gone, child, below, now);
      pending := pending - {child};
      done := done + {child};
      gone := gone + below;
    }
    assert done == children;
  }

  class Subscriber {
    const cascadeEnabled: bool
    var destroyed: bool
    var kicked: bool
    var hasHandle: bool
    var room: VideoRoom?
    var backendRoom: BackendRoom?
    var feeds: map<int, Publisher>
    var dataFeedIds: set<int>
    var mediaFeedIds: set<int>
    var owner: Publisher?

    ghost function Links(): SubscriberLinks
      reads this`destroyed, this`room, this`backendRoom, this`feeds, this`owner
    {
      SubscriberLinks(destroyed, room, backendRoom, feeds, owner)
    }

    method OnFeedHangup(ghost w: World, p: Publisher)
      requires this in w.subscribers
      modifies this`dataFeedIds, this`mediaFeedIds, this`feeds
      ensures w.Links() == WithSubscriber(old(w.Links()), this,
                             SubscriberLinks(destroyed, room, backendRoom, old(feeds) - {p.userId}, owner))
      ensures dataFeedIds == old(dataFeedIds) - {p.userId} && mediaFeedIds == old(mediaFeedIds) - {p.userId}
    {
      dataFeedIds := dataFeedIds - {p.userId};
      mediaFeedIds := mediaFeedIds - {p.userId};
      feeds := feeds - {p.userId};
    }

    method OnOwnerDestroy(ghost w: World, p: Publisher)
      requires this in w.subscribers
      modifies this`owner
      ensures w.Links() == WithSubscriber(old(w.Links()), this,
                             SubscriberLinks(destroyed, room, backendRoom, feeds, if old(owner) == p then null
                               else old(owner)))
    {
      if owner == p {
        owner := null;
      }
    }

    constructor (o: Publisher?, cascade: bool)
      ensures !hasHandle
      ensures Links() == SubscriberLinks(false, null, null, map[], o) && cascadeEnabled == cascade
      ensures !destroyed && room == null && owner == o
    {
      cascadeEnabled, destroyed, kicked, hasHandle := cascade, false, false, false;
      room, backendRoom, owner := null, null, o;
      feeds, dataFeedIds, mediaFeedIds := map[], {}, {};
    }

    method Kick()
      modifies this`kicked
      ensures kicked
    {
      kicked := true;
    }

    method SetFeeds(ghost w: World, f: map<int, Publisher>)
      requires this in w.subscribers
      modifies this`feeds
      ensures feeds == f
      ensures w.Links() == WithSubscriber(old(w.Links()), this, SubscriberLinks(destroyed, room, backendRoom, f, owner))
    {
      feeds := f;
    }

    method MarkDestroyed(ghost w: World) returns (publisher: Publisher?)
      requires this in w.subscribers
      modifies this`destroyed, this`room, this`owner
      ensures destroyed && room == null && owner == null && publisher == old(owner)
      ensures w.Links() == WithSubscriber(old(w.Links()), this, SubscriberLinks(true, null, backendRoom, feeds, null))
    {
      destroyed := true;
      room := null;
      publisher := owner;
      owner := null;
    }

    method LeaveOwner(ghost w: World)
      requires this in w.subscribers && !destroyed && (owner != null ==> owner in w.publishers)
      modifies this`destroyed, this`room, this`owner, w.publishers`subscriptions
      ensures destroyed && room == null && owner == null
      ensures w.Links() == OwnerLeft(old(w.Links()), this) && w.Trees() == old(w.Trees()) && w.Index() == old(w.Index())
    {
      hide *;
      w.SubscriberEntry(this);
      w.KnownPublishers();
      OwnerLeftInSteps(w.Links(), this);
      if owner != null { w.PublisherEntry(owner); }
      var publisher := MarkDestroyed(w);
      if publisher != null {
        publisher.DelSubscription(w, this);
      }
    }

    method Clear(ghost w: World)
      requires this in w.subscribers && destroyed && room == null && owner == null
      modifies this`feeds, this`dataFeedIds, this`mediaFeedIds, this`backendRoom, this`hasHandle
      ensures w.Links() == WithSubscriber(old(w.Links()), this, SubscriberLinks(true, null, null, map[], null))
    {
      hide *;
      feeds, dataFeedIds, mediaFeedIds := map[], {}, {};
      backendRoom := null;
      hasHandle := false;
      w.OneSubscriberChanged(this);
      w.SubscriberEntry(this);
      WithSubscriberIs(old(w.Links()), this, SubscriberLinks(true, null, null, map[], null));
    }

    method LeaveAll(ghost w: World, now: Time)
      requires this in w.subscribers && !destroyed && (owner != null ==> owner in w.publishers)
                && feeds.Values <= w.publishers
      requires TreeInv(w.Trees()) && WatchInv(w.Trees(), w.Links())
      modifies this`destroyed, this`room, this`owner, w.publishers`subscriptions
      modifies w.publishers`subscribers, w.remotes`subscribers, w.remotes`idleTs
      ensures destroyed && room == null && owner == null && w.Index() == old(w.Index())
      ensures w.Trees() == Unwatched(old(w.Trees()), this, feeds.Values, now)
      ensures w.Links() == Unsubscribed(OwnerLeft(old(w.Links()), this), this, feeds.Values, feeds)
    {
      hide *;
      w.SubscriberEntry(this);
      OwnerLeftKeepsWatch(w.Trees(), w.Links(), this);
      LeaveOwner(w);
      Unsubscribe(w, feeds.Values, now);
    }

    /** Leaves the owner and every watched publisher. */
    method Destroy(ghost w: World, now: Time)
      requires this in w.subscribers && Inv(w.State())
      modifies this`destroyed, this`room, this`owner, this`feeds, this`dataFeedIds, this`mediaFeedIds, this`backendRoom
      modifies this`hasHandle
      modifies w.publishers`subscriptions, w.publishers`subscribers, w.remotes`subscribers, w.remotes`idleTs
      ensures destroyed
      ensures Inv(w.State()) && w.State() == SubscriberDestroyed(old(w.State()), this, now)
    {
      hide *;
      ghost var st := w.State();
      w.SubscriberState(this);
      SubscriberDestroyedKeepsInv(st, this, now);
      SubscriberDestroyedIs(st, this, now);
      if destroyed {
        return;
      }
      InvFeeds(st);
      InvTrees(st);
      SubscriberGoneInSteps(st.links, this);
      LeaveAll(w, now);
      Clear(w);
      w.SubscriberState(this);
    }

    /** `destroy` of a subscriber that is alive. */
    method DestroyNew(ghost w: World, now: Time)
      requires this in w.subscribers && Inv(w.State()) && !destroyed
      modifies this`destroyed, this`room, this`owner, this`feeds, this`dataFeedIds, this`mediaFeedIds, this`backendRoom
      modifies this`hasHandle
      modifies w.publishers`subscriptions, w.publishers`subscribers, w.remotes`subscribers, w.remotes`idleTs
      ensures this in old(w.Links()).subs && Inv(w.State()) && w.Links() == SubscriberGone(old(w.Links()), this)
    {
      hide *;
      w.SubscriberState(this);
      SubscriberDestroyedIs(w.State(), this, now);
      Destroy(w, now);
      w.SubscriberState(this);
    }

    /** The backend handle is closed: the subscriber is destroyed. */
    method OnClose(ghost w: World, now: Time)
      requires this in w.subscribers && Inv(w.State())
      modifies this`destroyed, this`room, this`owner, this`feeds, this`dataFeedIds, this`mediaFeedIds, this`backendRoom
      modifies this`hasHandle
      modifies w.publishers`subscriptions, w.publishers`subscribers, w.remotes`subscribers, w.remotes`idleTs
      ensures Inv(w.State()) && w.State() == SubscriberDestroyed(old(w.State()), this, now)
    {
      hide *;
      if destroyed {
        w.SubscriberState(this);
        SubscriberDestroyedIs(w.State(), this, now);
        return;
      }
      hasHandle := false;
      Destroy(w, now);
    }

    method UnsubscribeAndKeep(ghost w: World, ps: set<Publisher>, f: map<int, Publisher>, now: Time)
      requires this in w.subscribers && ps <= w.publishers && TreeInv(w.Trees()) && WatchInv(w.Trees(), w.Links())
      modifies this`feeds, w.publishers`subscribers, w.remotes`subscribers, w.remotes`idleTs
      ensures feeds == f && w.Index() == old(w.Index())
      ensures w.Trees() == Unwatched(old(w.Trees()), this, ps, now)
      ensures w.Links() == Unsubscribed(old(w.Links()), this, ps, f)
    {
      hide *;
      w.SubscriberEntry(this);
      FeedsSet(w.Links(), this, ps, f);
      Unsubscribe(w, ps, now);
      SetFeeds(w, f);
    }

    method ForgetFeeds(ghost w: World, now: Time)
      requires this in w.subscribers && feeds.Values <= w.publishers && TreeInv(w.Trees())
      requires WatchInv(w.Trees(), w.Links())
      modifies this`feeds, this`dataFeedIds, this`mediaFeedIds, w.publishers`subscribers, w.remotes`subscribers
      modifies w.remotes`idleTs
      ensures feeds == map[] && dataFeedIds == mediaFeedIds == {} && w.Index() == old(w.Index())
      ensures w.Trees() == Unwatched(old(w.Trees()), this, old(feeds).Values, now)
      ensures w.Links() == Unsubscribed(old(w.Links()), this, old(feeds).Values, map[])
    {
      hide *;
      dataFeedIds, mediaFeedIds := {}, {};
      UnsubscribeAndKeep(w, feeds.Values, map[], now);
    }

    method SubscribeAndKeep(ghost w: World, ps: set<Publisher>, f: map<int, Publisher>)
      requires this in w.subscribers && ps <= w.publishers && TreeInv(w.Trees()) && WatchInv(w.Trees(), w.Links())
      modifies this`feeds, w.publishers`subscribers, w.remotes`subscribers, w.remotes`idleTs
      ensures feeds == f && w.Index() == old(w.Index())
      ensures w.Trees() == Watched(old(w.Trees()), this, backendRoom, ps)
      ensures w.Links() == Subscribed(old(w.Links()), this, ps, f)
    {
      hide *;
      w.SubscriberEntry(this);
      FeedsSet(w.Links(), this, ps, f);
      Subscribe(w, ps);
      SetFeeds(w, f);
    }

    /** `_sync_feeds`. `roomGone` says that the room object itself is gone (the weak reference is dead). */
    method SyncFeeds(ghost w: World, roomGone: bool, now: Time)
      requires this in w.subscribers && Inv(w.State()) && !destroyed && room != null
      modifies this`feeds, w.publishers`subscribers, w.remotes`subscribers, w.remotes`idleTs
      ensures Inv(w.State()) && w.Index() == old(w.Index())
      ensures feeds == if roomGone then old(feeds)
                else SyncedFeeds(old(feeds), dataFeedIds + mediaFeedIds, room.participants)
      ensures this in old(w.State()).links.subs && old(w.State()).links.subs[this].room in old(w.State()).index.rooms
      ensures w.State() == if roomGone then old(w.State())
                           else SyncedState(old(w.State()), this, dataFeedIds + mediaFeedIds, now)
    {
      hide *;
      var current := dataFeedIds + mediaFeedIds;
      SyncedInSteps(feeds, current, room.participants);
      w.SubscriberState(this);
      RoomKnown(w.State(), this);
      w.RoomEntry(room);
      SyncedStateIs(w.State(), this, current, now);
      if roomGone || current == feeds.Keys {
        return;
      }
      var added := current - feeds.Keys;
      DropFeeds(w, feeds.Keys - current, now);
      AddFeeds(w, added);
    }

    /** A backend server described the streams of this subscription. */
    method UpdateStreams(ghost w: World, streams: seq<StreamInfo>, roomGone: bool, now: Time)
      requires this in w.subscribers && Inv(w.State()) && !destroyed && room != null
      modifies this`feeds, this`dataFeedIds, this`mediaFeedIds, w.publishers`subscribers, w.remotes`subscribers
      modifies w.remotes`idleTs
      ensures Inv(w.State()) && w.Index() == old(w.Index())
      ensures dataFeedIds == DataIds(streams) && mediaFeedIds == MediaIds(streams)
      ensures feeds == if roomGone then old(feeds)
                       else SyncedFeeds(old(feeds), DataIds(streams) + MediaIds(streams), room.participants)
      ensures this in old(w.State()).links.subs && old(w.State()).links.subs[this].room in old(w.State()).index.rooms
      ensures w.State() == if roomGone then old(w.State())
                           else SyncedState(old(w.State()), this, DataIds(streams) + MediaIds(streams), now)
      ensures !roomGone && room in w.rooms && !room.destroyed ==>
                feeds == map u | u in DataIds(streams) + MediaIds(streams) && u in room.participants ::
                  room.participants[u]
      ensures !roomGone && room in w.rooms && !room.destroyed ==>
                (forall u :: u in feeds <==> u in room.participants && exists i ::
                   (0 <= i < |streams|
                    && (streams[i] == MediaStream(u) || (streams[i].DataStream? && u in streams[i].sourceIds))))
      ensures !roomGone && room in w.rooms && !room.destroyed ==>
                forall u :: u in feeds ==> feeds[u] == room.participants[u]
      ensures forall u :: u in feeds ==> this in feeds[u].subscribers
    {
      hide *;
      ghost var st := w.State();
      w.SubscriberState(this);
      if room in w.rooms && !room.destroyed {
        w.RoomEntry(room);
        SyncedIsReferenced(st, this, DataIds(streams) + MediaIds(streams));
      }
      CollectIds(streams);
      SyncFeeds(w, roomGone, now);
      if !roomGone && room in w.rooms && !room.destroyed {
        ReferencedAre(streams, room.participants, feeds);
      }
      CountedByFeeds(w);
    }

    /** Every watched publisher counts this subscriber. */
    lemma CountedByFeeds(w: World)
      requires this in w.subscribers && Inv(w.State())
      ensures forall u :: u in feeds ==> this in feeds[u].subscribers && feeds[u] in w.publishers
    {
      hide *;
      w.SubscriberState(this);
      forall u | u in feeds ensures this in feeds[u].subscribers && feeds[u] in w.publishers {
        WatchedCounts(w.State(), this, u);
        w.PublisherEntry(feeds[u]);
      }
    }

    /** The loop of `_update_streams`. */
    method CollectIds(streams: seq<StreamInfo>)
      modifies this`dataFeedIds, this`mediaFeedIds
      ensures dataFeedIds == DataIds(streams) && mediaFeedIds == MediaIds(streams)
    {
      dataFeedIds, mediaFeedIds := {}, {};
      var index := 0;
      while index < |streams|
        invariant index <= |streams|
        invariant dataFeedIds == DataIds(streams[..index]) && mediaFeedIds == MediaIds(streams[..index])
      {
        assert streams[..index + 1][..index] == streams[..index];
        match streams[index] {
          case DataStream(sourceIds) => dataFeedIds := dataFeedIds + sourceIds;
          case MediaStream(feedId) => mediaFeedIds := mediaFeedIds + {feedId};
        }
        index := index + 1;
      }
      assert streams[..index] == streams;
    }

    /** Looks up the requested feeds: `offered` are the publishers to subscribe to. */
    method CheckFeeds(requests: seq<FeedRequest>, present: map<int, Publisher>)
      returns (outcome: Outcome, offered: set<Publisher>)
      ensures outcome == if requests == [] then Raised(MissingElement)
                         else if exists i :: 0 <= i < |requests| && !Servable(requests[i], present)
                           then Raised(NoSuchFeed)
                         else if OfferedBy(requests, present) == {} then Raised(InvalidSdp) else Done
      ensures outcome.Done? ==> offered == OfferedBy(requests, present)
    {
      hide OfferedBy, Offers, HasMid;
      offered := {};
      NoneOffered(present);
      if requests == [] {
        return Raised(MissingElement), {};
      }
      var index := 0;
      while index < |requests|
        invariant index <= |requests| && forall i :: 0 <= i < index ==> Servable(requests[i], present)
        invariant offered == OfferedBy(requests[..index], present)
      {
        var request := requests[index];
        OfferedMore(requests, present, index);
        if request.feed !in present || !present[request.feed].webrtcStarted
           || (request.ByStream? && request.mid != "" && !HasMid(present[request.feed].streams, request.mid)) {
          assert !Servable(request, present);
          return Raised(NoSuchFeed), {};
        }
        if Offers(request, present[request.feed].streams) {
          offered := offered + {present[request.feed]};
        }
        index := index + 1;
      }
      assert requests[..index] == requests;
      outcome := if offered == {} then Raised(InvalidSdp) else Done;
    }

    /** `_cascade_publishers`: makes the publishers `ps` available on backend room `b`. The servers start the remote
        publishers of the publishers in `started` and forward the media of those in `published`. */
    method CascadeAll(ghost w: World, ps: set<Publisher>, b: BackendRoom, started: set<Publisher>,
                      published: set<Publisher>, now: Time)
      returns (outcome: Outcome)
      requires ps <= w.publishers && Inv(w.State())
      modifies w`remotes, w.remotes, w.publishers`children, w.publishers`remotePublishers
      ensures fresh(w.remotes - old(w.remotes))
      ensures Inv(w.State()) && w.Links() == old(w.Links()) && w.Index() == old(w.Index())
      ensures outcome.Done? <==> forall p :: p in ps ==> old(p.CanServe(b, b.active, p in started, p in published))
      ensures outcome.Done? ==> forall p :: p in ps ==> AvailableOn(w.Trees(), w.Index(), p, b)
    {
      hide *;
      ghost var able := set p | p in ps && p.CanServe(b, b.active, p in started, p in published);
      var pending := ps;
      CascadingStarts(w, ps, b, started, published, able);
      while pending != {}
        invariant pending <= ps && fresh(w.remotes - old(w.remotes)) && old(w.remotes) <= w.remotes
        invariant Inv(w.State()) && w.Links() == old(w.Links()) && w.Index() == old(w.Index())
        invariant Cascading(w, ps, pending, b, started, published, able)
        decreases |pending|
      {
        var publisher :| publisher in pending;
        outcome := CascadeNext(w, publisher, b, started, published, now, ps, pending, able);
        if outcome.Raised? {
          return;
        }
        pending := pending - {publisher};
      }
      CascadingEnds(w, ps, b, started, published, able);
      return Done;
    }

    /** In the loop over the cascades: those done so far belong to the `able` ones and are available, and the pending
        ones
        can be served exactly if they belong to them. */
    ghost predicate Cascading(w: World, ps: set<Publisher>, pending: set<Publisher>, b: BackendRoom,
                              started: set<Publisher>, published: set<Publisher>, able: set<Publisher>)
      reads *
    {
      && ps - pending <= able && (forall p :: p in ps - pending ==> AvailableOn(w.Trees(), w.Index(), p, b))
      && (forall p :: p in pending ==> (p.CanServe(b, b.active, p in started, p in published) <==> p in able))
    }

    lemma CascadingStarts(w: World, ps: set<Publisher>, b: BackendRoom, started: set<Publisher>,
                          published: set<Publisher>, able: set<Publisher>)
      requires able == set p | p in ps && p.CanServe(b, b.active, p in started, p in published)
      ensures Cascading(w, ps, ps, b, started, published, able)
    {
      hide Publisher.CanServe;
    }

    lemma CascadingEnds(w: World, ps: set<Publisher>, b: BackendRoom, started: set<Publisher>,
                        published: set<Publisher>, able: set<Publisher>)
      requires Cascading(w, ps, {}, b, started, published, able)
      ensures ps <= able && forall p :: p in ps ==> AvailableOn(w.Trees(), w.Index(), p, b)
    {
      hide AvailableOn;
      assert ps - {} == ps;
    }

    /** One cascade of the loop. */
    method CascadeNext(ghost w: World, p: Publisher, b: BackendRoom, started: set<Publisher>, published: set<Publisher>,
                       now: Time, ghost ps: set<Publisher>, ghost pending: set<Publisher>, ghost able: set<Publisher>)
      returns (outcome: Outcome)
      requires p in pending && pending <= ps <= w.publishers && Inv(w.State())
      requires Cascading(w, ps, pending, b, started, published, able)
      modifies w`remotes, w.remotes, w.publishers`children, w.publishers`remotePublishers
      ensures fresh(w.remotes - old(w.remotes)) && old(w.remotes) <= w.remotes
      ensures Inv(w.State()) && w.Links() == old(w.Links()) && w.Index() == old(w.Index())
      ensures outcome.Done? <==> p in able
      ensures outcome.Done? ==> Cascading(w, ps, pending - {p}, b, started, published, able)
    {
      hide Inv, AvailableOn, World.State, World.Trees, World.Links, World.Index, Publisher.CanServe;
      w.AllRegistered();
      outcome := CascadeOne(w, p, b, p in started, p in published, now, ps - pending);
      forall q | q in pending - {p} ensures q.CanServe(b, b.active, q in started, q in published) <==> q in able {
        q.SameRegistry(b);
      }
      assert ps - (pending - {p}) == ps - pending + {p};
    }

    method CascadeOne(ghost w: World, p: Publisher, b: BackendRoom, startOk: bool, publishOk: bool, now: Time,
                      ghost done: set<Publisher>)
      returns (outcome: Outcome)
      requires p in w.publishers && Inv(w.State())
      requires forall q :: q in done ==> AvailableOn(w.Trees(), w.Index(), q, b)
      modifies w`remotes, w.remotes, w.publishers`children, w.publishers`remotePublishers
      ensures fresh(w.remotes - old(w.remotes)) && old(w.remotes) <= w.remotes
      ensures Inv(w.State()) && w.Links() == old(w.Links()) && w.Index() == old(w.Index())
      ensures forall q :: q in done || (outcome.Done? && q == p) ==> AvailableOn(w.Trees(), w.Index(), q, b)
      ensures outcome.Done? <==> old(p.CanServe(b, b.active, startOk, publishOk))
      ensures forall q :: q in w.publishers && q != p ==> q.remotePublishers == old(q.remotePublishers)
      ensures forall x :: x in old(w.remotes) ==> x.backendRoom == old(x.backendRoom)
    {
      hide *;
      ghost var st := w.State();
      w.AvailableAlready(p, b);
      w.StateEntry(p);
      ghost var made;
      outcome, made := CascadeKeeping(w, p, b, startOk, publishOk, now);
      w.StateEntry(p);
      if made != null {
        forall q | q in done || (outcome.Done? && q == p) ensures AvailableOn(w.Trees(), w.Index(), q, b) {
          CascadeKeepsOthers(st, w.State(), p, made, b, now, q);
        }
      }
    }

    /** A cascade leaves the other publishers, and the remote publishers that were there, where they were. */
    method CascadeKeeping(ghost w: World, p: Publisher, b: BackendRoom, startOk: bool, publishOk: bool, now: Time)
      returns (outcome: Outcome, ghost made: RemotePublisher?)
      requires p in w.publishers && Inv(w.State())
      modifies w`remotes, w.remotes, w.publishers`children, w.publishers`remotePublishers
      ensures fresh(w.remotes - old(w.remotes)) && old(w.remotes) <= w.remotes && Inv(w.State())
      ensures made == null ==> w.State() == old(w.State())
      ensures made == null && outcome.Done? ==> p.backendRoom == b || (b.serverName in old(p.remotePublishers)
                                                  && old(p.remotePublishers[b.serverName].backendRoom) == b)
      ensures made != null && outcome.Done? ==> Cascades(old(w.State()), w.State(), p, made, b, null, now)
      ensures made != null && outcome.Raised? ==> FailsToCascade(old(w.State()), w.State(), p, made, b, null, now)
      ensures outcome.Done? <==> old(p.CanServe(b, b.active, startOk, publishOk))
      ensures forall q :: q in w.publishers && q != p ==> q.remotePublishers == old(q.remotePublishers)
      ensures forall x :: x in old(w.remotes) ==> x.backendRoom == old(x.backendRoom)
    {
      hide *;
      ghost var st := w.State();
      w.StateEntry(p);
      w.AllNodes();
      p.CanServeIs(b, b.active, startOk, publishOk);
      outcome, made := p.Cascade(w, b, null, startOk, publishOk, now);
      w.StateEntry(p);
      w.AllNodes();
      if made != null {
        CascadeKeepsNodes(st, w.State(), p, made, b, now);
      }
    }

    /** The backend room to join: `b` in cascade mode, after cascading to it, else the publisher's own. */
    method ChooseServer(ghost w: World, ps: set<Publisher>, b: BackendRoom?, started: set<Publisher>,
                        published: set<Publisher>, now: Time)
      returns (outcome: Outcome, chosen: BackendRoom?)
      requires ps != {} && ps <= w.publishers && Inv(w.State())
      modifies w`remotes, w.remotes, w.publishers`children, w.publishers`remotePublishers
      ensures fresh(w.remotes - old(w.remotes))
      ensures Inv(w.State()) && w.Links() == old(w.Links()) && w.Index() == old(w.Index())
      ensures outcome.Done? ==> chosen != null && forall p :: p in ps ==> AvailableOn(w.Trees(), w.Index(), p, chosen)
      ensures outcome.Done? <==>
                (if cascadeEnabled
                 then b != null && forall p :: p in ps ==> old(p.CanServe(b, b.active, p in started, p in published))
                 else |ps| == 1 && forall p :: p in ps ==> p.backendRoom != null)
      ensures outcome.Done? <==> old(JoinFits(cascadeEnabled, ps, b, started, published))
      ensures cascadeEnabled ==> chosen == b && (b == null ==> outcome == Raised(BadGateway))
      ensures !cascadeEnabled && |ps| > 1 ==> outcome == Raised(InvalidRequest)
    {
      hide *;
      JoinFitsIs(cascadeEnabled, ps, b, started, published);
      chosen := b;
      if cascadeEnabled {
        if b == null {
          return Raised(BadGateway), null;
        }
        outcome := CascadeAll(w, ps, b, started, published, now);
      } else {
        if |ps| > 1 {
          return Raised(InvalidRequest), null;
        }
        var publisher :| publisher in ps;
        assert |ps - {publisher}| == 0;
        chosen := publisher.backendRoom;
        if chosen == null {
          return Raised(NoSuchFeed), null;
        }
        outcome := Done;
        w.AvailableAlready(publisher, chosen);
      }
    }

    method Enter(ghost w: World, target: VideoRoom, b: BackendRoom)
      requires this in w.subscribers
      modifies this`room, this`backendRoom, this`hasHandle
      ensures room == target && backendRoom == b
      ensures w.Links() == WithSubscriber(old(w.Links()), this, SubscriberLinks(destroyed, target, b, feeds, owner))
    {
      hasHandle, backendRoom, room := true, b, target;
    }

    /** Joins room `target` and watches the feeds the backend server reports in `reply`. The subscriber's links
        change only if every requested feed was found, made available and joined. */
    method Join(ghost w: World, target: VideoRoom, b: BackendRoom?, requests: seq<FeedRequest>,
                started: set<Publisher>, published: set<Publisher>, joinOk: bool, reply: seq<StreamInfo>, now: Time)
      returns (outcome: Outcome, offered: set<Publisher>)
      requires this in w.subscribers && target in w.rooms && Inv(w.State())
      modifies this`room, this`backendRoom, this`hasHandle, this`feeds, this`dataFeedIds, this`mediaFeedIds
      modifies w`remotes, w.remotes, w.publishers`children, w.publishers`remotePublishers, w.publishers`subscribers
      ensures fresh(w.remotes - old(w.remotes)) && Inv(w.State()) && w.Index() == old(w.Index())
      ensures outcome.Done? <==>
                && !destroyed && old(room) == null && !old(hasHandle) && joinOk && requests != []
                && (forall i :: 0 <= i < |requests| ==> Servable(requests[i], target.participants))
                && OfferedBy(requests, target.participants) != {}
                && old(JoinFits(cascadeEnabled, OfferedBy(requests, target.participants), b, started, published))
      ensures !destroyed && old(room) == null && old(hasHandle) ==> outcome == Raised(AlreadyBackend)
      ensures !destroyed && old(room) == null && !old(hasHandle) ==>
                && (requests == [] ==> outcome == Raised(MissingElement))
                && ((exists i :: 0 <= i < |requests| && !Servable(requests[i], target.participants)) ==>
                      outcome == Raised(NoSuchFeed))
      ensures outcome.Raised? ==> w.Links() == old(w.Links())
      ensures destroyed ==> outcome == Raised(AlreadyDestroyed)
      ensures !destroyed && old(room) != null ==> outcome == Raised(AlreadyJoined)
      ensures outcome.Done? ==> joinOk && requests != [] && !destroyed && old(room) == null && !old(hasHandle)
      ensures outcome.Done? ==> forall i :: 0 <= i < |requests| ==> Servable(requests[i], target.participants)
      ensures outcome.Done? ==> offered == OfferedBy(requests, target.participants) != {}
      ensures outcome.Done? ==> room == target && backendRoom != null && (cascadeEnabled ==> backendRoom == b)
      ensures outcome.Done? ==>
                feeds == map u | u in DataIds(reply) + MediaIds(reply) && u in target.participants ::
                  target.participants[u]
      ensures outcome.Done? ==>
                (forall u :: u in feeds <==> u in target.participants && exists i ::
                   (0 <= i < |reply|
                    && (reply[i] == MediaStream(u) || (reply[i].DataStream? && u in reply[i].sourceIds))))
      ensures forall u :: u in feeds ==> this in feeds[u].subscribers
    {
      hide *;
      CountedByFeeds(w);
      offered := {};
      if destroyed {
        return Raised(AlreadyDestroyed), {};
      }
      if room != null {
        return Raised(AlreadyJoined), {};
      }
      if hasHandle {
        return Raised(AlreadyBackend), {};
      }
      outcome, offered := PrepareJoin(w, target, requests);
      if outcome.Raised? {
        return;
      }
      outcome := JoinOn(w, target, b, offered, started, published, joinOk, reply, now);
      if outcome.Done? {
        ReferencedAre(reply, target.participants, feeds);
      }
      CountedByFeeds(w);
    }

    /** The lookup of the requested feeds in the room. */
    method PrepareJoin(ghost w: World, target: VideoRoom, requests: seq<FeedRequest>)
      returns (outcome: Outcome, offered: set<Publisher>)
      requires target in w.rooms && Inv(w.State())
      ensures outcome == if requests == [] then Raised(MissingElement)
                         else if exists i :: 0 <= i < |requests| && !Servable(requests[i], target.participants)
                         then Raised(NoSuchFeed)
                         else if OfferedBy(requests, target.participants) == {} then Raised(InvalidSdp) else Done
      ensures outcome.Done? ==>
                requests != [] && (forall i :: 0 <= i < |requests| ==> Servable(requests[i], target.participants))
      ensures outcome.Done? ==> offered == OfferedBy(requests, target.participants) != {} && offered <= w.publishers
    {
      hide Inv, World.State, World.Index, Servable;
      outcome, offered := CheckFeeds(requests, target.participants);
      w.RoomEntry(target);
      ParticipantsKnown(w.State(), target);
      OfferedAreParticipants(requests, target.participants);
      w.KnownPublishers();
    }

    /** The part of `join` that talks to backend servers. */
    method JoinOn(ghost w: World, target: VideoRoom, b: BackendRoom?, ps: set<Publisher>, started: set<Publisher>,
                  published: set<Publisher>, joinOk: bool, reply: seq<StreamInfo>, now: Time)
      returns (outcome: Outcome)
      requires this in w.subscribers && target in w.rooms && Inv(w.State()) && !destroyed && room == null
      requires ps != {} && ps <= w.publishers
      modifies this`room, this`backendRoom, this`hasHandle, this`feeds, this`dataFeedIds, this`mediaFeedIds
      modifies w`remotes, w.remotes, w.publishers`children, w.publishers`remotePublishers, w.publishers`subscribers
      ensures fresh(w.remotes - old(w.remotes)) && Inv(w.State()) && w.Index() == old(w.Index())
      ensures outcome.Done? <==> joinOk && old(JoinFits(cascadeEnabled, ps, b, started, published))
      ensures outcome.Raised? ==> w.Links() == old(w.Links())
      ensures outcome.Done? ==> joinOk && room == target && backendRoom != null && (cascadeEnabled ==> backendRoom == b)
      ensures outcome.Done? ==>
                feeds == map u | u in DataIds(reply) + MediaIds(reply) && u in target.participants ::
                  target.participants[u]
    {
      hide *;
      var chosen;
      outcome, chosen := ChooseServer(w, ps, b, started, published, now);
      if outcome.Raised? {
        return;
      }
      if !joinOk {
        return Raised(BackendError);
      }
      EnterAndUpdate(w, target, chosen, reply, now);
    }

    method EnterAndUpdate(ghost w: World, target: VideoRoom, b: BackendRoom, reply: seq<StreamInfo>, now: Time)
      requires this in w.subscribers && target in w.rooms && Inv(w.State()) && !destroyed && room == null
      modifies this`room, this`backendRoom, this`hasHandle, this`feeds, this`dataFeedIds, this`mediaFeedIds
      modifies w.publishers`subscribers, w.remotes`subscribers, w.remotes`idleTs
      ensures Inv(w.State()) && w.Index() == old(w.Index())
      ensures room == target && backendRoom == b
      ensures feeds == map u | u in DataIds(reply) + MediaIds(reply) && u in target.participants ::
                target.participants[u]
    {
      hide *;
      w.SubscriberState(this);
      EnteredKeepsInv(w.State(), this, target, b);
      EnteredIs(w.State(), this, target, b);
      Enter(w, target, b);
      w.SubscriberState(this);
      SyncedFromNothing(DataIds(reply) + MediaIds(reply), target.participants);
      UpdateStreams(w, reply, false, now);
    }

    /** The peer connection is down: the subscriber watches nobody any more but stays in its room. */
    method OnHangup(ghost w: World, now: Time)
      requires this in w.subscribers && Inv(w.State())
      modifies this`feeds, this`dataFeedIds, this`mediaFeedIds
      modifies w.publishers`subscribers, w.remotes`subscribers, w.remotes`idleTs
      ensures !destroyed ==> feeds == map[] && dataFeedIds == mediaFeedIds == {} && room == old(room)
      ensures !destroyed ==> forall p :: p in old(feeds.Values) ==> this !in p.subscribers
      ensures Inv(w.State())
      ensures w.State() == if destroyed then old(w.State()) else SubscriberHungUp(old(w.State()), this, now)
    {
      hide *;
      if destroyed {
        return;
      }
      ghost var st := w.State();
      w.SubscriberState(this);
      SubscriberHungUpKeepsInv(st, this, now);
      SubscriberHungUpIs(st, this, now);
      InvFeeds(st);
      InvTrees(st);
      WatchedExist(st.links, this);
      ForgetFeeds(w, now);
      w.SubscriberState(this);
      SeenLeft(w);
    }

    lemma SeenLeft(w: World)
      requires this in w.subscribers && Inv(w.State()) && feeds == map[]
      ensures forall p :: p in w.publishers ==> this !in p.subscribers
    {
      hide *;
      w.SubscriberState(this);
      forall p | p in w.publishers ensures this !in p.subscribers {
        w.PublisherEntry(p);
        if this in p.subscribers { WatchedBy(w.State(), p, this); }
      }
    }

    /** Second half of `_sync_feeds`: watches the participants among `ids`. */
    method AddFeeds(ghost w: World, ids: set<int>)
      requires this in w.subscribers && Inv(w.State()) && !destroyed && room != null && ids !! feeds.Keys
      modifies this`feeds, w.publishers`subscribers, w.remotes`subscribers, w.remotes`idleTs
      ensures Inv(w.State()) && w.Index() == old(w.Index())
      ensures feeds == old(feeds) + (map u | u in ids && u in room.participants :: room.participants[u])
      ensures w.State() == SubscribedState(old(w.State()), this, map u | u in ids && u in room.participants ::
                room.participants[u])
    {
      hide *;
      ghost var st := w.State();
      w.SubscriberState(this);
      InvFeeds(st);
      InvTrees(st);
      var added := map u | u in ids && u in room.participants :: room.participants[u];
      RoomKnown(st, this);
      w.RoomEntry(room);
      PresentCanJoin(st, this, ids, added);
      AddedAreKnown(st, this, added);
      SubscribedKeepsInv(st, this, added);
      SubscribedStateIs(st, this, added);
      SubscribeAndKeep(w, added.Values, feeds + added);
      w.SubscriberState(this);
    }

    /** First half of `_sync_feeds`: leaves the publishers with the given ids. */
    method DropFeeds(ghost w: World, ids: set<int>, now: Time)
      requires this in w.subscribers && Inv(w.State()) && ids <= feeds.Keys
      modifies this`feeds, w.publishers`subscribers, w.remotes`subscribers, w.remotes`idleTs
      ensures Inv(w.State()) && w.Index() == old(w.Index())
      ensures feeds == old(feeds) - ids
      ensures w.State() == UnsubscribedState(old(w.State()), this, ids, now)
    {
      hide *;
      ghost var st := w.State();
      w.SubscriberState(this);
      InvFeeds(st);
      InvTrees(st);
      WatchedExist(st.links, this);
      var ps := set u | u in ids :: feeds[u];
      DropReady(st, this, ids, ps, now);
      UnsubscribeAndKeep(w, ps, feeds - ids, now);
      w.SubscriberState(this);
    }

    /** Leaves the given publishers. */
    method Unsubscribe(ghost w: World, ps: set<Publisher>, now: Time)
      requires this in w.subscribers && ps <= w.publishers
      requires TreeInv(w.Trees()) && WatchInv(w.Trees(), w.Links())
      modifies w.publishers`subscribers, w.remotes`subscribers, w.remotes`idleTs
      ensures TreeInv(w.Trees()) && WatchInv(w.Trees(), w.Links())
      ensures w.Trees() == Unwatched(old(w.Trees()), this, ps, now)
      ensures w.Links() == Unsubscribed(old(w.Links()), this, ps, feeds)
    {
      hide *;
      ghost var g, l := w.Trees(), w.Links();
      w.SubscriberEntry(this);
      UnsubscribedNone(g, l, this, null, now);
      var pending := ps;
      assert ps - pending == {};
      while pending != {}
        invariant pending <= ps && TreeInv(w.Trees()) && WatchInv(w.Trees(), w.Links())
        invariant w.Trees() == Unwatched(g, this, ps - pending, now)
        invariant w.Links() == Unsubscribed(l, this, ps - pending, feeds)
        decreases |pending|
      {
        var publisher :| publisher in pending;
        UnsubscribeStep(g, l, this, ps - pending, publisher, feeds, now);
        assert ps - pending + {publisher} == ps - (pending - {publisher});
        publisher.DelSubscriber(w, this, now);
        pending := pending - {publisher};
      }
      assert ps - pending == ps;
    }

    /** Joins the subscribers of the given publishers. */
    method Subscribe(ghost w: World, ps: set<Publisher>)
      requires this in w.subscribers && ps <= w.publishers
      requires TreeInv(w.Trees()) && WatchInv(w.Trees(), w.Links())
      modifies w.publishers`subscribers, w.remotes`subscribers, w.remotes`idleTs
      ensures TreeInv(w.Trees()) && WatchInv(w.Trees(), w.Links())
      ensures w.Trees() == Watched(old(w.Trees()), this, backendRoom, ps)
      ensures w.Links() == Subscribed(old(w.Links()), this, ps, feeds)
    {
      hide *;
      ghost var g, l := w.Trees(), w.Links();
      w.SubscriberEntry(this);
      UnsubscribedNone(g, l, this, backendRoom, 1);
      var pending := ps;
      assert ps - pending == {};
      while pending != {}
        invariant pending <= ps && TreeInv(w.Trees()) && WatchInv(w.Trees(), w.Links())
        invariant w.Trees() == Watched(g, this, backendRoom, ps - pending)
        invariant w.Links() == Subscribed(l, this, ps - pending, feeds)
        decreases |pending|
      {
        var publisher :| publisher in pending;
        SubscribeStep(g, l, this, backendRoom, ps - pending, publisher, feeds);
        assert ps - pending + {publisher} == ps - (pending - {publisher});
        publisher.AddSubscriber(w, this);
        pending := pending - {publisher};
      }
      assert ps - pending == ps;
    }
  }

  class VideoRoom {
    const roomId: int
    const backendRoomId: int
    const requirePvtId: bool
    const minPublishers: int
    var destroyed: bool
    var participants: map<int, Publisher>
    var privateIds: map<int, Publisher>
    var creatingIds: set<int>
    var backendRooms: map<string, BackendRoom>
    var idleTs: int

    ghost function Table(): RoomTable
      reads this`destroyed, this`participants, this`privateIds, this`backendRooms, this`idleTs
    {
      RoomTable(destroyed, participants, privateIds, backendRooms, idleTs)
    }

    constructor (id: int, backendId: int, needsPvtId: bool, atLeast: int, now: Time)
      ensures Table() == RoomTable(false, map[], map[], map[], now)
      ensures roomId == id && backendRoomId == backendId && requirePvtId == needsPvtId && minPublishers == atLeast
      ensures !destroyed && participants == map[] && creatingIds == {}
    {
      roomId, backendRoomId, requirePvtId, minPublishers := id, backendId, needsPvtId, atLeast;
      destroyed, participants, privateIds, creatingIds, backendRooms, idleTs := false, map[], map[], {}, map[], now;
    }

    method CheckIdle(now: Time) returns (idle: bool)
      modifies this`idleTs
      ensures idle <==> participants == map[]
      ensures idleTs == IdleTs(!idle, old(idleTs), now)
    {
      if participants == map[] {
        if idleTs == 0 {
          idleTs := now;
        }
        return true;
      } else {
        idleTs := 0;
        return false;
      }
    }

    method OnBackendRoomDestroy(ghost w: World, b: BackendRoom)
      requires this in w.rooms
      modifies this`backendRooms
      ensures w.Index() == old(w.Index()).(rooms := if destroyed then old(w.Index()).rooms else
                old(w.Index()).rooms[this :=
                  old(w.Index()).rooms[this].(backends := old(w.Index()).rooms[this].backends - {b.serverName})])
    {
      hide VideoRoom.Table;
      w.RoomEntry(this);
      if destroyed {
        return;
      }
      SetBackendRooms(w, backendRooms - {b.serverName});
    }

    method SetBackendRooms(ghost w: World, bs: map<string, BackendRoom>)
      requires this in w.rooms
      modifies this`backendRooms
      ensures backendRooms == bs
      ensures w.Index() == old(w.Index()).(rooms := old(w.Index()).rooms[this := RoomTable(destroyed, participants,
                privateIds, bs, idleTs)])
    {
      backendRooms := bs;
    }

    method CreateBackendRoom(ghost w: World, name: string) returns (b: BackendRoom)
      requires this in w.rooms
      modifies w`backends
      ensures fresh(b) && w.backends == old(w.backends) + {b} && b.serverName == name && !b.active && !b.destroyed
      ensures w.Index() == old(w.Index()).(backs := old(w.Index()).backs[b := BackendTable(false, this, {})])
    {
      b := new BackendRoom(this, name);
      w.backends := w.backends + {b};
      assert w.Index().backs == old(w.Index()).backs[b := BackendTable(false, this, {})];
    }

    method AddBackendRoom(ghost w: World, name: string) returns (b: BackendRoom)
      requires this in w.rooms
      modifies this`backendRooms, w`backends
      ensures fresh(b) && w.backends == old(w.backends) + {b} && b.serverName == name && !b.active && !b.destroyed
      ensures backendRooms == old(backendRooms)[name := b]
      ensures w.Index() == Hosted(old(w.Index()), this, b)
    {
      hide *;
      w.RoomEntry(this);
      ghost var i := w.Index();
      b := CreateBackendRoom(w, name);
      HostedIs(i, this, b);
      SetBackendRooms(w, backendRooms[name := b]);
    }

    /** The search for a backend room by load, in any order. It compares the wrong way round, so it finds the room with
        the most publishers, and only if that has more than a million. */
    method FindByLoad() returns (found: BackendRoom?, count: int)
      ensures found == null <==> forall n :: n in backendRooms ==> |backendRooms[n].publishers| <= UNLIKELY_LOAD
      ensures found != null ==> found in backendRooms.Values && count == |found.publishers| > UNLIKELY_LOAD
      ensures found != null ==> forall n :: n in backendRooms ==> |backendRooms[n].publishers| <= count
    {
      found, count := null, UNLIKELY_LOAD;
      var pending := backendRooms.Keys;
      while pending != {}
        invariant pending <= backendRooms.Keys
        invariant found == null ==> count == UNLIKELY_LOAD
        invariant found != null ==> found in backendRooms.Values && count == |found.publishers| > UNLIKELY_LOAD
        invariant forall n :: n in backendRooms && n !in pending ==> |backendRooms[n].publishers| <= count
        decreases |pending|
      {
        var n :| n in pending;
        if count < |backendRooms[n].publishers| {
          found, count := backendRooms[n], |backendRooms[n].publishers|;
        }
        pending := pending - {n};
      }
    }

    lemma LoadDecides(found: BackendRoom?, count: int)
      requires minPublishers == 0 ==> found == null
      requires minPublishers != 0 ==>
                (found == null <==> forall n :: n in backendRooms ==> |backendRooms[n].publishers| <= UNLIKELY_LOAD)
      requires found != null ==> found in backendRooms.Values && count == |found.publishers|
      requires found != null ==> forall n :: n in backendRooms ==> |backendRooms[n].publishers| <= count
      ensures DecidesByLoad() <==> found != null && count < minPublishers
    {
    }

    /** The search by load decides nothing as long as no backend room has more than a million publishers, or fewer
        than that are wanted on one. */
    lemma NeverByLoad()
      requires minPublishers <= UNLIKELY_LOAD + 1 || forall n :: n in backendRooms ==>
                |backendRooms[n].publishers| <= UNLIKELY_LOAD
      ensures !DecidesByLoad()
    {
    }

    /** In the invariant the search by load goes by the publishers that are placed on the backend rooms. */
    lemma LoadIsPlaced(w: World)
      requires this in w.rooms && Inv(w.State())
      ensures DecidesByLoad() <==>
                && minPublishers != 0
                && (exists n :: n in backendRooms && |PlacedPublishers(w.Index(), backendRooms[n])| > 1000000)
                && (forall n :: n in backendRooms ==> |PlacedPublishers(w.Index(), backendRooms[n])| < minPublishers)
    {
      hide Inv, World.State, World.Index, PlacedPublishers;
      w.RoomEntry(this);
      InvIndex(w.State());
      forall n | n in backendRooms
        ensures |backendRooms[n].publishers| == |PlacedPublishers(w.Index(), backendRooms[n])|
      {
        HostListed(w, backendRooms[n]);
        w.BackendEntry(backendRooms[n]);
        BackendCounts(w.Index(), backendRooms[n]);
      }
    }

    lemma HostListed(w: World, b: BackendRoom)
      requires this in w.rooms && Inv(w.State()) && b in backendRooms.Values
      ensures b in w.backends && b.serverName in backendRooms && backendRooms[b.serverName] == b
      ensures b in w.Index().backs && !b.destroyed
    {
      hide Inv, World.State, World.Index;
      w.RoomEntry(this);
      forall n | n in backendRooms && backendRooms[n] == b ensures n == b.serverName && b in w.backends
          && !b.destroyed {
        HostReady(w.State(), this, n);
        w.BackendEntry(b);
      }
    }

    /** The search by load decides: it is switched on, finds a room, and that has less than the wanted publishers. */
    predicate DecidesByLoad()
      reads this`backendRooms, backendRooms.Values`publishers
    {
      && minPublishers != 0
      && (exists n :: n in backendRooms && |backendRooms[n].publishers| > UNLIKELY_LOAD)
      && (forall n :: n in backendRooms ==> |backendRooms[n].publishers| < minPublishers)
    }

    /** A backend room with the most publishers is active, or is not. */
    ghost predicate SomeFullest(active: bool)
      reads this`backendRooms, backendRooms.Values`publishers, backendRooms.Values`active
    {
      exists n :: n in backendRooms && backendRooms[n].active == active && forall m :: m in backendRooms ==>
        |backendRooms[m].publishers| <= |backendRooms[n].publishers|
    }

    lemma FullestIs(found: BackendRoom)
      requires found in backendRooms.Values
      requires forall m :: m in backendRooms ==> |backendRooms[m].publishers| <= |found.publishers|
      ensures SomeFullest(found.active)
    {
    }

    lemma SomeFullestIs(active: bool)
      ensures SomeFullest(active) <==> exists n ::
                (n in backendRooms && backendRooms[n].active == active
                 && forall m :: m in backendRooms ==> |backendRooms[m].publishers| <= |backendRooms[n].publishers|)
    {
    }

    /** The backend room for a new participant: unless the search by load decides, the one on the server that the
        selection policy chose, created and activated if need be. A new backend room that cannot be activated is
        destroyed again. */
    method ChooseBackendRoom(ghost w: World, server: ServerChoice, activateOk: bool)
      returns (outcome: Outcome, b: BackendRoom?)
      requires this in w.rooms && !destroyed && Inv(w.State())
      modifies w.rooms`backendRooms, w`backends, w.backends`active
      ensures fresh(w.backends - old(w.backends)) && Inv(w.State())
      ensures !old(DecidesByLoad()) ==> (
                outcome == if server == NoServer then Raised(BadGateway)
                           else if activateOk || old(server.name in backendRooms && backendRooms[server.name].active)
                             then Done
                           else Raised(BackendError))
      ensures old(DecidesByLoad()) ==> outcome == Done || outcome == Raised(BackendError)
      ensures old(DecidesByLoad()) && outcome.Done? ==> activateOk || old(SomeFullest(true))
      ensures old(DecidesByLoad()) && outcome.Raised? ==> !activateOk && old(SomeFullest(false))
      ensures outcome.Done? ==> b != null && b.active && b in w.backends
                                && b.serverName in backendRooms && backendRooms[b.serverName] == b
      ensures outcome.Done? && !old(DecidesByLoad()) ==> server.Server? && b.serverName == server.name
      ensures outcome.Done? && old(DecidesByLoad()) ==>
                b in old(backendRooms).Values && forall n :: n in old(backendRooms) ==>
                  |old(backendRooms)[n].publishers| <= |b.publishers|
      ensures outcome.Done? ==> w.State() == Chosen(old(w.State()), this, b)
      ensures outcome.Done? && b !in old(backendRooms).Values ==> fresh(b)
      ensures outcome.Raised? ==> w.State() == if b == null then old(w.State())
                else old(w.State()).(index := old(w.Index()).(backs := old(w.Index()).backs[b := BackendTable(true,
                  null, {})]))
      ensures outcome.Raised? && b != null ==> fresh(b)
    {
      hide *;
      b := null;
      var found, count := null, 0;
      if minPublishers != 0 {
        found, count := FindByLoad();
      }
      LoadDecides(found, count);
      if found != null && count < minPublishers {
        HostListed(w, found);
        FullestIs(found);
        outcome, b := ActivateListed(w, found, activateOk);
      } else if server == NoServer {
        outcome := Raised(BadGateway);
      } else {
        outcome, b := ChooseOn(w, server.name, activateOk);
      }
    }

    /** The part of `choose_backend_room` after the choice of a server. */
    method ChooseOn(ghost w: World, name: string, activateOk: bool) returns (outcome: Outcome, b: BackendRoom?)
      requires this in w.rooms && !destroyed && Inv(w.State())
      modifies w.rooms`backendRooms, w`backends, w.backends`active
      ensures fresh(w.backends - old(w.backends)) && Inv(w.State())
      ensures outcome == if activateOk || old(name in backendRooms && backendRooms[name].active) then Done
                         else Raised(BackendError)
      ensures outcome.Done? ==> b != null && b.active && b in w.backends
                                && b.serverName == name && name in backendRooms && backendRooms[name] == b
      ensures outcome.Done? ==> w.State() == Chosen(old(w.State()), this, b)
      ensures outcome.Done? && b !in old(backendRooms).Values ==> fresh(b)
      ensures outcome.Raised? ==> w.State() == if b == null then old(w.State())
                else old(w.State()).(index := old(w.Index()).(backs := old(w.Index()).backs[b := BackendTable(true,
                  null, {})]))
      ensures outcome.Raised? && b != null ==> fresh(b)
    {
      hide *;
      w.RoomEntry(this);
      if name in backendRooms {
        HostListed(w, backendRooms[name]);
        HostReady(w.State(), this, name);
        outcome, b := ActivateListed(w, backendRooms[name], activateOk);
      } else {
        ghost var st := w.State();
        outcome, b := NewBackendRoom(w, name, activateOk);
        ChosenIs(st, this, b);
      }
    }

    /** Activates a backend room of this room. */
    method ActivateListed(ghost w: World, listed: BackendRoom, activateOk: bool)
      returns (outcome: Outcome, b: BackendRoom?)
      requires this in w.rooms && Inv(w.State()) && listed in backendRooms.Values
      modifies listed`active
      ensures w.State() == old(w.State()) && this in w.State().index.rooms
      ensures outcome == if old(listed.active) || activateOk then Done else Raised(BackendError)
      ensures b == if outcome.Done? then listed else null
      ensures outcome.Done? ==> listed.active && w.State() == Chosen(old(w.State()), this, listed)
    {
      hide *;
      HostListed(w, listed);
      w.RoomEntry(this);
      ChosenIs(w.State(), this, listed);
      outcome := listed.Activate(activateOk);
      b := if outcome.Done? then listed else null;
    }

    method NewBackendRoom(ghost w: World, name: string, activateOk: bool) returns (outcome: Outcome, b: BackendRoom)
      requires this in w.rooms && !destroyed && Inv(w.State()) && name !in backendRooms
      modifies w.rooms`backendRooms, w`backends
      ensures fresh(b) && w.backends == old(w.backends) + {b} && b.serverName == name && Inv(w.State())
      ensures outcome == if activateOk then Done else Raised(BackendError)
      ensures activateOk ==> b.active && backendRooms == old(backendRooms)[name := b]
                             && w.State() == old(w.State()).(index := Hosted(old(w.Index()), this, b))
      ensures !activateOk ==> w.State() == old(w.State()).(index :=
                                old(w.Index()).(backs := old(w.Index()).backs[b := BackendTable(true, null, {})]))
    {
      hide *;
      ghost var st := w.State();
      w.RoomEntry(this);
      b := AddBackendRoom(w, name);
      HostedKeepsInv(st, this, b);
      HostedThenDown(st.index, this, b);
      w.RoomEntry(this);
      outcome := b.Activate(activateOk);
      if outcome.Raised? {
        b.Destroy(w);
      }
    }

    /** Which joins are refused before any server is asked. */
    ghost function Refuses(requested: int): (r: Outcome)
      reads this`destroyed, this`participants, this`creatingIds
      ensures r == Done <==>
                !destroyed && (requested == 0 || (requested !in participants && requested !in creatingIds
                                                  && requested != backendRoomId))
      ensures r == Raised(NoSuchRoom) <==> destroyed
      ensures r in {Done, Raised(NoSuchRoom), Raised(IdExists)}
    {
      if destroyed then Raised(NoSuchRoom)
      else if requested != 0 && (requested in participants || requested in creatingIds || requested == backendRoomId)
      then Raised(IdExists)
      else Done
    }

    lemma RefusesIs(requested: int)
      ensures Refuses(requested) ==
                if destroyed then Raised(NoSuchRoom)
                else if requested != 0
                        && (requested in participants || requested in creatingIds || requested == backendRoomId)
                then Raised(IdExists)
                else Done
    {
    }

    /** A new publisher joins the room. `requested` is the id it asks for, 0 for any; `drawn` and `pvtId` are the
        ids at which the drawing loops stop. The id is refused if it is taken or is the backend room's own; a failure
        at any backend call leaves the tables of the room as they were. */
    method NewParticipant(ghost w: World, requested: int, drawn: int, pvtId: int, cascade: bool, server: ServerChoice,
                          activateOk: bool, joinOk: bool, now: Time)
      returns (outcome: Outcome, p: Publisher?)
      requires this in w.rooms && Inv(w.State())
      requires requested == 0 ==> drawn !in participants && drawn !in creatingIds && drawn != backendRoomId
      requires pvtId !in privateIds
      modifies this`participants, this`privateIds, this`idleTs, this`creatingIds, w`publishers, w`backends
      modifies w.rooms`backendRooms, w.backends`active, w.backends`publishers
      modifies w.publishers`children, w.publishers`remotePublishers, w.remotes
      modifies w.subscribers`feeds, w.subscribers`dataFeedIds, w.subscribers`mediaFeedIds, w.subscribers`owner
      modifies w.rooms`participants, w.rooms`privateIds, w.rooms`idleTs
      ensures Inv(w.State())
      ensures old(Refuses(requested)).Raised? ==> outcome == old(Refuses(requested))
      ensures old(Refuses(requested)).Done? && !old(DecidesByLoad()) ==> (
                outcome == if server == NoServer then Raised(BadGateway)
                           else if activateOk || old(server.name in backendRooms && backendRooms[server.name].active)
                           then (if joinOk then Done else Raised(BackendError))
                           else Raised(BackendError))
      ensures old(Refuses(requested)).Done? && old(DecidesByLoad()) ==>
                && (outcome == Done || outcome == Raised(BackendError))
                && (outcome == Done ==> joinOk && (activateOk || old(SomeFullest(true))))
                && (outcome != Done ==> !joinOk || (!activateOk && old(SomeFullest(false))))
      ensures outcome.Done? ==> p != null && p.cascadeEnabled == cascade
      ensures outcome.Raised? ==> participants == old(participants) && privateIds == old(privateIds)
      ensures outcome.Done? ==>
                p != null && fresh(p) && p.userId == (if requested == 0 then drawn else requested) && p.pvtId == pvtId
      ensures outcome.Done? ==>
                participants == old(participants)[p.userId := p] && privateIds == old(privateIds)[pvtId := p]
                  && idleTs == 0
      ensures outcome.Done? ==> p.room == this && !p.destroyed && p.backendRoom != null
                                && p.backendRoom.serverName in backendRooms
                                   && p.backendRoom == backendRooms[p.backendRoom.serverName]
      ensures outcome.Done? && !old(DecidesByLoad()) ==> server.Server? && p.backendRoom.serverName == server.name
      ensures this in old(w.State()).index.rooms
      ensures outcome.Done? ==> var st := Chosen(old(w.State()), this, p.backendRoom);
                this in st.index.rooms && p.backendRoom in st.index.backs
                  && w.State() == Newcomer(st, p, this, p.backendRoom, pvtId)
      ensures old(creatingIds) == creatingIds
    {
      hide *;
      w.RoomEntry(this);
      RefusesIs(requested);
      if destroyed {
        return Raised(NoSuchRoom), null;
      }
      var id := if requested == 0 then drawn else requested;
      if id in participants || id in creatingIds || id == backendRoomId {
        return Raised(IdExists), null;
      }
      outcome, p := ChooseAndReserve(w, id, pvtId, cascade, server, activateOk, joinOk, now);
    }

    /** The part of `new_participant` after the choice of an id. */
    method ChooseAndReserve(ghost w: World, id: int, pvtId: int, cascade: bool, server: ServerChoice,
                            activateOk: bool, joinOk: bool, now: Time)
      returns (outcome: Outcome, p: Publisher?)
      requires this in w.rooms && Inv(w.State()) && !destroyed
      requires id !in participants && id !in creatingIds && id != backendRoomId && pvtId !in privateIds
      modifies this`participants, this`privateIds, this`idleTs, this`creatingIds, w`publishers, w`backends
      modifies w.rooms`backendRooms, w.backends`active, w.backends`publishers
      modifies w.publishers`children, w.publishers`remotePublishers, w.remotes
      modifies w.subscribers`feeds, w.subscribers`dataFeedIds, w.subscribers`mediaFeedIds, w.subscribers`owner
      modifies w.rooms`participants, w.rooms`privateIds, w.rooms`idleTs
      ensures Inv(w.State()) && creatingIds == old(creatingIds) && this in old(w.State()).index.rooms
      ensures !old(DecidesByLoad()) ==> (
                outcome == if server == NoServer then Raised(BadGateway)
                           else if activateOk || old(server.name in backendRooms && backendRooms[server.name].active)
                           then (if joinOk then Done else Raised(BackendError))
                           else Raised(BackendError))
      ensures old(DecidesByLoad()) ==> outcome == Done || outcome == Raised(BackendError)
      ensures old(DecidesByLoad()) && outcome.Done? ==> joinOk && (activateOk || old(SomeFullest(true)))
      ensures old(DecidesByLoad()) && outcome.Raised? ==> !joinOk || (!activateOk && old(SomeFullest(false)))
      ensures outcome.Done? ==> p != null && p.cascadeEnabled == cascade
      ensures outcome.Raised? ==> participants == old(participants) && privateIds == old(privateIds)
      ensures outcome.Done? ==> p != null && fresh(p) && p.userId == id && p.pvtId == pvtId
      ensures outcome.Done? ==>
                participants == old(participants)[id := p] && privateIds == old(privateIds)[pvtId := p] && idleTs == 0
      ensures outcome.Done? ==> p.room == this && !p.destroyed && p.backendRoom != null
                                && p.backendRoom.serverName in backendRooms
                                   && p.backendRoom == backendRooms[p.backendRoom.serverName]
      ensures outcome.Done? && !old(DecidesByLoad()) ==> server.Server? && p.backendRoom.serverName == server.name
      ensures outcome.Done? ==> var st := Chosen(old(w.State()), this, p.backendRoom);
                this in st.index.rooms && p.backendRoom in st.index.backs
                  && w.State() == Newcomer(st, p, this, p.backendRoom, pvtId)
    {
      hide *;
      ghost var st := w.State();
      w.RoomEntry(this);
      var b;
      outcome, b := ChooseBackendRoom(w, server, activateOk);
      if outcome.Raised? {
        return outcome, null;
      }
      ChosenIs(st, this, b);
      outcome, p := Reserve(w, id, b, cascade, joinOk, pvtId, now);
      if outcome.Raised? {
        p := null;
      }
    }

    /** Reserves id `id` while the newcomer is admitted. */
    method Reserve(ghost w: World, id: int, b: BackendRoom, cascade: bool, joinOk: bool, pvtId: int, now: Time)
      returns (outcome: Outcome, p: Publisher)
      requires this in w.rooms && Inv(w.State()) && !destroyed
      requires id !in participants && id !in creatingIds && id != backendRoomId && pvtId !in privateIds
      requires b in w.backends && b.serverName in backendRooms && backendRooms[b.serverName] == b
      modifies this`participants, this`privateIds, this`idleTs, this`creatingIds, w`publishers, b`publishers
      modifies w.publishers`children, w.publishers`remotePublishers, w.remotes
      modifies w.subscribers`feeds, w.subscribers`dataFeedIds, w.subscribers`mediaFeedIds, w.subscribers`owner
      modifies w.rooms`participants, w.rooms`privateIds, w.rooms`idleTs, w.backends`publishers
      ensures Inv(w.State()) && outcome == if joinOk then Done else Raised(BackendError)
      ensures p.cascadeEnabled == cascade
      ensures fresh(p) && p.userId == id && creatingIds == old(creatingIds)
      ensures outcome.Raised? ==> participants == old(participants) && privateIds == old(privateIds)
      ensures outcome.Done? ==>
                participants == old(participants)[id := p] && privateIds == old(privateIds)[pvtId := p] && idleTs == 0
      ensures outcome.Done? ==> p.pvtId == pvtId && p.room == this && p.backendRoom == b && !p.destroyed
      ensures w.State() == if joinOk then Newcomer(old(w.State()), p, this, b, pvtId)
                           else PublisherDestroyed(WithPublisher(old(w.State()), p), p, now)
    {
      hide *;
      creatingIds := creatingIds + {id};
      outcome, p := AdmitNew(w, id, b, cascade, joinOk, pvtId, now);
      creatingIds := creatingIds - {id};
    }

    /** The part of `new_participant` after the choice of a backend room. */
    method AdmitNew(ghost w: World, id: int, b: BackendRoom, cascade: bool, joinOk: bool, pvtId: int, now: Time)
      returns (outcome: Outcome, p: Publisher)
      requires this in w.rooms && Inv(w.State()) && !destroyed
      requires id !in participants && id != backendRoomId && pvtId !in privateIds
      requires b in w.backends && b.serverName in backendRooms && backendRooms[b.serverName] == b
      modifies this`participants, this`privateIds, this`idleTs, w`publishers, b`publishers
      modifies w.publishers`children, w.publishers`remotePublishers, w.remotes
      modifies w.subscribers`feeds, w.subscribers`dataFeedIds, w.subscribers`mediaFeedIds, w.subscribers`owner
      modifies w.rooms`participants, w.rooms`privateIds, w.rooms`idleTs, w.backends`publishers
      ensures Inv(w.State()) && outcome == if joinOk then Done else Raised(BackendError)
      ensures p.cascadeEnabled == cascade
      ensures fresh(p) && p.userId == id
      ensures outcome.Raised? ==> participants == old(participants) && privateIds == old(privateIds)
      ensures outcome.Done? ==>
                participants == old(participants)[id := p] && privateIds == old(privateIds)[pvtId := p] && idleTs == 0
      ensures outcome.Done? ==> p.pvtId == pvtId && p.room == this && p.backendRoom == b && !p.destroyed
      ensures w.State() == if joinOk then Newcomer(old(w.State()), p, this, b, pvtId)
                           else PublisherDestroyed(WithPublisher(old(w.State()), p), p, now)
    {
      hide *;
      ghost var st := w.State();
      w.KnownPublishers();
      w.RoomEntry(this);
      w.BackendEntry(b);
      p := CreatePublisher(w, id, cascade);
      WithPublisherIs(st, p);
      w.StateEntry(p);
      WithPublisherKeepsInv(st, p);
      NewcomerReady(st, p, this, b, pvtId, now);
      outcome := Admit(w, p, b, joinOk, pvtId, now);
      w.RoomEntry(this);
    }

    method CreatePublisher(ghost w: World, id: int, cascade: bool) returns (p: Publisher)
      modifies w`publishers
      ensures fresh(p) && w.publishers == old(w.publishers) + {p}
      ensures p.userId == id && p.cascadeEnabled == cascade && !p.hasHandle && !p.destroyed && p.room == null
      ensures w.Trees() == old(w.Trees()).(pubs := old(w.Trees()).pubs[p := PublisherNode(false, false, map[], {})])
      ensures w.Links() == old(w.Links()).(pubs := old(w.Links()).pubs[p := PublisherLinks({}, {})])
      ensures w.Index() == old(w.Index()).(pubs := old(w.Index()).pubs[p := PublisherSeat(0, null, null)])
    {
      hide *;
      p := new Publisher(id, cascade);
      label created:
      w.publishers := w.publishers + {p};
      w.OneMoreTree@created(p);
      w.OneMoreLinks@created(p);
      w.OneMoreSeat@created(p);
    }

    /** Enters publisher `p` into the tables under its user id and the private id `pvtId`. */
    method Enroll(ghost w: World, p: Publisher, pvtId: int, now: Time)
      requires this in w.rooms && p in w.publishers
      modifies this`participants, this`privateIds, this`idleTs, p`pvtId
      ensures w.Index() == old(w.Index()).(
                pubs := old(w.Index()).pubs[p := PublisherSeat(pvtId, p.room, p.backendRoom)],
                rooms := old(w.Index()).rooms[this := RoomTable(destroyed, old(participants)[p.userId := p],
                                                                old(privateIds)[pvtId := p], backendRooms, 0)])
      ensures participants == old(participants)[p.userId := p] && privateIds == old(privateIds)[pvtId := p]
      ensures idleTs == 0
      ensures p.pvtId == pvtId
    {
      hide *;
      w.StateEntry(p);
      w.SeatEntry(p);
      w.RoomEntry(this);
      EnrolledIs(w.Index(), p, this, pvtId, now);
      p.SetPvtId(w, pvtId);
      SetTables(w, participants[p.userId := p], privateIds[pvtId := p]);
      CheckIdleStep(w, now);
      w.RoomEntry(this);
    }

    /** The part of `new_participant` that may fail at the backend server: the newcomer is destroyed again. */
    method Admit(ghost w: World, p: Publisher, b: BackendRoom, joinOk: bool, pvtId: int, now: Time)
      returns (outcome: Outcome)
      requires this in w.rooms && p in w.publishers && b in w.backends && Inv(w.State())
      requires CanPlace(w.Index(), p, this, b, pvtId) && !p.destroyed && !p.hasHandle && p.room == null
      modifies this`participants, this`privateIds, this`idleTs, p`pvtId, b`publishers
      modifies p`destroyed, p`webrtcStarted, p`streams, p`hasHandle, p`backendRoom, p`room
      modifies p`subscribers, p`subscriptions, w.publishers`children, w.publishers`remotePublishers, w.remotes
      modifies w.subscribers`feeds, w.subscribers`dataFeedIds, w.subscribers`mediaFeedIds, w.subscribers`owner
      modifies w.rooms`participants, w.rooms`privateIds, w.rooms`idleTs, w.backends`publishers
      ensures Inv(w.State()) && outcome == if joinOk then Done else Raised(BackendError)
      ensures w.State() == if joinOk then old(w.State()).(index := Placed(old(w.Index()), p, this, b, pvtId))
                           else PublisherDestroyed(old(w.State()), p, now)
      ensures joinOk ==>
                participants == old(participants)[p.userId := p] && privateIds == old(privateIds)[pvtId := p]
                  && idleTs == 0
      ensures joinOk ==> p.pvtId == pvtId && p.room == this && p.backendRoom == b && !p.destroyed
    {
      hide *;
      ghost var st := w.State();
      w.StateEntry(p);
      w.BackendEntry(b);
      w.RoomEntry(this);
      PlacedKeepsInv(st, p, this, b, pvtId);
      PlacedIs(st.index, p, this, b, pvtId);
      outcome := p.Join(w, this, b, joinOk);
      w.StateEntry(p);
      if outcome.Done? {
        EnrollPlaced(w, p, pvtId, now, st.index);
        w.StateEntry(p);
      } else {
        p.DestroyStep(w, now);
      }
    }

    /** The part of `new_participant` after the join at the backend server. */
    method EnrollPlaced(ghost w: World, p: Publisher, pvtId: int, now: Time, ghost i: IndexTable)
      requires this in w.rooms && p in w.publishers && p.backendRoom != null && p.backendRoom in i.backs
      requires this in i.rooms && i.rooms[this] == RoomTable(destroyed, participants, privateIds, backendRooms, idleTs)
      requires p.room == this && w.Index() == i.(
                 pubs := i.pubs[p := PublisherSeat(p.pvtId, p.room, p.backendRoom)],
                 backs := i.backs[p.backendRoom := BackendTable(i.backs[p.backendRoom].destroyed,
                   i.backs[p.backendRoom].room,
                                                               i.backs[p.backendRoom].publishers + {p.userId})])
      modifies this`participants, this`privateIds, this`idleTs, p`pvtId
      ensures w.Trees() == old(w.Trees()) && w.Links() == old(w.Links())
      ensures w.Index() == Placed(i, p, this, p.backendRoom, pvtId)
      ensures participants == old(participants)[p.userId := p] && privateIds == old(privateIds)[pvtId := p]
      ensures idleTs == 0
      ensures p.pvtId == pvtId
    {
      hide *;
      PlacedIs(i, p, this, p.backendRoom, pvtId);
      w.RoomEntry(this);
      Enroll(w, p, pvtId, now);
    }

    /** Takes the participant with id `u` out of the tables. */
    method Evict(ghost w: World, p: Publisher)
      requires this in w.rooms && p in w.publishers
      modifies this`participants, this`privateIds, p`room
      ensures w.Index() == Evicted(old(w.Index()), p, this)
    {
      hide *;
      w.RoomEntry(this);
      w.StateEntry(p);
      EvictedIs(w.Index(), p, this);
      w.SeatEntry(p);
      SetTables(w, participants - {p.userId}, privateIds - {p.pvtId});
      w.StateEntry(p);
      p.SetRoom(w, null);
    }

    method EvictAndPause(ghost w: World, p: Publisher)
      requires this in w.rooms && p in w.publishers && p.subscriptions <= w.subscribers
      modifies this`participants, this`privateIds, p`room, w.subscribers`kicked
      ensures w.Index() == Evicted(old(w.Index()), p, this) && w.Links() == old(w.Links())
      ensures w.Trees() == old(w.Trees())
      ensures forall s :: s in p.subscriptions ==> s.kicked
    {
      hide *;
      Evict(w, p);
      p.KickAllSubscriptions(w);
    }

    method SetTables(ghost w: World, ps: map<int, Publisher>, ids: map<int, Publisher>)
      requires this in w.rooms
      modifies this`participants, this`privateIds
      ensures participants == ps && privateIds == ids
      ensures w.Index() == old(w.Index()).(rooms := old(w.Index()).rooms[this := RoomTable(destroyed, ps, ids,
                backendRooms, idleTs)])
    {
      participants, privateIds := ps, ids;
    }

    /** In the invariant the idle timestamp is already what `check_idle` would make it. */
    method CheckSettled(ghost w: World, now: Time) returns (idle: bool)
      requires idleTs == 0 <==> participants != map[]
      modifies this`idleTs
      ensures idle <==> participants == map[]
      ensures idleTs == old(idleTs) && w.State() == old(w.State())
    {
      hide World.State, Inv;
      idle := CheckIdle(now);
      assert idleTs == old(idleTs);
    }

    /** Nobody is in the room, and its idle period is longer than `seconds`. */
    predicate IdleFor(seconds: int, now: Time): (r: bool)
      reads this`participants, this`idleTs
      ensures r <==> participants == map[] && now - idleTs > seconds
    {
      participants == map[] && now - idleTs > seconds
    }

    method CheckExpired(ghost w: World, seconds: int, now: Time) returns (expired: bool)
      requires this in w.rooms && !destroyed && Inv(w.State())
      modifies this`idleTs
      ensures expired <==> participants == map[] && now - old(idleTs) > seconds
      ensures expired == old(IdleFor(seconds, now))
      ensures idleTs == old(idleTs) && w.State() == old(w.State())
    {
      hide Inv, World.State, World.Index, World.Links, World.Trees;
      w.RoomEntry(this);
      RoomReady(w.State(), this);
      var idle := CheckSettled(w, now);
      return idle && now - idleTs > seconds;
    }

    method CheckIdleStep(ghost w: World, now: Time)
      requires this in w.rooms
      modifies this`idleTs
      ensures w.Index() == IdleChecked(old(w.Index()), this, now) && w.Links() == old(w.Links())
      ensures w.Trees() == old(w.Trees())
    {
      hide *;
      w.RoomEntry(this);
      IdleCheckedIs(w.Index(), this, now);
      var _ := CheckIdle(now);
      w.OneRoomChanged(this);
      w.RoomEntry(this);
    }

    /** Puts out the participant with id `id` and destroys it; its own subscriptions are told to pause. */
    method KickParticipant(ghost w: World, id: int, now: Time) returns (outcome: Outcome, ghost p: Publisher?)
      requires this in w.rooms && Inv(w.State())
      modifies w.publishers`destroyed, w.publishers`webrtcStarted, w.publishers`streams, w.publishers`hasHandle,
        w.publishers`backendRoom
      modifies w.publishers`room
      modifies w.publishers`subscribers, w.publishers`subscriptions, w.publishers`children
      modifies w.publishers`remotePublishers, w.remotes
      modifies w.subscribers`feeds, w.subscribers`dataFeedIds, w.subscribers`mediaFeedIds, w.subscribers`owner
      modifies w.subscribers`kicked
      modifies w.rooms`participants, w.rooms`privateIds, w.rooms`idleTs, w.backends`publishers
      ensures Inv(w.State())
      ensures outcome == if destroyed then Raised(NoSuchRoom) else if id !in old(participants) then Raised(IdExists)
                else Done
      ensures outcome.Raised? ==> w.State() == old(w.State())
      ensures outcome.Done? ==> id !in participants && participants == old(participants) - {id}
      ensures outcome.Done? ==> p == old(participants[id]) && p in old(w.publishers) && p.destroyed
                                && w.State() == PublisherDestroyed(old(w.State()), p, now)
                                && forall s :: s in old(p.subscriptions) ==> s.kicked
    {
      hide *;
      p := null;
      if destroyed {
        return Raised(NoSuchRoom), null;
      }
      if id !in participants {
        return Raised(IdExists), null;
      }
      var publisher := participants[id];
      p := publisher;
      w.RoomEntry(this);
      ghost var st := w.State();
      ParticipantIs(st, this, id);
      w.KnownPublishers();
      ParticipantReady(st, this, id, publisher);
      DestroyedLeavesRoom(st, publisher, now, this);
      Kick(w, id, publisher, now);
      w.RoomEntry(this);
      outcome := Done;
    }

    method Kick(ghost w: World, ghost id: int, p: Publisher, now: Time)
      requires this in w.rooms && p in w.publishers && Inv(w.State()) && this in w.Index().rooms
      requires IsParticipant(w.Index().rooms[this], id, p)
      modifies p`destroyed, p`webrtcStarted, p`streams, p`hasHandle, p`backendRoom, p`room
      modifies p`subscribers, p`subscriptions, w.publishers`children, w.publishers`remotePublishers, w.remotes
      modifies w.subscribers`feeds, w.subscribers`dataFeedIds, w.subscribers`mediaFeedIds, w.subscribers`owner
      modifies w.subscribers`kicked
      modifies w.rooms`participants, w.rooms`privateIds, w.rooms`idleTs, w.backends`publishers
      ensures Inv(w.State()) && p.destroyed && w.State() == PublisherDestroyed(old(w.State()), p, now)
      ensures forall s :: s in old(p.subscriptions) ==> s.kicked
    {
      hide *;
      ghost var st := w.State();
      w.StateEntry(p);
      w.PublisherEntry(p);
      InvParts(st, p);
      InvTrees(st);
      GoneInSteps(st.links, p);
      ParticipantReady(st, this, id, p);
      KickInSteps(st, this, id, p, now);
      PublisherDestroyedKeepsInv(st, p, now);
      EvictAndPause(w, p);
      DestroyEvicted(w, p, now);
      w.StateEntry(p);
    }

    /** The last part of `kick_participant`: the participant is out of the tables already. */
    method DestroyEvicted(ghost w: World, p: Publisher, now: Time)
      requires this in w.rooms && p in w.publishers && !p.destroyed && SeatIsOwn(w.Index(), p)
      requires TreeInv(w.Trees()) && LinkInv(w.Links()) && WatchInv(w.Trees(), w.Links())
      modifies p`destroyed, p`webrtcStarted, p`streams, p`hasHandle, p`backendRoom, p`room
      modifies p`subscribers, p`subscriptions, w.publishers`children, w.publishers`remotePublishers, w.remotes
      modifies w.subscribers`feeds, w.subscribers`dataFeedIds, w.subscribers`mediaFeedIds, w.subscribers`owner
      modifies w.rooms`participants, w.rooms`privateIds, w.rooms`idleTs, w.backends`publishers
      ensures p.destroyed && w.Trees() == PublisherDown(old(w.Trees()), p, PublisherNode(true, false, map[], {}))
      ensures w.Links() == PublisherGone(old(w.Links()), p)
      ensures this in Unseat(old(w.Index()), p, now).rooms
      ensures w.Index() == IdleChecked(Unseat(old(w.Index()), p, now), this, now)
    {
      hide *;
      p.Destroy(w, now);
      w.RoomEntry(this);
      CheckIdleStep(w, now);
    }

    /** Destroys the room: its publishers live on outside any room, and its backend rooms are destroyed later,
        each in a step of its own (`BackendRoom.Destroy`). */
    method Destroy(ghost w: World)
      requires this in w.rooms && Inv(w.State())
      modifies this`destroyed, this`participants, this`privateIds, this`creatingIds, this`backendRooms
      modifies w.publishers`room
      ensures destroyed
      ensures Inv(w.State())
      ensures w.State() == if old(destroyed) then old(w.State())
                else old(w.State()).(index := RoomDown(old(w.Index()), this))
    {
      hide *;
      if destroyed {
        return;
      }
      ghost var st := w.State();
      w.RoomEntry(this);
      w.KnownPublishers();
      InvIndex(st);
      RoomDownKeepsInv(st, this);
      RoomClosingEnds(st, this);
      CloseAndTell(w);
      w.RoomEntry(this);
    }

    /** The owner that a private id stands for, if any. */
    function OwnerOf(pvtId: int): (owner: Publisher?)
      reads this`privateIds
      ensures owner == null <==> pvtId == 0 || pvtId !in privateIds
      ensures owner != null ==> privateIds[pvtId] == owner
    {
      if pvtId != 0 && pvtId in privateIds then privateIds[pvtId] else null
    }

    /** A new subscriber, owned by the participant with private id `pvtId` if there is one, joins the room. `pick` is
        the backend room that the random choice falls on. A failure leaves no trace in any publisher. */
    method NewSubscriber(ghost w: World, pvtId: int, cascade: bool, pick: string, server: ServerChoice,
                         activateOk: bool,
                         requests: seq<FeedRequest>, started: set<Publisher>, published: set<Publisher>, joinOk: bool,
                         reply: seq<StreamInfo>, now: Time)
      returns (outcome: Outcome, s: Subscriber?)
      requires this in w.rooms && Inv(w.State()) && (backendRooms != map[] ==> pick in backendRooms)
      modifies w`subscribers, w`backends, w`remotes, w.rooms`backendRooms, w.backends`active
      modifies w.remotes, w.publishers`children, w.publishers`remotePublishers, w.publishers`subscribers
      modifies w.publishers`subscriptions
      ensures Inv(w.State())
      ensures destroyed ==> outcome == Raised(NoSuchRoom)
      ensures !destroyed && requirePvtId && OwnerOf(pvtId) == null ==> outcome == Raised(Unauthorized)
      ensures outcome.Done? <==>
                && !destroyed && (requirePvtId ==> OwnerOf(pvtId) != null)
                && joinOk && requests != [] && (forall i :: 0 <= i < |requests| ==> Servable(requests[i], participants))
                && OfferedBy(requests, participants) != {}
                && old(CanServeSubscriber(OfferedBy(requests, participants),
                                          OwnerOf(pvtId) != null && OwnerOf(pvtId).subscriptions == {}, OwnerOf(pvtId),
                                          cascade, pick, server, activateOk, started, published))
      ensures outcome.Raised? ==> s == null && w.Links().pubs == old(w.Links()).pubs
      ensures outcome.Done? ==> s != null && fresh(s) && s in w.subscribers && !s.destroyed && s.room == this
      ensures outcome.Done? ==> s.owner == OwnerOf(pvtId) && (s.owner != null ==> s in s.owner.subscriptions)
      ensures outcome.Done? ==>
                s.feeds == map u | u in DataIds(reply) + MediaIds(reply) && u in participants :: participants[u]
      ensures outcome.Done? ==>
                (forall u :: u in s.feeds <==> u in participants && exists i ::
                   (0 <= i < |reply|
                    && (reply[i] == MediaStream(u) || (reply[i].DataStream? && u in reply[i].sourceIds))))
      ensures outcome.Done? ==> forall u :: u in s.feeds ==>
                s.feeds[u] == participants[u] && s in s.feeds[u].subscribers
    {
      hide *;
      if destroyed {
        return Raised(NoSuchRoom), null;
      }
      var owner := OwnerOf(pvtId);
      if requirePvtId && owner == null {
        return Raised(Unauthorized), null;
      }
      w.OwnerReady(this, pvtId);
      outcome, s := SubscribeFor(w, owner, cascade, pick, server, activateOk, requests, started, published, joinOk,
        reply,
                                 now);
      if outcome.Done? {
        OwnedMirrored(w, s);
        ReferencedAre(reply, participants, s.feeds);
        s.CountedByFeeds(w);
      }
    }

    /** The part of `new_subscriber` after the owner is known. */
    method SubscribeFor(ghost w: World, owner: Publisher?, cascade: bool, pick: string, server: ServerChoice,
                        activateOk: bool, requests: seq<FeedRequest>, started: set<Publisher>,
                        published: set<Publisher>, joinOk: bool, reply: seq<StreamInfo>, now: Time)
      returns (outcome: Outcome, s: Subscriber?)
      requires this in w.rooms && Inv(w.State()) && (backendRooms != map[] ==> pick in backendRooms) && !destroyed
      requires owner != null ==> owner in w.publishers && owner in w.Trees().pubs && !w.Trees().pubs[owner].destroyed
      modifies w`subscribers, w`backends, w`remotes, w.rooms`backendRooms, w.backends`active
      modifies w.remotes, w.publishers`children, w.publishers`remotePublishers, w.publishers`subscribers
      modifies w.publishers`subscriptions
      ensures Inv(w.State())
      ensures outcome.Done? <==>
                && joinOk && requests != [] && (forall i :: 0 <= i < |requests| ==> Servable(requests[i], participants))
                && OfferedBy(requests, participants) != {}
                && old(CanServeSubscriber(OfferedBy(requests, participants), owner != null && owner.subscriptions == {},
                                          owner, cascade, pick, server, activateOk, started, published))
      ensures outcome.Raised? ==> s == null && w.Links().pubs == old(w.Links()).pubs
      ensures outcome.Done? ==> s != null && fresh(s) && s in w.subscribers && !s.destroyed && s.room == this
      ensures outcome.Done? ==> s.owner == owner
      ensures outcome.Done? ==>
                s.feeds == map u | u in DataIds(reply) + MediaIds(reply) && u in participants :: participants[u]
    {
      hide *;
      ghost var ps := OfferedBy(requests, participants);
      ghost var first := owner != null && owner.subscriptions == {};
      ghost var can := CanServeSubscriber(ps, first, owner, cascade, pick, server, activateOk, started, published);
      s := AddSubscriber(w, owner, cascade);
      assert OfferedBy(requests, participants) == ps;
      assert CanServeSubscriber(ps, first, owner, cascade, pick, server, activateOk, started, published) == can;
      outcome := ServeSubscriber(w, s, pick, server, activateOk, requests, started, published, joinOk, reply, now);
      if outcome.Raised? {
        s := null;
      }
    }

    lemma OwnedMirrored(w: World, s: Subscriber)
      requires Inv(w.State()) && s in w.subscribers
      ensures s.owner != null ==> s in s.owner.subscriptions
    {
      hide *;
      w.SubscriberState(s);
      if s.owner != null {
        OwnerMirrored(w.State(), s);
        w.PublisherEntry(s.owner);
      }
    }

    /** The part of `new_subscriber` that may fail: the subscriber is destroyed again. */
    method ServeSubscriber(ghost w: World, s: Subscriber, pick: string, server: ServerChoice, activateOk: bool,
                           requests: seq<FeedRequest>, started: set<Publisher>, published: set<Publisher>, joinOk: bool,
                           reply: seq<StreamInfo>, now: Time)
      returns (outcome: Outcome)
      requires this in w.rooms && s in w.subscribers && Inv(w.State()) && !destroyed && !s.destroyed && s.room == null
      requires !s.hasHandle
      requires backendRooms != map[] ==> pick in backendRooms
      modifies w`backends, w`remotes, w.rooms`backendRooms, w.backends`active
      modifies s`destroyed, s`room, s`owner, s`feeds, s`dataFeedIds, s`mediaFeedIds, s`backendRoom, s`hasHandle
      modifies w.remotes, w.publishers`children, w.publishers`remotePublishers, w.publishers`subscribers
      modifies w.publishers`subscriptions
      ensures Inv(w.State())
      ensures outcome.Done? <==>
                && joinOk && requests != [] && (forall i :: 0 <= i < |requests| ==> Servable(requests[i], participants))
                && OfferedBy(requests, participants) != {}
                && old(CanServeSubscriber(OfferedBy(requests, participants), s.owner != null
                   && |s.owner.subscriptions| == 1, s.owner, s.cascadeEnabled, pick,
                                          server, activateOk, started, published))
      ensures outcome.Raised? ==> w.Links() == SubscriberGone(old(w.Links()), s)
      ensures outcome.Done? ==> !s.destroyed && s.room == this && s.owner == old(s.owner)
      ensures outcome.Done? ==>
                s.feeds == map u | u in DataIds(reply) + MediaIds(reply) && u in participants :: participants[u]
    {
      hide *;
      w.SubscriberState(s);
      outcome := JoinSubscriber(w, s, pick, server, activateOk, requests, started, published, joinOk, reply, now);
      if outcome.Raised? {
        s.DestroyNew(w, now);
      }
    }

    /** Chooses a backend room for subscriber `s` and joins it. */
    method JoinSubscriber(ghost w: World, s: Subscriber, pick: string, server: ServerChoice, activateOk: bool,
                          requests: seq<FeedRequest>, started: set<Publisher>, published: set<Publisher>, joinOk: bool,
                          reply: seq<StreamInfo>, now: Time)
      returns (outcome: Outcome)
      requires this in w.rooms && s in w.subscribers && Inv(w.State()) && !destroyed && !s.destroyed && s.room == null
      requires !s.hasHandle
      requires backendRooms != map[] ==> pick in backendRooms
      modifies w`backends, w`remotes, w.rooms`backendRooms, w.backends`active
      modifies s`room, s`feeds, s`dataFeedIds, s`mediaFeedIds, s`backendRoom, s`hasHandle
      modifies w.remotes, w.publishers`children, w.publishers`remotePublishers, w.publishers`subscribers
      ensures Inv(w.State()) && fresh(w.remotes - old(w.remotes))
      ensures outcome.Done? <==>
                && joinOk && requests != [] && (forall i :: 0 <= i < |requests| ==> Servable(requests[i], participants))
                && OfferedBy(requests, participants) != {}
                && old(CanServeSubscriber(OfferedBy(requests, participants), s.owner != null
                   && |s.owner.subscriptions| == 1, s.owner, s.cascadeEnabled, pick,
                                          server, activateOk, started, published))
      ensures outcome.Raised? ==> w.Links() == old(w.Links())
      ensures outcome.Done? ==> s.room == this
      ensures outcome.Done? ==>
                s.feeds == map u | u in DataIds(reply) + MediaIds(reply) && u in participants :: participants[u]
    {
      hide *;
      var b;
      ghost var ps := OfferedBy(requests, participants);
      outcome, b := ChooseServing(w, s, pick, server, activateOk, ps, started, published);
      if outcome.Done? {
        outcome := JoinWith(w, s, b, ps, requests, started, published, joinOk, reply, now);
      }
      assert OfferedBy(requests, participants) == ps;
    }

    /** Subscriber `s` joins on backend room `b`, to watch the publishers `ps` that were asked for. */
    method JoinWith(ghost w: World, s: Subscriber, b: BackendRoom?, ghost ps: set<Publisher>,
                    requests: seq<FeedRequest>,
                    started: set<Publisher>, published: set<Publisher>, joinOk: bool, reply: seq<StreamInfo>, now: Time)
      returns (outcome: Outcome)
      requires this in w.rooms && s in w.subscribers && Inv(w.State()) && !s.destroyed && s.room == null && !s.hasHandle
      requires ps == OfferedBy(requests, participants)
      modifies s`room, s`feeds, s`dataFeedIds, s`mediaFeedIds, s`backendRoom, s`hasHandle
      modifies w`remotes, w.remotes, w.publishers`children, w.publishers`remotePublishers, w.publishers`subscribers
      ensures Inv(w.State()) && fresh(w.remotes - old(w.remotes))
      ensures outcome.Done? <==>
                && joinOk && requests != [] && (forall i :: 0 <= i < |requests| ==> Servable(requests[i], participants))
                && ps != {}
                && old(JoinFits(s.cascadeEnabled, ps, b, started, published))
      ensures outcome.Raised? ==> w.Links() == old(w.Links())
      ensures outcome.Done? ==> s.room == this
      ensures outcome.Done? ==>
                s.feeds == map u | u in DataIds(reply) + MediaIds(reply) && u in participants :: participants[u]
    {
      hide *;
      var offered;
      outcome, offered := s.Join(w, this, b, requests, started, published, joinOk, reply, now);
      assert OfferedBy(requests, participants) == ps;
    }

    /** A subscriber can be served with the publishers `ps`: from the only one's own backend room without cascade, else
        from the backend room of its owner for the `first` subscription, or else from the one that the random choice
        falls on, or from a new one, on which every publisher can serve. */
    ghost predicate CanServeSubscriber(ps: set<Publisher>, first: bool, owner: Publisher?, cascade: bool, pick: string,
                                       server: ServerChoice, activateOk: bool, started: set<Publisher>,
                                       published: set<Publisher>)
      reads this`backendRooms, backendRooms.Values`active
      reads ps`destroyed, ps`hasHandle, ps`webrtcStarted, ps`backendRoom, ps`remotePublishers
      reads (set p, x | p in ps && x in p.remotePublishers.Values :: x)`backendRoom
      reads (if owner != null then {owner} else {})`backendRoom
      reads (if owner != null && owner.backendRoom != null then {owner.backendRoom} else {})`active
    {
      if !cascade then |ps| == 1 && forall p :: p in ps ==> p.backendRoom != null
      else if first then
        && owner != null && owner.backendRoom != null
        && AllCanServe(ps, owner.backendRoom, owner.backendRoom.active, started, published)
      else if backendRooms != map[] then
        && pick in backendRooms && (activateOk || backendRooms[pick].active)
        && AllCanServe(ps, backendRooms[pick], true, started, published)
      else
        && server.Server? && activateOk
        && forall p :: p in ps ==>
             && !p.destroyed && p.hasHandle && p.cascadeEnabled && p.webrtcStarted && p.backendRoom != null
             && server.name !in p.remotePublishers && p in started && p in published
    }

    /** Case by case, whether the publishers `ps` can be served, and where. */
    lemma CanServeSubscriberIs(ps: set<Publisher>, first: bool, owner: Publisher?, cascade: bool, pick: string,
                               server: ServerChoice, activateOk: bool, started: set<Publisher>,
                               published: set<Publisher>)
      requires first ==> owner != null
      requires backendRooms != map[] ==> pick in backendRooms
      ensures var can := CanServeSubscriber(ps, first, owner, cascade, pick, server, activateOk, started, published);
              && (!cascade ==> (can <==> |ps| == 1 && forall p :: p in ps ==> p.backendRoom != null))
              && (cascade && first ==> (can <==> owner.backendRoom != null && forall p :: p in ps ==>
                    p.CanServe(owner.backendRoom, owner.backendRoom.active, p in started, p in published)))
              && (cascade && !first && backendRooms != map[] ==>
                    (can <==> (activateOk || backendRooms[pick].active) && forall p :: p in ps ==>
                      p.CanServe(backendRooms[pick], true, p in started, p in published)))
              && (cascade && !first && backendRooms == map[] ==>
                    (can <==> server != NoServer && activateOk && forall p :: p in ps ==>
                      (p.Refusal() == Done && p.backendRoom != null && server.name !in p.remotePublishers
                       && p in started && p in published)))
    {
      forall p | p in ps
        ensures p.Refusal() == Done <==> !p.destroyed && p.hasHandle && p.cascadeEnabled && p.webrtcStarted
      {
        p.RefusalIs();
      }
    }

    /** Chooses a backend room for subscriber `s`, on which it is known whether the publishers `ps` can serve. */
    method ChooseServing(ghost w: World, s: Subscriber, pick: string, server: ServerChoice, activateOk: bool,
                         ghost ps: set<Publisher>, ghost started: set<Publisher>, ghost published: set<Publisher>)
      returns (outcome: Outcome, b: BackendRoom?)
      requires this in w.rooms && !destroyed && Inv(w.State()) && (backendRooms != map[] ==> pick in backendRooms)
      modifies w.rooms`backendRooms, w`backends, w.backends`active
      ensures Inv(w.State()) && w.Links() == old(w.Links()) && w.Trees() == old(w.Trees())
      ensures old(CanServeSubscriber(ps, s.owner != null && |s.owner.subscriptions| == 1, s.owner, s.cascadeEnabled,
                pick,
                                     server, activateOk, started, published)) <==>
                && outcome.Done?
                && JoinFits(s.cascadeEnabled, ps, b, started, published)
    {
      hide Inv, World.State, World.Trees, World.Links, World.Index, DecidesByLoad, Servable, OfferedBy,
        Publisher.CanServe;
      hide AllCanServe;
      outcome, b := ChooseForSubscriber(w, s, pick, server, activateOk);
      if outcome.Done? && s.cascadeEnabled && b != null && fresh(b) {
        AllServeFresh(ps, b, started, published);
      }
    }

    /** The backend room for a subscriber in cascade mode: the owner's for its first subscription, else a random one. */
    method ChooseForSubscriber(ghost w: World, s: Subscriber, pick: string, server: ServerChoice, activateOk: bool)
      returns (outcome: Outcome, b: BackendRoom?)
      requires this in w.rooms && !destroyed && Inv(w.State()) && (backendRooms != map[] ==> pick in backendRooms)
      modifies w.rooms`backendRooms, w`backends, w.backends`active
      ensures Inv(w.State()) && w.Links() == old(w.Links()) && w.Trees() == old(w.Trees())
      ensures outcome.Done? <==>
                || !s.cascadeEnabled || (s.owner != null && |s.owner.subscriptions| == 1)
                || (if old(backendRooms) == map[] then server.Server? && activateOk
                    else activateOk || old(pick in backendRooms && backendRooms[pick].active))
      ensures outcome.Done? && s.cascadeEnabled && !(s.owner != null && |s.owner.subscriptions| == 1) ==>
                && b != null && b.active
                && (if old(backendRooms) == map[] then fresh(b) && server.Server? && b.serverName == server.name
                    else b == old(backendRooms)[pick])
      ensures !s.cascadeEnabled ==> outcome == Done && b == null
      ensures s.cascadeEnabled && s.owner != null && |s.owner.subscriptions| == 1 ==>
                && outcome == Done && b == s.owner.backendRoom
                && (s.owner.backendRoom != null ==> s.owner.backendRoom.active == old(s.owner.backendRoom.active))
    {
      hide *;
      if !s.cascadeEnabled {
        return Done, null;
      }
      if s.owner != null && |s.owner.subscriptions| == 1 {
        return Done, s.owner.backendRoom;
      }
      if backendRooms == map[] {
        NeverByLoad();
        outcome, b := ChooseBackendRoom(w, server, activateOk);
      } else {
        HostReady(w.State(), this, pick) by { w.RoomEntry(this); }
        HostListed(w, backendRooms[pick]);
        w.RoomEntry(this);
        b := backendRooms[pick];
        outcome := b.Activate(activateOk);
      }
    }

    /** Creates the subscriber; destroying it would take that back. */
    method AddSubscriber(ghost w: World, owner: Publisher?, cascade: bool) returns (s: Subscriber)
      requires this in w.rooms && Inv(w.State())
      requires owner != null ==> owner in w.publishers && owner in w.Trees().pubs && !w.Trees().pubs[owner].destroyed
      modifies w`subscribers, (if owner != null then {owner} else {})`subscriptions
      ensures fresh(s) && w.subscribers == old(w.subscribers) + {s} && s.cascadeEnabled == cascade
      ensures owner != null ==> (|owner.subscriptions| == 1 <==> old(owner.subscriptions) == {})
      ensures !s.hasHandle
      ensures !s.destroyed && s.room == null && s.owner == owner && Inv(w.State())
      ensures s in w.Links().subs && SubscriberGone(w.Links(), s).pubs == old(w.Links()).pubs
    {
      hide *;
      ghost var st := w.State();
      w.KnownSubscribers();
      s := CreateSubscriber(w, owner, cascade);
      if owner != null { FirstOne(old(owner.subscriptions), s); }
      WithSubscriptionKeepsInv(st, s, owner);
      WithSubscriptionIs(st, s, owner);
      SubscriptionTakenBack(st, s, owner);
      w.SubscriberState(s);
    }

    method RegisterSubscriber(ghost w: World, owner: Publisher?, cascade: bool) returns (s: Subscriber)
      modifies w`subscribers
      ensures fresh(s) && w.subscribers == old(w.subscribers) + {s} && s.cascadeEnabled == cascade
      ensures !s.hasHandle
      ensures !s.destroyed && s.room == null && s.owner == owner
      ensures w.Links() == old(w.Links()).(subs := old(w.Links()).subs[s :=
                SubscriberLinks(false, null, null, map[], owner)])
    {
      s := new Subscriber(owner, cascade);
      w.subscribers := w.subscribers + {s};
      assert w.Links().subs == old(w.Links()).subs[s := SubscriberLinks(false, null, null, map[], owner)];
    }

    method CreateSubscriber(ghost w: World, owner: Publisher?, cascade: bool) returns (s: Subscriber)
      requires owner != null ==> owner in w.publishers
      modifies w`subscribers, (if owner != null then {owner} else {})`subscriptions
      ensures fresh(s) && w.subscribers == old(w.subscribers) + {s} && s.cascadeEnabled == cascade
      ensures owner != null ==> owner.subscriptions == old(owner.subscriptions) + {s}
      ensures !s.hasHandle
      ensures !s.destroyed && s.room == null && s.owner == owner
      ensures w.Trees() == old(w.Trees()) && w.Index() == old(w.Index())
      ensures w.Links() == Owned(old(w.Links()), s, owner)
    {
      hide *;
      ghost var l := w.Links();
      if owner != null { w.PublisherEntry(owner); }
      s := RegisterSubscriber(w, owner, cascade);
      OwnedInSteps(l, s, owner);
      if owner != null {
        owner.AddSubscription(w, s);
      }
    }

    method CloseAndTell(ghost w: World)
      requires this in w.rooms && participants.Values <= w.publishers && w.publishers == w.Index().pubs.Keys
      requires this in w.Index().rooms
      requires RoomClosing(w.Index(), this, {}) ==
               w.Index().(rooms := w.Index().rooms[this := RoomTable(true, map[], map[], map[], idleTs)])
      modifies this`destroyed, this`participants, this`privateIds, this`creatingIds, this`backendRooms
      modifies w.publishers`room
      ensures destroyed && w.Trees() == old(w.Trees()) && w.Links() == old(w.Links())
      ensures w.Index() == RoomClosing(old(w.Index()), this, old(participants.Values))
    {
      hide *;
      ghost var i := w.Index();
      var present := CloseTables(w);
      var pending := present;
      assert present - pending == {};
      while pending != {}
        invariant destroyed && pending <= present && w.Index() == RoomClosing(i, this, present - pending)
        decreases |pending|
      {
        var publisher :| publisher in pending;
        Tell(w, publisher, i, present, pending);
        pending := pending - {publisher};
      }
      assert present - pending == present;
    }

    /** One participant of the destroyed room is told: it sits in no room any more. */
    method Tell(ghost w: World, publisher: Publisher, ghost i: IndexTable, ghost present: set<Publisher>,
                ghost pending: set<Publisher>)
      requires this in i.rooms && publisher in i.pubs && publisher in pending && pending <= present
      requires publisher in w.publishers && w.Index() == RoomClosing(i, this, present - pending)
      modifies publisher`room
      ensures w.Index() == RoomClosing(i, this, present - (pending - {publisher}))
    {
      hide *;
      RoomClosingStep(i, this, present - pending, publisher);
      assert present - pending + {publisher} == present - (pending - {publisher});
      w.SeatEntry(publisher);
      publisher.SetRoom(w, null);
    }

    method CloseTables(ghost w: World) returns (present: set<Publisher>)
      requires this in w.rooms
      modifies this`destroyed, this`participants, this`privateIds, this`creatingIds, this`backendRooms
      ensures destroyed && present == old(participants).Values
      ensures w.Index() == old(w.Index()).(rooms := old(w.Index()).rooms[this :=
                RoomTable(true, map[], map[], map[], idleTs)])
    {
      hide *;
      destroyed := true;
      present := participants.Values;
      participants, privateIds, creatingIds, backendRooms := map[], map[], {}, map[];
      w.OneRoomChanged(this);
      w.RoomEntry(this);
    }

    method OnParticipantDestroy(ghost w: World, participantId: int, now: Time)
      requires this in w.rooms
      modifies this`participants, this`privateIds, this`idleTs
      ensures w.Index().pubs == old(w.Index()).pubs && w.Index().backs == old(w.Index()).backs
      ensures w.Index().rooms == old(w.Index()).rooms[this := Table()]
      ensures participantId in old(participants) ==>
                Table() == RoomWithout(old(Table()), participantId, old(participants[participantId].pvtId), now)
      ensures participantId !in old(participants) ==> Table() == old(Table())
    {
      if participantId !in participants {
        return;
      }
      var publisher := participants[participantId];
      participants := participants - {participantId};
      privateIds := privateIds - {publisher.pvtId};
      var _ := CheckIdle(now);
    }
  }

  class BackendRoom {
    const serverName: string
    var room: VideoRoom?
    var destroyed: bool
    var active: bool
    var publishers: set<int>

    ghost function Table(): BackendTable
      reads this`destroyed, this`room, this`publishers
    {
      BackendTable(destroyed, room, publishers)
    }

    constructor (r: VideoRoom, name: string)
      ensures Table() == BackendTable(false, r, {}) && serverName == name && !active && !destroyed
    {
      serverName, room, destroyed, active, publishers := name, r, false, false, {};
    }

    /** Creates the room on the backend server, unless that was done before. */
    method Activate(activateOk: bool) returns (outcome: Outcome)
      modifies this`active
      ensures outcome == if destroyed then Raised(NoSuchRoom) else if old(active) || activateOk then Done
                else Raised(BackendError)
      ensures active == (old(active) || outcome.Done?)
    {
      if destroyed {
        return Raised(NoSuchRoom);
      }
      if active {
        return Done;
      }
      active := activateOk;
      return if activateOk then Done else Raised(BackendError);
    }

    method MarkDestroyed(ghost w: World) returns (r: VideoRoom?)
      requires this in w.backends
      modifies this`destroyed, this`publishers, this`room, this`active
      ensures r == old(room) && destroyed && !active
      ensures w.Index() == old(w.Index()).(backs := old(w.Index()).backs[this := BackendTable(true, null, {})])
    {
      destroyed, publishers := true, {};
      r := room;
      room := null;
      active := false;
    }

    /** Takes this backend room out of its room. */
    method Destroy(ghost w: World)
      requires this in w.backends && Inv(w.State())
      modifies this`destroyed, this`publishers, this`room, this`active, w.rooms`backendRooms
      ensures destroyed
      ensures Inv(w.State())
      ensures w.State() == if old(destroyed) then old(w.State())
                else old(w.State()).(index := BackendDown(old(w.Index()), this))
    {
      hide *;
      if destroyed {
        return;
      }
      ghost var st := w.State();
      w.BackendEntry(this);
      BackendDownKeepsInv(st, this);
      var r := MarkDestroyed(w);
      BackendDownIs(st.index, this, r);
      w.RoomEntry(r);
      r.OnBackendRoomDestroy(w, this);
      w.RoomEntry(r);
    }

    /** The control handle on the backend server is closed. */
    method OnClose(ghost w: World)
      requires this in w.backends && Inv(w.State())
      modifies this`destroyed, this`publishers, this`room, this`active, w.rooms`backendRooms
      ensures Inv(w.State())
      ensures w.State() == if !old(active) || old(destroyed) then old(w.State())
                           else old(w.State()).(index := BackendDown(old(w.Index()), this))
    {
      hide *;
      if active {
        active := false;
        Destroy(w);
      }
    }

    method AddPublisher(ghost w: World, userId: int)
      requires this in w.backends
      modifies this`publishers
      ensures w.Index() == old(w.Index()).(backs := old(w.Index()).backs[this := BackendTable(destroyed, room,
                old(publishers) + {userId})])
    {
      publishers := publishers + {userId};
    }

    method DelPublisher(ghost w: World, userId: int)
      requires this in w.backends
      modifies this`publishers
      ensures w.Index() == old(w.Index()).(backs := old(w.Index()).backs[this := BackendTable(destroyed, room,
                old(publishers) - {userId})])
    {
      publishers := publishers - {userId};
    }
  }

  class VideoRoomManager {
    const autoCleanupSec: int
    var rooms: map<int, VideoRoom>

    /** Every listed room is alive and listed once. */
    ghost predicate Valid(w: World)
      reads this, w`rooms, rooms.Values`destroyed
    {
      && rooms.Values <= w.rooms
      && (forall room :: room in rooms.Values ==> !room.destroyed)
      && (forall id :: id in rooms ==> rooms[id].roomId == id)
    }

    /** A cleanup period below a minute is raised to a minute; 0 switches the cleanup off. */
    constructor (seconds: int)
      ensures rooms == map[] && autoCleanupSec == if 0 < seconds < 60 then 60 else seconds
    {
      autoCleanupSec := if 0 < seconds < 60 then 60 else seconds;
      rooms := map[];
    }

    /** Creates room `id`; `backendRoomId` is the drawn id of its backend rooms, `atLeast` how many publishers are
        wanted
        on one of them before another is used. */
    method Create(ghost w: World, id: int, backendRoomId: int, requirePvtId: bool, atLeast: int, now: Time)
      returns (outcome: Outcome)
      requires Valid(w) && Inv(w.State())
      modifies this`rooms, w`rooms
      ensures Valid(w) && Inv(w.State())
      ensures outcome == if id in old(rooms) then Raised(RoomExists) else Done
      ensures outcome.Raised? ==> rooms == old(rooms) && w.State() == old(w.State())
      ensures outcome.Done? ==>
                id in rooms && rooms == old(rooms)[id := rooms[id]] && fresh(rooms[id])
                  && rooms[id].participants == map[]
      ensures outcome.Done? ==> rooms[id].backendRoomId == backendRoomId && rooms[id].requirePvtId == requirePvtId
      ensures outcome.Done? ==> rooms[id].minPublishers == atLeast && rooms[id].creatingIds == {}
      ensures outcome.Done? ==> rooms[id].idleTs == now && !rooms[id].destroyed && rooms[id].backendRooms == map[]
      ensures outcome.Done? ==> w.State() == old(w.State()).(index := WithRoom(old(w.Index()), rooms[id], now))
    {
      hide Inv, World.State, World.Index, World.Trees, World.Links, WithRoom;
      if id in rooms {
        return Raised(RoomExists);
      }
      ghost var st := w.State();
      w.KnownRooms();
      var room := NewRoom(w, id, backendRoomId, requirePvtId, atLeast, now);
      assert room.Table() == RoomTable(room.destroyed, room.participants, room.privateIds, room.backendRooms,
          room.idleTs);
      WithRoomKeepsInv(st, room, now);
      w.KnownRooms();
      rooms := rooms[id := room];
      return Done;
    }

    method NewRoom(ghost w: World, id: int, backendRoomId: int, requirePvtId: bool, atLeast: int, now: Time)
      returns (room: VideoRoom)
      modifies w`rooms
      ensures fresh(room) && w.rooms == old(w.rooms) + {room} && room.roomId == id && !room.destroyed
      ensures room.participants == map[]
      ensures room.backendRoomId == backendRoomId && room.requirePvtId == requirePvtId && room.minPublishers == atLeast
      ensures room.Table() == RoomTable(false, map[], map[], map[], now) && room.creatingIds == {}
      ensures w.Index() == WithRoom(old(w.Index()), room, now)
    {
      room := new VideoRoom(id, backendRoomId, requirePvtId, atLeast, now);
      w.rooms := w.rooms + {room};
      assert w.Index().rooms == WithRoom(old(w.Index()), room, now).rooms;
    }

    /** Destroys room `id`. */
    method DestroyRoom(ghost w: World, id: int) returns (outcome: Outcome)
      requires Valid(w) && Inv(w.State())
      modifies this`rooms, rooms.Values, w.publishers`room
      ensures Valid(w) && Inv(w.State())
      ensures outcome == if id in old(rooms) then Done else Raised(NoSuchRoom)
      ensures rooms == old(rooms) - {id}
      ensures outcome.Done? ==> w.State() == old(w.State()).(index := RoomDown(old(w.Index()), old(rooms[id])))
    {
      hide Inv, World.State, World.Index, World.Trees, World.Links, RoomDown;
      if id !in rooms {
        return Raised(NoSuchRoom);
      }
      var room := rooms[id];
      ghost var listed := rooms;
      rooms := rooms - {id};
      assert forall j :: j in rooms ==> rooms[j] in listed.Values && rooms[j] != room;
      room.Destroy(w);
      return Done;
    }

    /** One round of the cleanup routine: unlists and destroys exactly the rooms whose idle period is longer
        than the cleanup period. */
    method Cleanup(ghost w: World, now: Time)
      requires Valid(w) && Inv(w.State()) && autoCleanupSec > 0
      modifies this`rooms, rooms.Values, w.publishers`room
      ensures Valid(w) && Inv(w.State())
      ensures rooms == map id | id in old(rooms) && !old(rooms[id].IdleFor(autoCleanupSec, now)) :: old(rooms)[id]
      ensures forall id :: id in old(rooms) ==>
                (id in rooms <==> old(rooms[id].participants) != map[] || now - old(rooms[id].idleTs) <= autoCleanupSec)
      ensures forall room :: room in old(rooms.Values) && old(room.IdleFor(autoCleanupSec, now)) ==> room.destroyed
      ensures w.State() == old(w.State()).(index := RoomsDown(old(w.State()).index, old(IdleRooms(now))))
    {
      hide Inv, World.State, World.Index, VideoRoom.IdleFor, RoomsDown, Valid;
      ValidRooms(w);
      IdleRoomsAre(now);
      ghost var idle := IdleRooms(now);
      var expired := Expired(w, now);
      assert expired == idle;
      Unlist(expired);
      DestroyAll(w, expired);
      StillValid(w);
    }

    /** Takes the rooms `expired` off the list. */
    method Unlist(expired: set<VideoRoom>)
      modifies this`rooms
      ensures rooms == map id | id in old(rooms) && old(rooms)[id] !in expired :: old(rooms)[id]
      ensures forall room :: room in rooms.Values ==> room in old(rooms).Values && room !in expired
    {
      ghost var listed := rooms;
      rooms := map id | id in rooms && rooms[id] !in expired :: rooms[id];
      assert forall id :: id in listed ==> listed[id] in listed.Values;
    }

    ghost function IdleRooms(now: Time): set<VideoRoom>
      reads this`rooms, rooms.Values`participants, rooms.Values`idleTs
    {
      set room | room in rooms.Values && room.IdleFor(autoCleanupSec, now)
    }

    lemma IdleRoomsAre(now: Time)
      ensures forall room :: room in IdleRooms(now) <==> room in rooms.Values && room.IdleFor(autoCleanupSec, now)
    {
    }

    lemma ValidRooms(w: World)
      requires Valid(w)
      ensures rooms.Values <= w.rooms && (forall room :: room in rooms.Values ==> !room.destroyed)
      ensures forall id :: id in rooms ==> rooms[id].roomId == id
    {
    }

    lemma StillValid(w: World)
      requires rooms.Values <= w.rooms && (forall room :: room in rooms.Values ==> !room.destroyed)
      requires forall id :: id in rooms ==> rooms[id].roomId == id
      ensures Valid(w)
    {
    }

    method DestroyAll(ghost w: World, expired: set<VideoRoom>)
      requires expired <= w.rooms && Inv(w.State()) && forall room :: room in expired ==> !room.destroyed
      modifies expired, w.publishers`room
      ensures Inv(w.State()) && forall room :: room in expired ==> room.destroyed
      ensures w.State() == old(w.State()).(index := RoomsDown(old(w.State()).index, expired))
    {
      hide *;
      ghost var st := w.State();
      w.KnownRooms();
      NoRoomsDown(st.index);
      var pending := expired;
      assert expired - pending == {};
      while pending != {}
        invariant pending <= expired && Inv(w.State())
        invariant forall room :: room in expired ==> (room.destroyed <==> room !in pending)
        invariant w.State() == st.(index := RoomsDown(st.index, expired - pending))
        decreases |pending|
      {
        var room :| room in pending;
        DestroyNext(w, room, st, expired, pending);
        pending := pending - {room};
      }
      assert expired - pending == expired;
    }

    method DestroyNext(ghost w: World, room: VideoRoom, ghost st: ProxyState, ghost expired: set<VideoRoom>,
                       ghost pending: set<VideoRoom>)
      requires room in w.rooms && Inv(w.State()) && room in st.index.rooms
      requires room in pending && pending <= expired
      requires forall x :: x in expired ==> (x.destroyed <==> x !in pending)
      requires w.State() == st.(index := RoomsDown(st.index, expired - pending))
      modifies room, w.publishers`room
      ensures Inv(w.State()) && w.State() == st.(index := RoomsDown(st.index, expired - (pending - {room})))
      ensures forall x :: x in expired ==> (x.destroyed <==> x !in pending - {room})
    {
      hide *;
      RoomsDownStep(st.index, expired - pending, room);
      assert expired - pending + {room} == expired - (pending - {room});
      w.KnownRooms();
      room.Destroy(w);
    }

    /** The loop that looks for idle rooms. */
    method Expired(ghost w: World, now: Time) returns (expired: set<VideoRoom>)
      requires Valid(w) && Inv(w.State())
      modifies rooms.Values`idleTs
      ensures expired <= rooms.Values
      ensures forall room :: room in rooms.Values ==> (room in expired <==> old(room.IdleFor(autoCleanupSec, now)))
      ensures Inv(w.State()) && w.State() == old(w.State())
    {
      hide Inv, World.State;
      expired := {};
      var pending := rooms.Values;
      while pending != {}
        invariant pending <= rooms.Values && expired <= rooms.Values - pending
        invariant forall room :: room in rooms.Values - pending ==>
                  (room in expired <==> old(room.IdleFor(autoCleanupSec, now)))
        invariant w.State() == old(w.State()) && forall room :: room in rooms.Values ==> room.idleTs == old(room.idleTs)
        decreases |pending|
      {
        var room :| room in pending;
        var timedOut := room.CheckExpired(w, autoCleanupSec, now);
        if timedOut {
          expired := expired + {room};
        }
        pending := pending - {room};
      }
    }
  }
}
