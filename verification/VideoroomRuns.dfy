/** Whole runs of the videoroom proxy: any sequence of the steps that the methods of the plugin make, from a proxy
    without any object, with every answer of the backend servers. */
module VideoroomRuns {

  import opened Common
  import opened Videoroom

  datatype Step =
    | RoomCreated(r: VideoRoom, now: Time)
    | RoomDestroyed(r: VideoRoom)
    | BackendCreated(r: VideoRoom, b: BackendRoom)
    | BackendLost(b: BackendRoom)
    | PublisherCreated(p: Publisher)
    | PublisherJoined(p: Publisher, r: VideoRoom, b: BackendRoom, pvtId: int)
    | PublisherStarts(p: Publisher)
    | PublisherHangsUp(p: Publisher)
    | PublisherLeaves(p: Publisher, now: Time)
    | RemoteAdded(p: Publisher, x: RemotePublisher, b: BackendRoom, via: RemotePublisher?, now: Time)
    | RemoteRefused(p: Publisher, x: RemotePublisher, v: RemoteNode, parent: Parent, now: Time)
    | RemoteReaped(x: RemotePublisher, now: Time)
    | SubscriberCreated(s: Subscriber, owner: Publisher?)
    | SubscriberJoined(s: Subscriber, r: VideoRoom, b: BackendRoom)
    | FeedsAdded(s: Subscriber, added: map<int, Publisher>)
    | FeedsRemoved(s: Subscriber, ids: set<int>, now: Time)
    | SubscriberHangsUp(s: Subscriber, now: Time)
    | SubscriberLeaves(s: Subscriber, now: Time)

  ghost predicate Known(st: ProxyState, p: Publisher) {
    p in st.trees.pubs && p in st.links.pubs && p in st.index.pubs
  }

  /** A living remote publisher that nobody uses. */
  ghost predicate Unused(st: ProxyState, x: RemotePublisher) {
    x in st.trees.rems && !st.trees.rems[x].destroyed && st.trees.rems[x].children == {}
      && st.trees.rems[x].subscribers == {}
  }

  /** The guards under which the plugin makes a step. A new object is one that the proxy does not know yet. */
  ghost predicate Enabled(st: ProxyState, e: Step) {
    match e
    case RoomCreated(r, now) => r !in st.index.rooms
    case RoomDestroyed(r) => r in st.index.rooms
    case BackendCreated(r, b) => r in st.index.rooms && !st.index.rooms[r].destroyed && b !in st.index.backs
                                 && b.serverName !in st.index.rooms[r].backends
    case BackendLost(b) => b in st.index.backs && !st.index.backs[b].destroyed
    case PublisherCreated(p) => p !in st.trees.pubs
    case PublisherJoined(p, r, b, pvtId) => Known(st, p) && !st.trees.pubs[p].destroyed
        && CanPlace(st.index, p, r, b, pvtId)
    case PublisherStarts(p) => Known(st, p) && !st.trees.pubs[p].destroyed
    case PublisherHangsUp(p) => Known(st, p)
    case PublisherLeaves(p, now) => Known(st, p)
    case RemoteAdded(p, x, b, via, now) => CanCascade(st.trees, p, x, b.serverName)
        && InTree(st.trees, p, TreeNode(p, via))
    case RemoteRefused(p, x, v, parent, now) => x !in st.trees.rems
        && (parent == NoParent || InTree(st.trees, p, parent))
    case RemoteReaped(x, now) => Unused(st, x) && now - st.trees.rems[x].idleTs > REMOTE_IDLE_TIMEOUT
    case SubscriberCreated(s, owner) => s !in st.links.subs
        && (owner != null ==> Known(st, owner) && !st.trees.pubs[owner].destroyed)
    case SubscriberJoined(s, r, b) => s in st.links.subs && st.links.subs[s].room == null && r in st.index.rooms
    case FeedsAdded(s, added) => CanSubscribe(st, s, added)
    case FeedsRemoved(s, ids, now) => s in st.links.subs && ids <= st.links.subs[s].feeds.Keys
    case SubscriberHangsUp(s, now) => s in st.links.subs
    case SubscriberLeaves(s, now) => s in st.links.subs
  }

  ghost function After(st: ProxyState, e: Step): ProxyState
    requires Enabled(st, e)
  {
    match e
    case RoomCreated(r, now) => st.(index := WithRoom(st.index, r, now))
    case RoomDestroyed(r) => st.(index := RoomDown(st.index, r))
    case BackendCreated(r, b) => st.(index := Hosted(st.index, r, b))
    case BackendLost(b) => st.(index := BackendDown(st.index, b))
    case PublisherCreated(p) => WithPublisher(st, p)
    case PublisherJoined(p, r, b, pvtId) => st.(index := Placed(st.index, p, r, b, pvtId))
    case PublisherStarts(p) => st.(trees := WithStarted(st.trees, p))
    case PublisherHangsUp(p) => PublisherHungUp(st, p)
    case PublisherLeaves(p, now) => PublisherDestroyed(st, p, now)
    case RemoteAdded(p, x, b, via, now) =>
      st.(trees := Cascaded(st.trees, p, x, b, now, TreeNode(p, via)))
    case RemoteRefused(p, x, v, parent, now) => st.(trees := CascadeUndone(st.trees, x, v, parent, now))
    case RemoteReaped(x, now) => st.(trees := TearDown(st.trees, {x}, {x}, now))
    case SubscriberCreated(s, owner) => WithSubscription(st, s, owner)
    case SubscriberJoined(s, r, b) => Entered(st, s, r, b)
    case FeedsAdded(s, added) => SubscribedState(st, s, added)
    case FeedsRemoved(s, ids, now) => UnsubscribedState(st, s, ids, now)
    case SubscriberHangsUp(s, now) => SubscriberHungUp(st, s, now)
    case SubscriberLeaves(s, now) => SubscriberDestroyed(st, s, now)
  }

  /** An unused remote publisher is a subtree of its own. */
  lemma UnusedIsLeaf(g: Forest, x: RemotePublisher)
    requires x in Alive(g) && g.rems[x].children == {}
    ensures IsSubtree(g, {x}, {x})
  {
  }

  lemma StepKeepsInv(st: ProxyState, e: Step)
    requires Inv(st) && Enabled(st, e)
    ensures Inv(After(st, e))
  {
    hide Inv;
    match e
    case RoomCreated(r, now) => WithRoomKeepsInv(st, r, now);
    case RoomDestroyed(r) => RoomDownKeepsInv(st, r);
    case BackendCreated(r, b) => HostedKeepsInv(st, r, b);
    case BackendLost(b) => BackendDownKeepsInv(st, b);
    case PublisherCreated(p) => WithPublisherKeepsInv(st, p);
    case PublisherJoined(p, r, b, pvtId) => PlacedKeepsInv(st, p, r, b, pvtId);
    case PublisherStarts(p) => StartedKeepsInv(st, p);
    case PublisherHangsUp(p) => PublisherHungUpKeepsInv(st, p);
    case PublisherLeaves(p, now) => PublisherDestroyedKeepsInv(st, p, now);
    case RemoteAdded(p, x, b, via, now) => CascadeSucceeds(st, p, x, b, now, via);
    case RemoteRefused(p, x, v, parent, now) => CascadeUndoneKeepsInv(st, p, x, v, parent, now);
    case RemoteReaped(x, now) =>
      UnusedIsLeaf(st.trees, x);
      SubtreeDownKeepsInv(st, x, {x}, now);
    case SubscriberCreated(s, owner) => WithSubscriptionKeepsInv(st, s, owner);
    case SubscriberJoined(s, r, b) => EnteredKeepsInv(st, s, r, b);
    case FeedsAdded(s, added) => SubscribedKeepsInv(st, s, added);
    case FeedsRemoved(s, ids, now) => DropReady(st, s, ids, set u | u in ids :: st.links.subs[s].feeds[u], now);
    case SubscriberHangsUp(s, now) => SubscriberHungUpKeepsInv(st, s, now);
    case SubscriberLeaves(s, now) => SubscriberDestroyedKeepsInv(st, s, now);
  }

  // ---------- The methods make these steps ----------

  /** What the methods of a publisher come to, under their own preconditions. */
  lemma PublisherMakesSteps(st: ProxyState, p: Publisher, now: Time)
    requires Inv(st) && p in st.trees.pubs
    ensures var e := PublisherLeaves(p, now); Enabled(st, e) && After(st, e) == PublisherDestroyed(st, p, now)
    ensures var e := PublisherHangsUp(p); Enabled(st, e) && After(st, e) == PublisherHungUp(st, p)
    ensures !st.trees.pubs[p].destroyed ==>
              var e := PublisherStarts(p); Enabled(st, e) && After(st, e) == st.(trees := WithStarted(st.trees, p))
  {
  }

  /** What a cascade comes to, whether it succeeds or fails. */
  lemma CascadeMakesSteps(st: ProxyState, n: ProxyState, p: Publisher, x: RemotePublisher, b: BackendRoom,
                          via: RemotePublisher?, now: Time)
    requires Inv(st)
    ensures Cascades(st, n, p, x, b, via, now) ==>
              Enabled(st, RemoteAdded(p, x, b, via, now)) && n == After(st, RemoteAdded(p, x, b, via, now))
    ensures FailsToCascade(st, n, p, x, b, via, now) && InTree(st.trees, p, TreeNode(p, via)) ==>
              var v := NewNode(p, b.serverName, null, now, DepthBelow(st.trees, TreeNode(p, via)));
              || (Enabled(st, RemoteRefused(p, x, v, NoParent, now))
                 && n == After(st, RemoteRefused(p, x, v, NoParent, now)))
              || (Enabled(st, RemoteRefused(p, x, v, TreeNode(p, via), now))
                  && n == After(st, RemoteRefused(p, x, v, TreeNode(p, via), now)))
  {
    hide Inv;
  }

  /** What the idle check of a remote publisher comes to when it reaps. */
  lemma IdleCheckMakesStep(st: ProxyState, x: RemotePublisher, now: Time)
    requires Inv(st) && x in st.trees.rems && !st.trees.rems[x].destroyed
    requires st.trees.rems[x].children == {} && st.trees.rems[x].subscribers == {}
    requires now - st.trees.rems[x].idleTs > REMOTE_IDLE_TIMEOUT
    ensures var e := RemoteReaped(x, now);
      Enabled(st, e) && After(st, e) == st.(trees := TearDown(st.trees, {x}, {x}, now))
  {
  }

  /** What the methods of a subscriber come to. */
  lemma SubscriberMakesSteps(st: ProxyState, s: Subscriber, now: Time)
    requires Inv(st) && s in st.links.subs
    ensures var e := SubscriberLeaves(s, now); Enabled(st, e) && After(st, e) == SubscriberDestroyed(st, s, now)
    ensures var e := SubscriberHangsUp(s, now); Enabled(st, e) && After(st, e) == SubscriberHungUp(st, s, now)
  {
    hide Inv;
  }

  lemma FeedsMakeSteps(st: ProxyState, s: Subscriber, r: VideoRoom, b: BackendRoom, added: map<int, Publisher>,
                       ids: set<int>, now: Time)
    requires Inv(st) && s in st.links.subs
    ensures st.links.subs[s].room == null && r in st.index.rooms ==>
              var e := SubscriberJoined(s, r, b); Enabled(st, e) && After(st, e) == Entered(st, s, r, b)
    ensures CanSubscribe(st, s, added) ==>
              var e := FeedsAdded(s, added); Enabled(st, e) && After(st, e) == SubscribedState(st, s, added)
    ensures ids <= st.links.subs[s].feeds.Keys ==>
              var e := FeedsRemoved(s, ids, now); Enabled(st, e) && After(st, e) == UnsubscribedState(st, s, ids, now)
  {
    hide Inv;
  }

  /** What the methods of a room and of its backend rooms come to; a newcomer is created and then placed. */
  lemma RoomMakesSteps(st: ProxyState, r: VideoRoom, b: BackendRoom, p: Publisher, pvtId: int, now: Time)
    requires Inv(st)
    ensures r !in st.index.rooms ==>
              var e := RoomCreated(r, now); Enabled(st, e) && After(st, e) == st.(index := WithRoom(st.index, r, now))
    ensures r in st.index.rooms ==>
              var e := RoomDestroyed(r); Enabled(st, e) && After(st, e) == st.(index := RoomDown(st.index, r))
    ensures r in st.index.rooms && !st.index.rooms[r].destroyed && b !in st.index.backs
            && b.serverName !in st.index.rooms[r].backends ==>
              var e := BackendCreated(r, b); Enabled(st, e) && After(st, e) == Chosen(st, r, b)
    ensures b in st.index.backs && !st.index.backs[b].destroyed ==>
              var e := BackendLost(b); Enabled(st, e) && After(st, e) == st.(index := BackendDown(st.index, b))
    ensures p !in st.trees.pubs && r in st.index.rooms && b in st.index.backs
              && CanPlace(WithPublisher(st, p).index, p, r, b, pvtId) ==>
              var (e, f) := (PublisherCreated(p), PublisherJoined(p, r, b, pvtId));
              Enabled(st, e) && Enabled(After(st, e), f) && After(After(st, e), f) == Newcomer(st, p, r, b, pvtId)
  {
    hide Inv;
  }

  /** `states` is a run: it starts without any object, and every next state is a possible step. */
  ghost predicate IsRun(states: seq<ProxyState>, es: seq<Step>) {
    && |states| == |es| + 1
    && states[0] == ProxyState(Forest(map[], map[]), LinkTable(map[], map[]), IndexTable(map[], map[], map[]))
    && forall i :: 0 <= i < |es| ==> Enabled(states[i], es[i]) && states[i + 1] == After(states[i], es[i])
  }

  lemma {:induction false} RunKeepsInv(states: seq<ProxyState>, es: seq<Step>, n: nat)
    requires IsRun(states, es) && n <= |es|
    ensures Inv(states[n])
  {
    hide Inv, Enabled, After;
    if n == 0 {
      EmptyInv();
    } else {
      RunKeepsInv(states, es, n - 1);
      StepKeepsInv(states[n - 1], es[n - 1]);
    }
  }

  /** In every run, whoever watches is watched: a subscriber is listed by a publisher exactly if it has the publisher
      among its feeds under the publisher's own id, and is owned by a publisher exactly if that one lists it. */
  lemma SubscriptionsAreSymmetric(states: seq<ProxyState>, es: seq<Step>, n: nat, p: Publisher, s: Subscriber)
    requires IsRun(states, es) && n <= |es| && p in states[n].links.pubs && s in states[n].links.subs
    ensures var v, u := states[n].links.pubs[p], states[n].links.subs[s];
      && (s in v.subscribers <==> p.userId in u.feeds && u.feeds[p.userId] == p)
      && (s in v.subscriptions <==> u.owner == p)
      && (p in u.feeds.Values ==> p.userId in u.feeds && u.feeds[p.userId] == p)
  {
    RunKeepsInv(states, es, n);
    var l := states[n].links;
    assert PublisherMirrored(l, p) && SubscriberMirrored(l, s);
    forall u | u in l.subs[s].feeds && l.subs[s].feeds[u] == p ensures u == p.userId && s in l.pubs[p].subscribers {
      assert Feeds(l, l.subs[s].feeds[u], u, s);
    }
  }

  /** In every run, a destroyed publisher or subscriber is in no link, no room and on no backend room. */
  lemma DestroyedAreNowhere(states: seq<ProxyState>, es: seq<Step>, n: nat, p: Publisher, s: Subscriber)
    requires IsRun(states, es) && n <= |es| && p in states[n].trees.pubs && s in states[n].links.subs
    ensures var st := states[n];
      && (st.trees.pubs[p].destroyed ==>
            p !in st.links.subs[s].feeds.Values && st.links.subs[s].owner != p
            && (forall x :: x in st.trees.rems && !st.trees.rems[x].destroyed ==> st.trees.rems[x].origin != p)
            && (forall r :: r in st.index.rooms ==>
                  p !in st.index.rooms[r].participants.Values && p !in st.index.rooms[r].privateIds.Values))
      && (st.links.subs[s].destroyed ==>
            (forall q :: q in st.links.pubs ==>
               s !in st.links.pubs[q].subscribers && s !in st.links.pubs[q].subscriptions)
            && (forall x :: x in st.trees.rems ==> s !in st.trees.rems[x].subscribers))
  {
    RunKeepsInv(states, es, n);
    var st := states[n];
    hide Inv, IsRun;
    InvHolds(st);
    SubscriptionsAreSymmetric(states, es, n, p, s);
    if st.trees.pubs[p].destroyed {
      GonePublisher(st, p);
    }
    if st.links.subs[s].destroyed {
      GoneSubscriber(st, s);
    }
  }

  lemma InvHolds(st: ProxyState)
    requires Inv(st)
    ensures TreeInv(st.trees) && LinkInv(st.links) && WatchInv(st.trees, st.links) && IndexInv(st.index) && DeadInv(st)
    ensures st.trees.pubs.Keys == st.links.pubs.Keys == st.index.pubs.Keys
  {
  }

  lemma GonePublisher(st: ProxyState, p: Publisher)
    requires Inv(st) && p in st.trees.pubs && st.trees.pubs[p].destroyed
    ensures p in st.links.pubs && st.links.pubs[p] == PublisherLinks({}, {})
    ensures forall x :: x in st.trees.rems && !st.trees.rems[x].destroyed ==> st.trees.rems[x].origin != p
    ensures forall r :: r in st.index.rooms ==>
              p !in st.index.rooms[r].participants.Values && p !in st.index.rooms[r].privateIds.Values
  {
    hide PublisherShape, RemoteShape, PublisherMirrored, SubscriberMirrored, SeatShape, BackendShape, WatchInv, FeedInv;
    assert Departed(st, p);
    forall x | x in st.trees.rems && !st.trees.rems[x].destroyed ensures st.trees.rems[x].origin != p {
      assert RemoteLinked(st.trees, x);
    }
    forall r | r in st.index.rooms
      ensures p !in st.index.rooms[r].participants.Values && p !in st.index.rooms[r].privateIds.Values
    {
      assert RoomShape(st.index, r);
      var v := st.index.rooms[r];
      forall u | u in v.participants ensures v.participants[u] != p { assert Seated(st.index, r, v.participants[u]); }
      forall k | k in v.privateIds ensures v.privateIds[k] != p { assert Seated(st.index, r, v.privateIds[k]); }
    }
  }

  lemma GoneSubscriber(st: ProxyState, s: Subscriber)
    requires Inv(st) && s in st.links.subs && st.links.subs[s].destroyed
    ensures forall q :: q in st.links.pubs ==>
              s !in st.links.pubs[q].subscribers && s !in st.links.pubs[q].subscriptions
    ensures forall x :: x in st.trees.rems ==> s !in st.trees.rems[x].subscribers
  {
    hide TreeInv, IndexInv, FeedInv, DeadInv;
    assert SubscriberMirrored(st.links, s);
    forall q | q in st.links.pubs ensures s !in st.links.pubs[q].subscribers && s !in st.links.pubs[q].subscriptions {
      assert PublisherMirrored(st.links, q);
    }
    forall x | x in st.trees.rems ensures s !in st.trees.rems[x].subscribers {
      assert s in st.trees.rems[x].subscribers ==> Watches(st.trees.rems[x], st.links, s);
    }
  }

  /** In every run, the remote publishers registered at a publisher are exactly the undestroyed nodes of its
      forwarding tree, and a publisher without media has none. */
  lemma ForwardingTrees(states: seq<ProxyState>, es: seq<Step>, n: nat, p: Publisher, x: RemotePublisher)
    requires IsRun(states, es) && n <= |es| && p in states[n].trees.pubs && x in states[n].trees.rems
    ensures var g := states[n].trees;
      && TreeInv(g)
      && (x in g.pubs[p].remotes.Values <==> x in Alive(g) && RootOf(g, x) == p)
      && (x in g.pubs[p].remotes.Values ==> g.pubs[p].started && g.rems[x].remoteId in g.pubs[p].remotes
                                            && g.pubs[p].remotes[g.rems[x].remoteId] == x)
      && (forall s :: s in g.rems[x].subscribers ==> Watches(g.rems[x], states[n].links, s))
  {
    RunKeepsInv(states, es, n);
    var g := states[n].trees;
    RegisteredAreNodes(g, p);
    assert PublisherShape(g, p) && PublisherQuiet(g, p) && RemoteShape(g, x);
  }

  /** In every run, the two tables of a room hold exactly the publishers that sit in it, by user id and by private id;
      nobody has the id reserved for the backend rooms; and a valid backend room counts the publishers placed on it. */
  lemma RoomTablesAreExact(states: seq<ProxyState>, es: seq<Step>, n: nat, r: VideoRoom, p: Publisher, b: BackendRoom)
    requires IsRun(states, es) && n <= |es|
    requires r in states[n].index.rooms && p in states[n].index.pubs && b in states[n].index.backs
    ensures var (i, v, seat) := (states[n].index, states[n].index.rooms[r], states[n].index.pubs[p]);
      && (seat.room == r <==> p.userId in v.participants && v.participants[p.userId] == p)
      && (seat.room == r <==> seat.pvtId in v.privateIds && v.privateIds[seat.pvtId] == p)
      && r.backendRoomId !in v.participants
      && (!i.backs[b].destroyed ==> |i.backs[b].publishers| == |PlacedPublishers(i, b)|
                                    && i.backs[b].publishers == UserIds(PlacedPublishers(i, b)))
  {
    RunKeepsInv(states, es, n);
    var i := states[n].index;
    hide Inv, IsRun;
    InvHolds(states[n]);
    if !i.backs[b].destroyed {
      BackendCounts(i, b);
    }
    TablesOfRoom(i, r, p);
  }

  lemma TablesOfRoom(i: IndexTable, r: VideoRoom, p: Publisher)
    requires IndexInv(i) && r in i.rooms && p in i.pubs
    ensures var (v, seat) := (i.rooms[r], i.pubs[p]);
      && (seat.room == r <==> p.userId in v.participants && v.participants[p.userId] == p)
      && (seat.room == r <==> seat.pvtId in v.privateIds && v.privateIds[seat.pvtId] == p)
      && r.backendRoomId !in v.participants
  {
    var v := i.rooms[r];
    assert RoomShape(i, r) && SeatShape(i, p);
    assert p.userId in v.participants ==> Seated(i, r, v.participants[p.userId]);
    assert i.pubs[p].pvtId in v.privateIds ==> Seated(i, r, v.privateIds[i.pubs[p].pvtId]);
  }

  // ---------- Watched feeds stay served ----------

  /** Subscriber `s` gets the feed of `p` on its backend room: `p` sits there, or it has a remote publisher on that
      server, and that counts `s`. */
  ghost predicate Served(st: ProxyState, p: Publisher, s: Subscriber) {
    && p in st.trees.pubs && p in st.index.pubs && s in st.links.subs && st.links.subs[s].backend != null
    && (st.index.pubs[p].backend == st.links.subs[s].backend
       || CountedOn(st.trees, p, st.links.subs[s].backend.serverName, s))
  }

  ghost predicate CountedOn(g: Forest, p: Publisher, name: string, s: Subscriber)
    requires p in g.pubs
  {
    name in g.pubs[p].remotes && g.pubs[p].remotes[name] in g.rems && s in g.rems[g.pubs[p].remotes[name]].subscribers
  }

  ghost predicate AllServed(st: ProxyState) {
    forall p, s :: p in st.links.pubs && s in st.links.pubs[p].subscribers ==> Served(st, p, s)
  }

  /** The feed of `p` is offered on backend room `b`. */
  ghost predicate OfferedOn(st: ProxyState, p: Publisher, b: BackendRoom?) {
    b != null && p in st.trees.pubs && p in st.index.pubs
      && (st.index.pubs[p].backend == b || b.serverName in st.trees.pubs[p].remotes)
  }

  /** The step adds a feed that is not offered on the backend room of the subscriber. */
  ghost predicate AddsUnoffered(st: ProxyState, e: Step)
    requires Enabled(st, e)
  {
    e.FeedsAdded? && exists u :: u in e.added && !OfferedOn(st, e.added[u], st.links.subs[e.s].backend)
  }

  /** What is served stays served as long as the seat, the backend room and the counting node stay. */
  ghost predicate Carries(st: ProxyState, n: ProxyState, p: Publisher, s: Subscriber) {
    && p in n.trees.pubs && p in n.index.pubs && s in n.links.subs
    && p in st.trees.pubs && p in st.index.pubs && s in st.links.subs
    && n.links.subs[s].backend == st.links.subs[s].backend
    && (st.index.pubs[p].backend != null ==> n.index.pubs[p].backend == st.index.pubs[p].backend)
    && (forall name :: CountedOn(st.trees, p, name, s) ==> CountedOn(n.trees, p, name, s))
  }

  lemma CarriedAll(st: ProxyState, n: ProxyState)
    requires AllServed(st)
    requires forall p, s :: p in n.links.pubs && s in n.links.pubs[p].subscribers ==>
               p in st.links.pubs && s in st.links.pubs[p].subscribers && Carries(st, n, p, s)
    ensures AllServed(n)
  {
    forall p, s | p in n.links.pubs && s in n.links.pubs[p].subscribers ensures Served(n, p, s) {
      assert Served(st, p, s);
    }
  }

  lemma WatcherKnown(st: ProxyState, p: Publisher, s: Subscriber)
    requires Inv(st) && p in st.links.pubs && s in st.links.pubs[p].subscribers
    ensures p in st.trees.pubs && p in st.index.pubs && s in st.links.subs && p in st.links.subs[s].feeds.Values
    ensures p.userId in st.links.subs[s].feeds && st.links.subs[s].feeds[p.userId] == p
  {
    assert PublisherMirrored(st.links, p);
  }

  lemma NodeOf(st: ProxyState, p: Publisher, name: string)
    requires Inv(st) && p in st.trees.pubs && name in st.trees.pubs[p].remotes
    ensures st.trees.pubs[p].remotes[name] in st.trees.rems && st.trees.rems[st.trees.pubs[p].remotes[name]].origin == p
    ensures st.trees.rems[st.trees.pubs[p].remotes[name]].remoteId == name
  {
    assert PublisherShape(st.trees, p);
  }

  lemma IndexStepCarries(st: ProxyState, e: Step)
    requires Inv(st) && Enabled(st, e) && AllServed(st)
    requires e.RoomCreated? || e.RoomDestroyed? || e.BackendCreated? || e.BackendLost? || e.PublisherJoined?
    ensures AllServed(After(st, e))
  {
    hide Inv;
    var n := After(st, e);
    forall p, s | p in n.links.pubs && s in n.links.pubs[p].subscribers ensures Carries(st, n, p, s) {
      WatcherKnown(st, p, s);
    }
    CarriedAll(st, n);
  }

  lemma PublisherStepCarries(st: ProxyState, e: Step)
    requires Inv(st) && Enabled(st, e) && AllServed(st)
    requires e.PublisherCreated? || e.PublisherStarts? || e.PublisherHangsUp? || e.PublisherLeaves?
    ensures AllServed(After(st, e))
  {
    hide Inv;
    var n := After(st, e);
    forall q, s | q in n.links.pubs && s in n.links.pubs[q].subscribers
      ensures q in st.links.pubs && s in st.links.pubs[q].subscribers && Carries(st, n, q, s)
    {
      WatcherKnown(st, q, s);
      forall name | CountedOn(st.trees, q, name, s) ensures CountedOn(n.trees, q, name, s) { NodeOf(st, q, name); }
    }
    CarriedAll(st, n);
  }

  lemma RemoteStepCarries(st: ProxyState, e: Step)
    requires Inv(st) && Enabled(st, e) && AllServed(st)
    requires e.RemoteAdded? || e.RemoteRefused? || e.RemoteReaped?
    ensures AllServed(After(st, e))
  {
    hide Inv;
    var n := After(st, e);
    forall q, s | q in n.links.pubs && s in n.links.pubs[q].subscribers
      ensures q in st.links.pubs && s in st.links.pubs[q].subscribers && Carries(st, n, q, s)
    {
      WatcherKnown(st, q, s);
      forall name | CountedOn(st.trees, q, name, s) ensures CountedOn(n.trees, q, name, s) { NodeOf(st, q, name); }
    }
    CarriedAll(st, n);
  }

  lemma SubscriberStepCarries(st: ProxyState, e: Step)
    requires Inv(st) && Enabled(st, e) && AllServed(st)
    requires e.SubscriberCreated? || e.SubscriberJoined? || e.FeedsRemoved? || e.SubscriberHangsUp?
              || e.SubscriberLeaves?
    ensures AllServed(After(st, e))
  {
    hide Inv;
    var n := After(st, e);
    if e.SubscriberJoined? { EnteredKeepsInv(st, e.s, e.r, e.b); }
    forall q, s | q in n.links.pubs && s in n.links.pubs[q].subscribers
      ensures q in st.links.pubs && s in st.links.pubs[q].subscribers && Carries(st, n, q, s)
    {
      WatcherKnown(st, q, s);
      forall name | CountedOn(st.trees, q, name, s) ensures CountedOn(n.trees, q, name, s) { NodeOf(st, q, name); }
    }
    CarriedAll(st, n);
  }

  lemma AddedServed(st: ProxyState, e: Step)
    requires Inv(st) && Enabled(st, e) && AllServed(st) && e.FeedsAdded?
    ensures AllServed(After(st, e)) <==> !AddsUnoffered(st, e)
  {
    hide Inv;
    var n := After(st, e);
    AddedAreKnown(st, e.s, e.added);
    var b := st.links.subs[e.s].backend;
    forall u | u in e.added ensures Served(n, e.added[u], e.s) <==> OfferedOn(st, e.added[u], b) {
      if OfferedOn(st, e.added[u], b)
          && b.serverName in st.trees.pubs[e.added[u]].remotes { NodeOf(st, e.added[u], b.serverName); }
    }
    forall q, s | q in n.links.pubs && s in n.links.pubs[q].subscribers
      ensures Served(n, q, s) || (s == e.s && q in e.added.Values)
    {
      if s != e.s || q !in e.added.Values {
        WatcherKnown(st, q, s);
        assert Served(st, q, s);
      }
    }
  }

  /** Every step keeps all watched feeds served, also the reaping of an idle remote publisher, but for one that adds a
      feed which is not offered on the backend room of the subscriber. */
  lemma StepKeepsServed(st: ProxyState, e: Step)
    requires Inv(st) && Enabled(st, e) && AllServed(st)
    ensures AllServed(After(st, e)) <==> !AddsUnoffered(st, e)
  {
    hide AllServed, Inv, Enabled, After, OfferedOn;
    match e
    case RoomCreated(_, _) => IndexStepCarries(st, e);
    case RoomDestroyed(_) => IndexStepCarries(st, e);
    case BackendCreated(_, _) => IndexStepCarries(st, e);
    case BackendLost(_) => IndexStepCarries(st, e);
    case PublisherJoined(_, _, _, _) => IndexStepCarries(st, e);
    case PublisherCreated(_) => PublisherStepCarries(st, e);
    case PublisherStarts(_) => PublisherStepCarries(st, e);
    case PublisherHangsUp(_) => PublisherStepCarries(st, e);
    case PublisherLeaves(_, _) => PublisherStepCarries(st, e);
    case RemoteAdded(_, _, _, _, _) => RemoteStepCarries(st, e);
    case RemoteRefused(_, _, _, _, _) => RemoteStepCarries(st, e);
    case RemoteReaped(_, _) => RemoteStepCarries(st, e);
    case FeedsAdded(_, _) => AddedServed(st, e);
    case SubscriberCreated(_, _) => SubscriberStepCarries(st, e);
    case SubscriberJoined(_, _, _) => SubscriberStepCarries(st, e);
    case FeedsRemoved(_, _, _) => SubscriberStepCarries(st, e);
    case SubscriberHangsUp(_, _) => SubscriberStepCarries(st, e);
    case SubscriberLeaves(_, _) => SubscriberStepCarries(st, e);
  }

  /** In every run that adds only offered feeds, whoever watches a publisher from another backend room is counted by
      the remote publisher there. */
  lemma {:induction false} WatchedFeedsStayServed(states: seq<ProxyState>, es: seq<Step>, n: nat)
    requires IsRun(states, es) && n <= |es| && forall k :: 0 <= k < n ==> !AddsUnoffered(states[k], es[k])
    ensures AllServed(states[n])
  {
    hide Inv, Enabled, After, AddsUnoffered, Served;
    if n > 0 {
      RunKeepsInv(states, es, n - 1);
      WatchedFeedsStayServed(states, es, n - 1);
      StepKeepsServed(states[n - 1], es[n - 1]);
    }
  }

  /** So no reaping ever cuts a watched feed: who watches the origin from the server of an unused remote publisher sits
      on the backend room of the origin itself. */
  lemma ReapingCutsNobody(states: seq<ProxyState>, es: seq<Step>, n: nat, x: RemotePublisher, s: Subscriber)
    requires IsRun(states, es) && n <= |es| && forall k :: 0 <= k < n ==> !AddsUnoffered(states[k], es[k])
    requires Unused(states[n], x) && s in states[n].links.subs && states[n].links.subs[s].backend != null
    requires states[n].links.subs[s].backend.serverName == states[n].trees.rems[x].remoteId
    requires exists u :: u in states[n].links.subs[s].feeds
              && states[n].links.subs[s].feeds[u] == states[n].trees.rems[x].origin
    ensures var p := states[n].trees.rems[x].origin;
      p in states[n].index.pubs && states[n].index.pubs[p].backend == states[n].links.subs[s].backend
  {
    var st := states[n];
    RunKeepsInv(states, es, n);
    WatchedFeedsStayServed(states, es, n);
    hide IsRun, AddsUnoffered;
    NodeRegistered(st, x);
    var p := st.trees.rems[x].origin;
    var u :| u in st.links.subs[s].feeds && st.links.subs[s].feeds[u] == p;
    WatchedIsListed(st, s, u);
    assert Served(st, p, s);
  }

  lemma NodeRegistered(st: ProxyState, x: RemotePublisher)
    requires Inv(st) && Unused(st, x)
    ensures var v := st.trees.rems[x];
      v.origin != null && v.origin in st.trees.pubs && v.remoteId in st.trees.pubs[v.origin].remotes
      && st.trees.pubs[v.origin].remotes[v.remoteId] == x
  {
    assert RemoteShape(st.trees, x) && RemoteLinked(st.trees, x);
  }

  lemma WatchedIsListed(st: ProxyState, s: Subscriber, u: int)
    requires Inv(st) && s in st.links.subs && u in st.links.subs[s].feeds
    ensures var p := st.links.subs[s].feeds[u]; p in st.links.pubs && s in st.links.pubs[p].subscribers
  {
    assert SubscriberMirrored(st.links, s) && Feeds(st.links, st.links.subs[s].feeds[u], u, s);
  }

  // ---------- Idle periods ----------

  /** The reading of the clock with which a step stamps what it leaves unused. */
  function Clock(e: Step): Option<int> {
    match e
    case RoomCreated(_, now) => Some(now as int)
    case PublisherLeaves(_, now) => Some(now as int)
    case RemoteAdded(_, _, _, _, now) => Some(now as int)
    case RemoteRefused(_, _, _, _, now) => Some(now as int)
    case RemoteReaped(_, now) => Some(now as int)
    case FeedsRemoved(_, _, now) => Some(now as int)
    case SubscriberHangsUp(_, now) => Some(now as int)
    case SubscriberLeaves(_, now) => Some(now as int)
    case _ => None
  }

  /** The idle timestamp of a living remote publisher. */
  ghost predicate Stamped(st: ProxyState, x: RemotePublisher, t: int) {
    x in st.trees.rems && !st.trees.rems[x].destroyed && st.trees.rems[x].idleTs == t
  }

  lemma StampedIsUnused(st: ProxyState, x: RemotePublisher, t: int)
    requires Inv(st) && Stamped(st, x, t) && t != 0
    ensures Unused(st, x)
  {
    assert RemoteLinked(st.trees, x);
  }

  /** A step changes an idle timestamp only to 0 or to its own reading of the clock. */
  lemma StepStamps(st: ProxyState, e: Step, x: RemotePublisher, t: int)
    requires Enabled(st, e) && t != 0 && Stamped(After(st, e), x, t)
    ensures Clock(e) == Some(t) || Stamped(st, x, t)
  {
  }

  /** A remote publisher with an idle timestamp has been without children and subscribers in every state since the
      step that set it. */
  lemma {:induction false} UnusedSinceStamp(states: seq<ProxyState>, es: seq<Step>, n: nat, x: RemotePublisher, t: int)
    returns (m: nat)
    requires IsRun(states, es) && n <= |es| && Stamped(states[n], x, t) && t != 0
    ensures 0 < m <= n && Clock(es[m - 1]) == Some(t)
    ensures forall k :: m <= k <= n ==> Unused(states[k], x)
  {
    hide Inv, Enabled, After, Stamped, Unused;
    RunKeepsInv(states, es, n);
    StampedIsUnused(states[n], x, t);
    if n == 0 {
      NothingStamped(x, t);
    } else {
      RunKeepsInv(states, es, n - 1);
      StepStamps(states[n - 1], es[n - 1], x, t);
      if Clock(es[n - 1]) == Some(t) {
        m := n;
      } else {
        m := UnusedSinceStamp(states, es, n - 1, x, t);
      }
    }
  }

  lemma NothingStamped(x: RemotePublisher, t: int)
    ensures !Stamped(ProxyState(Forest(map[], map[]), LinkTable(map[], map[]), IndexTable(map[], map[], map[])), x, t)
  {
  }

  /** The idle check reaps only a remote publisher that nobody used in any state since more than a minute. */
  lemma ReapedOnlyIfUnused(states: seq<ProxyState>, es: seq<Step>, n: nat, x: RemotePublisher, now: Time)
    requires IsRun(states, es) && n <= |es| && x in states[n].trees.rems && !states[n].trees.rems[x].destroyed
    requires states[n].trees.rems[x].children == {} && states[n].trees.rems[x].subscribers == {}
    requires now - states[n].trees.rems[x].idleTs > REMOTE_IDLE_TIMEOUT
    ensures exists m: nat :: UnusedFor(states, es, m, n, x, now, REMOTE_IDLE_TIMEOUT)
  {
    RunKeepsInv(states, es, n);
    var t := states[n].trees.rems[x].idleTs;
    assert t != 0 by { assert RemoteLinked(states[n].trees, x); }
    var m := UnusedSinceStamp(states, es, n, x, t);
    assert UnusedFor(states, es, m, n, x, now, REMOTE_IDLE_TIMEOUT);
  }

  /** More than `seconds` before `now` a step led to state `m`, and nobody used `x` in any state from there to `n`. */
  ghost predicate UnusedFor(states: seq<ProxyState>, es: seq<Step>, m: nat, n: nat, x: RemotePublisher, now: Time,
                            seconds: int) {
    && 0 < m <= n < |states| && m <= |es| && Clock(es[m - 1]).Some? && now - Clock(es[m - 1]).value > seconds
    && forall k :: m <= k <= n ==> Unused(states[k], x)
  }

  ghost predicate RoomStamped(st: ProxyState, r: VideoRoom, t: int) {
    r in st.index.rooms && !st.index.rooms[r].destroyed && st.index.rooms[r].idleTs == t
  }

  ghost predicate Empty(st: ProxyState, r: VideoRoom) {
    r in st.index.rooms && !st.index.rooms[r].destroyed && st.index.rooms[r].participants == map[]
  }

  lemma StampedIsEmpty(st: ProxyState, r: VideoRoom, t: int)
    requires Inv(st) && RoomStamped(st, r, t) && t != 0
    ensures Empty(st, r)
  {
    assert RoomShape(st.index, r);
  }

  lemma StepStampsRoom(st: ProxyState, e: Step, r: VideoRoom, t: int)
    requires Enabled(st, e) && t != 0 && RoomStamped(After(st, e), r, t)
    ensures Clock(e) == Some(t) || RoomStamped(st, r, t)
  {
  }

  lemma {:induction false} EmptySinceStamp(states: seq<ProxyState>, es: seq<Step>, n: nat, r: VideoRoom, t: int)
    returns (m: nat)
    requires IsRun(states, es) && n <= |es| && RoomStamped(states[n], r, t) && t != 0
    ensures 0 < m <= n && Clock(es[m - 1]) == Some(t)
    ensures forall k :: m <= k <= n ==> Empty(states[k], r)
  {
    hide Inv, Enabled, After, Empty;
    RunKeepsInv(states, es, n);
    StampedIsEmpty(states[n], r, t);
    if n > 0 {
      RunKeepsInv(states, es, n - 1);
      StepStampsRoom(states[n - 1], es[n - 1], r, t);
      if Clock(es[n - 1]) == Some(t) {
        m := n;
      } else {
        m := EmptySinceStamp(states, es, n - 1, r, t);
      }
    }
  }

  /** The cleanup destroys only a room that had no participant in any state for longer than `seconds`. */
  lemma CleanedOnlyIfEmpty(states: seq<ProxyState>, es: seq<Step>, n: nat, r: VideoRoom, seconds: int, now: Time)
    requires IsRun(states, es) && n <= |es| && r in states[n].index.rooms && !states[n].index.rooms[r].destroyed
    requires states[n].index.rooms[r].participants == map[] && now - states[n].index.rooms[r].idleTs > seconds
    ensures exists m: nat :: EmptyFor(states, es, m, n, r, now, seconds)
  {
    RunKeepsInv(states, es, n);
    var t := states[n].index.rooms[r].idleTs;
    assert t != 0 by { assert RoomShape(states[n].index, r); }
    var m := EmptySinceStamp(states, es, n, r, t);
    assert EmptyFor(states, es, m, n, r, now, seconds);
  }

  ghost predicate EmptyFor(states: seq<ProxyState>, es: seq<Step>, m: nat, n: nat, r: VideoRoom, now: Time,
                           seconds: int) {
    && 0 < m <= n < |states| && m <= |es| && Clock(es[m - 1]).Some? && now - Clock(es[m - 1]).value > seconds
    && forall k :: m <= k <= n ==> Empty(states[k], r)
  }
}
