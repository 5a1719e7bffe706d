# Verification of januscloud

januscloud is a signalling proxy in front of many Janus media servers. Its difficult part is live state that many
greenlets, several proxies and several backend servers change at once. This project models that state and proves what
every step and every run of it keeps.

| file | models |
|---|---|
| `Videoroom.dfy` | the object graph of the videoroom plugin as classes that update their fields: publishers, the forwarding tree of remote publishers below each of them, subscribers, backend rooms, the tables of a room, the list of rooms |
| `VideoroomRuns.dfy` | whole runs of those steps, from a proxy without any object |
| `UserDirectory.dfy` | the videocall user directory that any number of proxies share through one Redis |
| `Schema.dfy` | the schema engine: validation, normalisation, defaults |
| `Sweeper.dfy` | the scans that destroy idle videorooms on a Janus server |
| `P2PCall.dfy` | peer-to-peer calls and the in-memory directory |
| `AudioBridge.dfy` | the join protocol of an audio bridge room, with its suspension points |
| `BackendSession.dfy` | a session with a Janus server and its handle registry |
| `ProcWatcher.dfy` | start, stop, asynchronous stop and the poller of a watched child process |
| `RoomStore.dfy` | storing a videoroom in a Redis hash and loading it back |
| `ServerSelection.dfy` | valid servers, weighted random choice, round robin |
| `Common.dfy` | options, the clock, splitting and joining text |

How the parts are built:

- Every operation that changes state in place is a method of a class with the source's fields, and as a rule its
  `ensures` gives the whole new state as a function of the old one. (The exceptions are joins of subscribers, where the
  forwarding trees that failed or completed cascades leave are only said to keep the invariant, and a refused
  participant, of which the tables of the room are said to be as before.) In `Videoroom.dfy` the ghost class `World`
  lists all objects, so that `State()` is the whole graph as a value; the invariant `Inv` and the lemmas are about that
  value. In the smaller modules the step functions are put together to runs over lists of events. In `VideoroomRuns.dfy` a step is one of the
  state functions that the methods of `Videoroom.dfy` are proved to compute, with the guard under which they do so; a
  method that makes several changes, like a join with its cascades, is several steps.
- A backend server, Redis, a random draw and the clock are parameters of the step (`startOk`, `joinOk`, `drawn`,
  `now`, `Faults`): each call succeeds or raises, and whatever follows is proved for both.
- The teardown of publishers and remote publishers is mutually recursive through callbacks. It terminates on the set
  of undestroyed remote publishers, which the first half of each `destroy` makes smaller; the value `TearDown` says
  which objects are cleared and which links are dropped, and that nothing else changes.
- Where the code does not keep a property that one would expect, it is proved exactly when it does, by a condition on
  the state before the step, and an example shows the failure: `StepMirror` (`ExpiredLosesTrack`), `LookupConverges`,
  `RegisterKeepsInv`, `AttachKeepsInv`, `RoomRoundTrip`, `ProcWatcher.StepKeepsTracked` (`AsyncStopLeavesTwo`),
  `StepKeepsAlive` and `GhostsLeftInFlight` (`ClosedWhileJoiningStays`), `ProjectionExactly`
  (`CatchAllDefaultIsNoProjection`), `StepKeepsServed`.
- Each state function that a method is proved to compute is pinned by a lemma that says of every input what it leaves
  behind, when it succeeds and which error it raises, as a rule in terms of plain fields: `UpdatedIs`, `CallStarts`,
  `KickedIs`, `WokenIs` and the like, and for the schema engine one lemma for each leaf and for dictionaries. In
  `Videoroom.dfy` the methods' own `ensures` also say this of the fields. The lemmas named `...MakesSteps` say that what
  the methods of `Videoroom.dfy` do is made of the steps of the runs.

The code is followed where it does something else than one would read into it: with `min_publisher_one_backend` set,
`choose_backend_room` is documented to prefer an activated backend room, but the comparison at line 3238 goes the wrong
way, so that no room with at most a million publishers is selected and the server policy decides; `is_valid() is None`
at line 2733 never holds, so the idle routine ends by the destroyed flag alone; and validating against the empty schema drops all keys instead of refusing them.

## Model

| member | source | states |
|---|---|---|
| VideoroomRuns.RunKeepsInv | januscloud/proxy/plugin/videoroom.py:1449-3463 | In every run of joins, cascades that succeed or fail, subscriptions, hangups, kicks, closes and reaps, the whole graph invariant holds in every state |
| VideoroomRuns.SubscriptionsAreSymmetric | januscloud/proxy/plugin/videoroom.py:2101-2130 | In every run a subscriber is in a publisher's `_subscribers` iff the publisher is in its `_feeds` under its own id, and in its `_subscriptions` iff it is the owner |
| VideoroomRuns.DestroyedAreNowhere | januscloud/proxy/plugin/videoroom.py:1449-1516 | In every run a destroyed publisher or subscriber is in no feed, owner, origin, room table, subscriber or subscription set of any object |
| VideoroomRuns.ForwardingTrees | januscloud/proxy/plugin/videoroom.py:1566-1606 | In every run `_remote_publishers` of a publisher is exactly the undestroyed nodes of its forwarding tree, keyed by `remote_id`; an unpublished one has none; who watches a node also watches its origin, from that node's server |
| VideoroomRuns.RoomTablesAreExact | januscloud/proxy/plugin/videoroom.py:3287-3343 | In every run `_participants` and `_private_id` hold exactly the publishers that sit in the room, nobody has the backend room id, and a valid backend room counts each publisher placed on it once |
| VideoroomRuns.ReapedOnlyIfUnused | januscloud/proxy/plugin/videoroom.py:2720-2753 | In every run a remote publisher that passes the idle check had neither child nor subscriber in any state since a step more than a minute before |
| VideoroomRuns.CleanedOnlyIfEmpty | januscloud/proxy/plugin/videoroom.py:3778-3800 | In every run a room that passes the cleanup check had no participant in any state since a step longer ago than the cleanup period |
| VideoroomRuns.StepKeepsServed | januscloud/proxy/plugin/videoroom.py:2101-2118 | A step, also the reaping of an idle remote publisher, keeps every watched feed served on the backend room of its subscriber iff it does not add a feed that is not offered there |
| VideoroomRuns.WatchedFeedsStayServed | januscloud/proxy/plugin/videoroom.py:2101-2118 | In every run that adds only offered feeds, a subscriber on another backend room than the publisher is counted by the remote publisher there |
| VideoroomRuns.ReapingCutsNobody | januscloud/proxy/plugin/videoroom.py:2729-2753 | In such a run nobody watches the origin through a remote publisher that is unused, so reaping it cuts no feed |
| VideoroomRuns.UnusedSinceStamp | januscloud/proxy/plugin/videoroom.py:2720-2727 | The idle timestamp of a living node is the clock of a step since which nobody used the node |
| VideoroomRuns.PublisherMakesSteps | januscloud/proxy/plugin/videoroom.py:1449-1516 | Destroying, hanging up and starting a publisher, as the methods do it, are steps of a run |
| VideoroomRuns.CascadeMakesSteps | januscloud/proxy/plugin/videoroom.py:1566-1606 | So is a cascade, whether it succeeds or is taken back |
| VideoroomRuns.IdleCheckMakesStep | januscloud/proxy/plugin/videoroom.py:2729-2753 | So is the reaping of an idle remote publisher |
| VideoroomRuns.SubscriberMakesSteps | januscloud/proxy/plugin/videoroom.py:566-608 | So are the destroy and the hangup of a subscriber |
| VideoroomRuns.FeedsMakeSteps | januscloud/proxy/plugin/videoroom.py:647-712 | So are entering a room, joining feeds and leaving feeds |
| VideoroomRuns.RoomMakesSteps | januscloud/proxy/plugin/videoroom.py:3226-3346 | So are creating and destroying a room, hosting and losing a backend room; a newcomer is two steps |
| Videoroom.PublisherDestroyedKeepsInv | januscloud/proxy/plugin/videoroom.py:1449-1516 | From every state of the invariant, destroying a publisher reaches a state of the invariant |
| Videoroom.Publisher.Destroy | januscloud/proxy/plugin/videoroom.py:1449-1516 | Afterwards exactly its remote publishers are destroyed, its subscribers and subscriptions have let it go, it has left its room and backend room, and nothing else changed; a second destroy does nothing |
| Videoroom.Publisher.DestroyStep | januscloud/proxy/plugin/videoroom.py:1449-1516 | Destroying as one step keeps the invariant and reaches the destroyed state |
| Videoroom.Publisher.OnClose | januscloud/proxy/plugin/videoroom.py:2402-2418 | The close of its backend handle destroys the publisher like an explicit destroy |
| Videoroom.Publisher.OnWebrtcUp | januscloud/proxy/plugin/videoroom.py:2343-2350 | A living publisher that has joined is then started; nothing else changes, and not on a destroyed publisher or before the join |
| Videoroom.Publisher.UpdateStreams | januscloud/proxy/plugin/videoroom.py:1639-1664 | The description of the backend server replaces the streams |
| Videoroom.Publisher.OnHangup | januscloud/proxy/plugin/videoroom.py:2352-2393 | The publisher has no child, remote publisher or subscriber left and no subscriber watches it; it keeps its seat and its own subscriptions; the whole new state |
| Videoroom.PublisherHungUpKeepsInv | januscloud/proxy/plugin/videoroom.py:2352-2393 | A hangup keeps the invariant |
| Videoroom.Publisher.Join | januscloud/proxy/plugin/videoroom.py:1526-1564 | Which error a join raises, that a failed join changes no table, and where a joined publisher is counted |
| Videoroom.Publisher.Cascade | januscloud/proxy/plugin/videoroom.py:1566-1601 | A cascade succeeds exactly under the listed conditions; then there is one new node and nothing else changed; a failure at any point keeps the invariant and leaves only a destroyed object |
| Videoroom.Publisher.RefusalIs | januscloud/proxy/plugin/videoroom.py:1566-1580 | A cascade is not refused iff the publisher is alive, has joined, may cascade and has media; each other case has its own error |
| Videoroom.Publisher.ServesFresh | januscloud/proxy/plugin/videoroom.py:1566-1606 | On a backend room that nobody knows yet a publisher can serve iff it is not refused, sits somewhere, has no remote publisher of that server, and a new one can be started and fed |
| Videoroom.Publisher.CanServeIs | januscloud/proxy/plugin/videoroom.py:1566-1606 | When a publisher can serve a backend room, case by case |
| Videoroom.Publisher.StartRemote | januscloud/proxy/plugin/videoroom.py:1582-1601 | Registering, starting and hanging a new remote publisher either completes or is taken back |
| Videoroom.Publisher.AddToTree | januscloud/proxy/plugin/videoroom.py:1603-1606 | The new node hangs under the publisher, or under a mediate node, or nowhere if that one refuses |
| Videoroom.CascadedKeepsInv | januscloud/proxy/plugin/videoroom.py:1566-1601 | A completed cascade keeps the invariant |
| Videoroom.CascadeTakenBack | januscloud/proxy/plugin/videoroom.py:1591-1599 | Destroying the new node undoes the cascade: every other object is as before, but for the idle timestamp of a mediate node |
| Videoroom.CascadeUndoneKeepsInv | januscloud/proxy/plugin/videoroom.py:1591-1599 | A failed cascade keeps the invariant |
| Videoroom.CascadeKeepsOthers | januscloud/proxy/plugin/videoroom.py:620-642 | Cascading one publisher, with or without success, leaves every other one available where it was |
| Videoroom.Publisher.AddChild | januscloud/proxy/plugin/videoroom.py:2195-2222 | A publisher without media, handle or life refuses a child; else both links are set, even if the backend server then refuses |
| Videoroom.RemotePublisher.AddChild | januscloud/proxy/plugin/videoroom.py:2645-2677 | The same for a remote publisher as the parent, which is then in use |
| Videoroom.RemotePublisher.Start | januscloud/proxy/plugin/videoroom.py:2513-2585 | A start on the same backend room changes nothing, on another one raises, and a failed one leaves no backend room |
| Videoroom.RemotePublisher.Destroy | januscloud/proxy/plugin/videoroom.py:2455-2500 | Destroys exactly the subtree at the node, the set `gone`, and drops exactly the links into it; it terminates in every state of the tree shape |
| Videoroom.DestroyChildren | januscloud/proxy/plugin/videoroom.py:2497-2500 | Destroying orphaned nodes one after the other tears down the union of their subtrees |
| Videoroom.NodeThenChildren | januscloud/proxy/plugin/videoroom.py:2455-2500 | Clearing one node and then tearing down its former children is tearing down the subtree at the node |
| Videoroom.SubtreesJoin | januscloud/proxy/plugin/videoroom.py:2497-2500 | The subtrees that the loop over the children tears down join to one |
| Videoroom.ChildrenBecomeOrphans | januscloud/proxy/plugin/videoroom.py:2455-2500 | Once a node is cleared, nobody links to its former children |
| Videoroom.GoneHasOrigin | januscloud/proxy/plugin/videoroom.py:1490-1493 | Every node in the subtrees of a publisher's children has that publisher as origin |
| Videoroom.OriginIsGone | januscloud/proxy/plugin/videoroom.py:1490-1493 | Every living node of that origin is in those subtrees, so a destroyed publisher leaves no remote publisher behind |
| Videoroom.UnrelatedUnchanged | januscloud/proxy/plugin/videoroom.py:2455-2500 | Tearing down a subtree changes no node outside it but its parent, and no publisher but its origin |
| Videoroom.SubtreeDownKeepsInv | januscloud/proxy/plugin/videoroom.py:2455-2500 | Tearing down any subtree keeps the invariant |
| Videoroom.RootIsOrigin | januscloud/proxy/plugin/videoroom.py:2636-2640 | Following the parents from any living node ends at its origin |
| Videoroom.RegisteredAreNodes | januscloud/proxy/plugin/videoroom.py:2252-2262 | The registered remote publishers are exactly the nodes of the tree, each under its own remote id |
| Videoroom.RemotePublisher.OnChildDestroy | januscloud/proxy/plugin/videoroom.py:2679-2706 | The parent forgets the child, and its idle period starts if nobody uses it any more |
| Videoroom.Publisher.OnChildDestroy | januscloud/proxy/plugin/videoroom.py:2224-2250 | The publisher forgets the child and nothing else |
| Videoroom.Publisher.OnRpDestroy | januscloud/proxy/plugin/videoroom.py:2252-2262 | The remote id of the destroyed node is free again |
| Videoroom.RemotePublisher.IdleCheck | januscloud/proxy/plugin/videoroom.py:2729-2753 | One round reaps the node iff it is alive, unused and idle for more than 60 seconds, and then it is destroyed and in no tree; else the state stays |
| Videoroom.RemotePublisher.CheckSettled | januscloud/proxy/plugin/videoroom.py:2720-2727 | Between two steps the timestamp is already 0 iff the node is in use, so an extra idle check changes nothing |
| Videoroom.Publisher.AddSubscriber | januscloud/proxy/plugin/videoroom.py:2101-2108 | The subscriber is added here and at the remote publisher on its own server, if there is one |
| Videoroom.Publisher.DelSubscriber | januscloud/proxy/plugin/videoroom.py:2110-2118 | The subscriber is taken out of the publisher and of every remote publisher of it |
| Videoroom.Publisher.KickAllSubscriptions | januscloud/proxy/plugin/videoroom.py:2132-2135 | Every subscription that the publisher owns is told |
| Videoroom.Subscriber.Destroy | januscloud/proxy/plugin/videoroom.py:566-608 | It leaves its owner, every feed and every remote publisher, and nothing else changes |
| Videoroom.SubscriberDestroyedKeepsInv | januscloud/proxy/plugin/videoroom.py:566-608 | That keeps the invariant |
| Videoroom.SubscriberGoneKeepsWatch | januscloud/proxy/plugin/videoroom.py:566-608 | Leaving the feeds leaves no watcher of a remote publisher that does not watch the origin |
| Videoroom.Subscriber.OnClose | januscloud/proxy/plugin/videoroom.py:1360-1364 | The close of its backend handle destroys the subscriber |
| Videoroom.Subscriber.OnHangup | januscloud/proxy/plugin/videoroom.py:1338-1351 | The subscriber watches nobody and no publisher counts it, but it stays in its room |
| Videoroom.Subscriber.SyncFeeds | januscloud/proxy/plugin/videoroom.py:647-669 | The feeds that are not referenced any more are left and referenced participants are joined: the whole new state of links and trees |
| Videoroom.Subscriber.UpdateStreams | januscloud/proxy/plugin/videoroom.py:671-712 | The whole new state; while the room is alive, a participant is a feed iff some media stream of the list names it or some data stream has it among its sources, and every watched publisher counts the subscriber |
| Videoroom.RefersIs | januscloud/proxy/plugin/videoroom.py:671-712 | Which ids are collected from a list of streams: those of its media streams and the sources of its data streams |
| Videoroom.ReferencedAre | januscloud/proxy/plugin/videoroom.py:647-712 | So the feeds are exactly the participants that some stream refers to |
| Videoroom.SyncedFeedsAre | januscloud/proxy/plugin/videoroom.py:647-669 | In any room, a feed afterwards is referenced, and was one before or is a participant; a kept feed stays the same object |
| Videoroom.Subscriber.CountedByFeeds | januscloud/proxy/plugin/videoroom.py:2101-2108 | Every publisher that the subscriber watches counts it |
| Videoroom.SyncedIsReferenced | januscloud/proxy/plugin/videoroom.py:647-669 | Dropping and adding feeds in steps amounts to exactly the referenced participants, whatever was watched before |
| Videoroom.SyncedWatchers | januscloud/proxy/plugin/videoroom.py:647-669 | Afterwards a remote publisher counts the subscriber iff it did before and its origin is still referenced, or its origin was joined now and it is the one on the server of the subscriber |
| Videoroom.Subscriber.CheckFeeds | januscloud/proxy/plugin/videoroom.py:770-817 | Which error the lookup of the requested feeds and mids raises, and that it finds the requested publishers with a stream of a wanted kind |
| Videoroom.ServableIs | januscloud/proxy/plugin/videoroom.py:770-817 | A request can be served iff the feed is a participant with media that has the requested stream, if one is given |
| Videoroom.OfferedIs | januscloud/proxy/plugin/videoroom.py:785-817 | A publisher is offered iff a request names it and one of its streams is wanted |
| Videoroom.OfferedAreParticipants | januscloud/proxy/plugin/videoroom.py:770-817 | Only participants of the room are subscribed to |
| Videoroom.Subscriber.CascadeAll | januscloud/proxy/plugin/videoroom.py:620-642 | All cascades succeed iff each publisher can serve the backend room (it sits there, has its remote publisher of that server there, or can get a new one); then every requested publisher is available there; else the invariant still holds |
| Videoroom.Subscriber.ChooseServer | januscloud/proxy/plugin/videoroom.py:819-833 | A backend room is chosen iff every requested publisher can serve it in cascade mode, or else exactly one publisher is asked for and sits on one; every requested publisher is then available on it |
| Videoroom.JoinFitsIs | januscloud/proxy/plugin/videoroom.py:819-833 | When the choice of a backend room succeeds, with and without cascade |
| Videoroom.AllServeFresh | januscloud/proxy/plugin/videoroom.py:620-642 | On a new backend room all requested publishers must be able to get a new remote publisher |
| Videoroom.CascadeKeepsNodes | januscloud/proxy/plugin/videoroom.py:1566-1606 | A cascade of one publisher leaves the remote publishers of every other one, and where they sit |
| Videoroom.Subscriber.Join | januscloud/proxy/plugin/videoroom.py:758-880 | A join succeeds iff the subscriber is alive and has not joined, there are requests, all of them name a feed that can be served, something is offered, the backend room can serve it and the server accepts; then the feeds are the participants that some stream of the reply refers to, and they count it; a failed join changes no link |
| Videoroom.EnteredKeepsInv | januscloud/proxy/plugin/videoroom.py:850-880 | A subscriber in no room watches nobody, so entering a room keeps the invariant |
| Videoroom.VideoRoom.NewParticipant | januscloud/proxy/plugin/videoroom.py:3282-3346 | The outcome for every input: refused in a destroyed room or if the requested id is taken, else done iff a backend room is there, is or gets activated, and accepts the join, each failure with its error; the newcomer has a free id that is not the backend room id, is in both tables and sits on the chosen backend room; the whole new state after success; on any error both tables are as before and no id stays reserved |
| Videoroom.VideoRoom.RefusesIs | januscloud/proxy/plugin/videoroom.py:3282-3297 | A join is refused without asking a server iff the room is destroyed, or the requested id is joined, reserved or the one of the backend room |
| Videoroom.PlacedKeepsInv | januscloud/proxy/plugin/videoroom.py:3299-3327 | Placing a publisher under a free id keeps the invariant |
| Videoroom.PlacedAlone | januscloud/proxy/plugin/videoroom.py:3287-3297 | Nobody else on that backend room has the newcomer's id |
| Videoroom.VideoRoom.ChooseBackendRoom | januscloud/proxy/plugin/videoroom.py:3226-3268 | Unless the search by load decides, the backend room of the server that the policy chose, created if needed, and the exact error otherwise; if it decides, a room with the most publishers, and a failure only if such a room is not active and cannot be activated; a new room whose activation fails is unlisted and destroyed again; the whole new state in every case |
| Videoroom.VideoRoom.FindByLoad | januscloud/proxy/plugin/videoroom.py:3233-3241 | The loop finds the backend room with the most publishers, and only if that has more than a million |
| Videoroom.VideoRoom.NeverByLoad | januscloud/proxy/plugin/videoroom.py:3233-3248 | The search by load decides nothing as long as no backend room has more than a million publishers |
| Videoroom.VideoRoom.SomeFullestIs | januscloud/proxy/plugin/videoroom.py:3233-3241 | Which backend rooms the search by load may find: those that no other one has more publishers than |
| Videoroom.VideoRoom.LoadIsPlaced | januscloud/proxy/plugin/videoroom.py:3233-3248 | The search by load decides iff it is switched on, more than a million publishers are placed on some backend room of the room, and fewer than the threshold on each |
| Videoroom.VideoRoom.NewSubscriber | januscloud/proxy/plugin/videoroom.py:3348-3387 | A subscription succeeds iff the room lives, a private id that is required belongs to somebody, the requests can be served on the backend room the code chooses and the server accepts; the feeds are the participants that some stream of the reply refers to; the subscriber belongs to the holder of the private id; on any error no publisher's links have changed |
| Videoroom.VideoRoom.CanServeSubscriberIs | januscloud/proxy/plugin/videoroom.py:3364-3376 | The backend room the code chooses can serve iff: without cascade, one publisher is asked for and sits somewhere; for the first subscription of an owner, all can serve its backend room; else a backend room is there or created, gets activated, and all can serve it |
| Videoroom.VideoRoom.OwnerOf | januscloud/proxy/plugin/videoroom.py:3348-3360 | There is no owner iff no private id is given or nobody has it |
| Videoroom.SubscriptionTakenBack | januscloud/proxy/plugin/videoroom.py:3383-3385 | Destroying a subscriber that joined nothing undoes its registration |
| Videoroom.VideoRoom.KickParticipant | januscloud/proxy/plugin/videoroom.py:3415-3448 | The participant is destroyed like by its own destroy, nobody has its id any more and everybody else keeps theirs, and its subscriptions are told |
| Videoroom.KickInSteps | januscloud/proxy/plugin/videoroom.py:3415-3448 | Taking it out of the tables first, destroying it and checking for idleness reaches the same state as destroying it |
| Videoroom.VideoRoom.Destroy | januscloud/proxy/plugin/videoroom.py:3120-3162 | The tables are empty, every participant sits nowhere but stays alive, and links and trees are unchanged |
| Videoroom.RoomDownKeepsInv | januscloud/proxy/plugin/videoroom.py:3120-3162 | That keeps the invariant |
| Videoroom.VideoRoom.OnParticipantDestroy | januscloud/proxy/plugin/videoroom.py:3450-3463 | Only the participant with that id leaves both tables; the idle period starts if it was the last |
| Videoroom.VideoRoom.CheckExpired | januscloud/proxy/plugin/videoroom.py:3111-3118 | Whether the room is empty and idle for longer than the period; the state stays |
| Videoroom.BackendRoom.Activate | januscloud/proxy/plugin/videoroom.py:2823-2893 | Which error the activation raises, and that only a successful one makes the backend room active |
| Videoroom.BackendRoom.Destroy | januscloud/proxy/plugin/videoroom.py:2785-2821 | A living room forgets the backend room, and nobody is counted on it |
| Videoroom.BackendRoom.OnClose | januscloud/proxy/plugin/videoroom.py:2990-2994 | The close of its handle destroys the backend room |
| Videoroom.BackendDownKeepsInv | januscloud/proxy/plugin/videoroom.py:2785-2821 | Losing a backend room keeps the invariant |
| Videoroom.BackendCounts | januscloud/proxy/plugin/videoroom.py:2934-2941 | `_publishers` of a valid backend room is the ids of the publishers placed on it, each once |
| Videoroom.CountsSumUp | januscloud/proxy/plugin/videoroom.py:2934-2941 | The counts of several backend rooms sum up to the number of publishers on them |
| Videoroom.VideoRoomManager.Create | januscloud/proxy/plugin/videoroom.py:3628-3654 | A room id is given out once; the new room has the given backend room id, private id rule and load threshold, its tables are empty and its idle period starts |
| Videoroom.VideoRoomManager.DestroyRoom | januscloud/proxy/plugin/videoroom.py:3715-3725 | The room is unlisted and destroyed |
| Videoroom.VideoRoomManager.Cleanup | januscloud/proxy/plugin/videoroom.py:3778-3800 | Unlists and destroys exactly the rooms that are empty and idle for longer than the period; the whole new state |
| Videoroom.RoomsDownStep | januscloud/proxy/plugin/videoroom.py:3795-3800 | Destroying the rooms one after the other reaches the state in which all of them are destroyed |
| Videoroom.VideoRoomManager.constructor | januscloud/proxy/plugin/videoroom.py:3616-3618 | A cleanup period below a minute is a minute |
| UserDirectory.MirrorRun | januscloud/proxy/dao/rd_videocall_user_dao.py:40-207 | In every interleaving of any number of proxies with any Redis failures, a record owned by a proxy is queued for resync there or equals its user in memory, unless the proxy loses track |
| UserDirectory.StepMirror | januscloud/proxy/dao/rd_videocall_user_dao.py:40-207 | One step of any proxy keeps the mirror of a proxy iff it is not a lookup or removal by that proxy of an own record while its own proxy record has expired |
| UserDirectory.LiveKeepsTrack | januscloud/proxy/dao/rd_videocall_user_dao.py:163-171 | A proxy whose record is live whenever it looks up or removes never loses track |
| UserDirectory.LiveRunMirrored | januscloud/proxy/dao/rd_videocall_user_dao.py:40-207 | From an empty store on, such a proxy has every record it owns queued or equal to memory |
| UserDirectory.ExpiredLosesTrack | januscloud/proxy/dao/rd_videocall_user_dao.py:104-120 | A proxy that removes a user while its own record has expired leaves a stale record, and a later refresh makes that visible again |
| UserDirectory.LookupConverges | januscloud/proxy/dao/rd_videocall_user_dao.py:40-75 | A lookup without faults ends with memory holding the name iff its record is owned here, with equal fields and nothing queued, iff it is not the lookup of an own record that memory does not hold while the own proxy record has expired |
| UserDirectory.LookupAnswers | januscloud/proxy/dao/rd_videocall_user_dao.py:40-75 | The answer is the user here, the other live proxy's record, or nothing, in every state |
| UserDirectory.RefreshConverges | januscloud/proxy/dao/rd_videocall_user_dao.py:173-207 | A refresh without faults empties the resync set and makes every own record equal to memory |
| UserDirectory.NeverDeletesOthers | januscloud/proxy/dao/rd_videocall_user_dao.py:157-185 | No step of a proxy deletes a record of another one, and a record of another one that is there afterwards was there before |
| UserDirectory.ForgetsOnly | januscloud/proxy/dao/rd_videocall_user_dao.py:40-120 | Memory drops a user iff the handle that holds it removes it or a lookup finds the record taken by another live proxy |
| UserDirectory.VideoCallUserDao.GetByUsername | januscloud/proxy/dao/rd_videocall_user_dao.py:40-75 | New state and answer of a lookup, with every fault |
| UserDirectory.VideoCallUserDao.Add | januscloud/proxy/dao/rd_videocall_user_dao.py:77-88 | A failed registration restores the memory and raises |
| UserDirectory.VideoCallUserDao.Update | januscloud/proxy/dao/rd_videocall_user_dao.py:90-102 | The memory holds the user at once; a fault queues the name instead of raising |
| UserDirectory.VideoCallUserDao.Remove | januscloud/proxy/dao/rd_videocall_user_dao.py:104-120 | A name that another handle of this proxy has taken meanwhile stays |
| UserDirectory.VideoCallUserDao.GetRdUser | januscloud/proxy/dao/rd_videocall_user_dao.py:137-146 | A record counts only while its proxy's record is live |
| UserDirectory.VideoCallUserDao.ResyncUser | januscloud/proxy/dao/rd_videocall_user_dao.py:173-185 | One queued name is written, deleted if owned here, or left to its owner |
| UserDirectory.VideoCallUserDao.Refresh | januscloud/proxy/dao/rd_videocall_user_dao.py:187-207 | The loop over the queued names in any order, ended by the first fault |
| UserDirectory.RecordRoundTrip | januscloud/proxy/dao/rd_videocall_user_dao.py:209-231 | What another proxy reads of a user is what was stored |
| UserDirectory.AddedIs | januscloud/proxy/dao/rd_videocall_user_dao.py:77-88 | A registration succeeds iff the write does not raise; then memory and store hold the user and the name is not queued, else nothing has changed |
| UserDirectory.UpdatedIs | januscloud/proxy/dao/rd_videocall_user_dao.py:90-102 | After an update memory holds the user; without a fault the store does too and the name is not queued, with one the name is queued and the store is as before; no other name changes |
| UserDirectory.RemovedIs | januscloud/proxy/dao/rd_videocall_user_dao.py:104-120 | After a removal the name has left the memory unless another handle took it; its record is gone iff it was an own one that counts and no call raised; the name is queued iff one did |
| UserDirectory.FoundAfterUpdate | januscloud/proxy/dao/rd_videocall_user_dao.py:40-102 | A user that was just updated or registered is found here, and at every other proxy with the same fields |
| UserDirectory.LookupRaises | januscloud/proxy/dao/rd_videocall_user_dao.py:40-75 | Which Redis calls a lookup makes; if one of them raises it answers nothing and changes nothing, and it never changes another name |
| UserDirectory.ResyncedIs | januscloud/proxy/dao/rd_videocall_user_dao.py:173-185 | A queued name stays queued iff a call raises; else its record equals memory, is deleted, or is left to another live proxy |
| UserDirectory.RefreshRenews | januscloud/proxy/dao/rd_videocall_user_dao.py:187-207 | A refresh first renews the proxy record, or does nothing if that raises |
| UserDirectory.StepIsLocal | januscloud/proxy/dao/rd_videocall_user_dao.py:163-207 | A step of one proxy leaves memory, queue and liveness of every other one alone |
| Schemas.Projection | januscloud/common/schema.py:404-488 | If validating x gives y, validating y gives y, with nesting, lists, defaults, coercions and catch-alls, also with a stable default on a catch-all |
| Schemas.FieldsProjection | januscloud/common/schema.py:410-460 | The same for the fields of a dictionary, including filled-in defaults |
| Schemas.ProjectionExactly | januscloud/common/schema.py:410-460 | A dictionary schema with at most one default on a catch-all is a projection iff that default is stable (the entry that decides the empty key accepts it, and is not the catch-all itself if it deletes keys), or nothing is accepted at all |
| Schemas.ConstructedDefaultIsWf | januscloud/common/schema.py:31-56 | A default that the constructor accepts is stored validated, hence a fixed point |
| Schemas.CatchAllDefaultIsNoProjection | januscloud/common/schema.py:454-460 | An example: a default on `AutoDel` adds an empty key, which the next validation deletes |
| Schemas.Completeness | januscloud/common/schema.py:447-460 | A validated dictionary has every required key and every optional key with a default, at every depth |
| Schemas.IllTypedFails | januscloud/common/schema.py:410-446 | An ill-typed value of a declared key makes the validation fail, whatever catch-all there is |
| Schemas.UndeclaredFails | januscloud/common/schema.py:410-446 | Without a catch-all an undeclared key fails, unless the schema is empty |
| Schemas.OnlyDeclaredSurvive | januscloud/common/schema.py:438-446 | With `AutoDel` only declared keys survive, and the empty key if a catch-all has a default |
| Schemas.EmptySchemaDrops | januscloud/common/schema.py:410-446 | The empty schema accepts every dictionary and drops all keys |
| Schemas.DecideIsFirst | januscloud/common/schema.py:373-391 | The deciding entry comes before every other entry that matches, by priority and then in the order written |
| Schemas.SortedIs | januscloud/common/schema.py:419 | The sorted entries are all entries, in that order |
| Schemas.FindEntry | januscloud/common/schema.py:419-437 | The inner loop finds the deciding entry |
| Schemas.Validate | januscloud/common/schema.py:404-488 | The engine computes the specified result on every input |
| Schemas.ValidateItems | januscloud/common/schema.py:340-355 | The loop over a list stops at the first bad item, else returns all validated items in order |
| Schemas.ValidateFields | januscloud/common/schema.py:410-446 | The loop over the items of a dictionary, in any order |
| Schemas.Finish | januscloud/common/schema.py:447-460 | Missing required keys fail, uncovered optional keys get their defaults |
| Schemas.StrippedTwice | januscloud/common/schema.py:203-215 | Stripping stripped text changes nothing |
| Schemas.BoolValIs | januscloud/common/schema.py:167-193 | A boolean gives true iff it gets true, a nonzero integer or "true" in any case, false iff false, 0 or "false" in any case, and an error otherwise |
| Schemas.IntValIs | januscloud/common/schema.py:104-136 | An integer is accepted iff it is among the values, or within the bounds, if there are bounds or no values; text is parsed, a float cut off towards zero |
| Schemas.IntValRefuses | januscloud/common/schema.py:104-136 | Nothing else is an integer |
| Schemas.FloatValIs | januscloud/common/schema.py:139-164 | A float is accepted iff it converts and lies within the bounds |
| Schemas.StrValIs | januscloud/common/schema.py:196-215 | A text gives what is left without the space around it, iff the length of that is within the bounds and it has no invalid character |
| Schemas.HasCore | januscloud/common/schema.py:203-206 | Every text has such a part without space around it |
| Schemas.StrValRefuses | januscloud/common/schema.py:196-215 | Only text is accepted |
| Schemas.PlainLeavesAre | januscloud/common/schema.py:91-101 | A choice accepts its texts, a literal itself, a pattern what it matches, on the text of the value if it is none |
| Schemas.InstancesAre | januscloud/common/schema.py:404-488 | A type accepts exactly its values; a boolean is an integer |
| Schemas.DefaultIs | januscloud/common/schema.py:31-56 | A default does not touch a value that is there; its constructor stores it validated or refuses it |
| Schemas.ListValIs | januscloud/common/schema.py:330-355 | A list is accepted iff it is short enough and every item is accepted, and gives the validated items in order; text is split, nothing and empty text are the empty list |
| Schemas.ListValRefuses | januscloud/common/schema.py:330-355 | Other values are no lists |
| Schemas.ValidItemsAre | januscloud/common/schema.py:340-355 | The items of a list are validated one by one |
| Schemas.DictAccepts | januscloud/common/schema.py:404-460 | A dictionary is accepted iff every required key is there, every declared value by its own entry, and every other key by the catch-all, or without a catch-all there is none |
| Schemas.DictRefuses | januscloud/common/schema.py:404-409 | A dictionary schema accepts only dictionaries |
| Schemas.DictReturnsDeclared | januscloud/common/schema.py:410-460 | Under a declared key stands the validated value, or the default, or nothing |
| Schemas.DictReturnsUndeclared | januscloud/common/schema.py:410-446 | An undeclared key survives iff the catch-all is `DoNotCare`, with the value that this validates |
| Sweeper.TableIsRunStart | januscloud/sentinel/videoroom_sweeper.py:139-185 | `_idle_rooms` holds exactly the rooms in an unbroken idle run, with the time of its first scan |
| Sweeper.DestroyedOnlyIfIdle | januscloud/sentinel/videoroom_sweeper.py:139-185 | A destroyed room was seen idle in every completed scan of a period longer than the timeout |
| Sweeper.IdleIsDestroyed | januscloud/sentinel/videoroom_sweeper.py:139-185 | A room seen idle in every scan of such a period is destroyed in it |
| Sweeper.IdleIdsAre | januscloud/sentinel/videoroom_sweeper.py:139-170 | A room is seen idle iff an entry of the list has its id, a description with the filter as prefix, and no participant or only dummies and remote ones |
| Sweeper.VideoroomSweeper.IsIdleRoom | januscloud/sentinel/videoroom_sweeper.py:98-121 | Idle iff the participants could be listed and all are dummies or remote |
| Sweeper.VideoroomSweeper.Classify | januscloud/sentinel/videoroom_sweeper.py:139-185 | The new table and the timed-out rooms of one scan |
| Sweeper.VideoroomSweeper.CheckIdle | januscloud/sentinel/videoroom_sweeper.py:124-195 | A failed scan leaves the history as it is; a completed one destroys only rooms that its own list shows idle and that were idle for longer than the timeout, at most as many as the server answers, and all of them while the connection lasts |
| Sweeper.VideoroomSweeper.OnStatusChanged | januscloud/sentinel/videoroom_sweeper.py:202-204 | The status decides whether later scans run; the history stays |
| P2PCall.MatchingRun | januscloud/proxy/plugin/p2pcall.py:122-275 | Over every run in which names are registered while free, calls form a matching and the directory copies the handles |
| P2PCall.Matching | januscloud/proxy/plugin/p2pcall.py:148-211 | A's peer is B iff B's peer is A, nobody is paired with itself, and being in a call is having a peer |
| P2PCall.PeersAreExclusive | januscloud/proxy/plugin/p2pcall.py:148-211 | Two users in a call with the same peer are the same user |
| P2PCall.RegisterKeepsInv | januscloud/proxy/plugin/p2pcall.py:133-147 | A registration keeps the matching iff the name is free and not empty |
| P2PCall.CallKeepsInv | januscloud/proxy/plugin/p2pcall.py:148-211 | A call keeps the matching; it pairs the two users or changes nothing |
| P2PCall.CallStarts | januscloud/proxy/plugin/p2pcall.py:148-211 | A call starts iff the caller is registered and idle, the request valid, the name another one in the directory, an SDP there and the called user idle; busy iff all but the last hold; each other case has its own error |
| P2PCall.CallPairs | januscloud/proxy/plugin/p2pcall.py:174-204 | A call that starts leaves caller and called user paired, in their handles and in the directory, and nobody else changed |
| P2PCall.RegisterIs | januscloud/proxy/plugin/p2pcall.py:133-147 | A registration succeeds iff the handle has no user and the request is valid; then the name is its user, and idle |
| P2PCall.NoCallNoAnswer | januscloud/proxy/plugin/p2pcall.py:213-275 | Outside a call nothing is answered, and a hangup does nothing |
| P2PCall.HangupKeepsInv | januscloud/proxy/plugin/p2pcall.py:253-275 | A hangup frees both users and nobody else |
| P2PCall.AnswerReachesPeer | januscloud/proxy/plugin/p2pcall.py:213-252 | An answer or update in a call always reaches the peer |
| P2PCall.FailedCallRestores | januscloud/proxy/plugin/p2pcall.py:205-211 | A call that raises leaves the caller idle, in any state |
| P2PCall.P2PCallHandle.DoRegister | januscloud/proxy/plugin/p2pcall.py:133-147 | New state and outcome of `register` |
| P2PCall.P2PCallHandle.DoCall | januscloud/proxy/plugin/p2pcall.py:148-211 | New state and outcome of `call` |
| P2PCall.P2PCallHandle.StartCall | januscloud/proxy/plugin/p2pcall.py:174-211 | The caller is marked, the peer told, and the mark taken back if the peer raises |
| P2PCall.P2PCallHandle.DoHangup | januscloud/proxy/plugin/p2pcall.py:253-275 | New state of `hangup`, with a peer that is gone or not in this call |
| P2PCall.P2PCallHandle.DoAnswer | januscloud/proxy/plugin/p2pcall.py:213-252 | Outcome of `accept` and `set` |
| P2PCall.P2PCallHandle.OnIncomingCall | januscloud/proxy/plugin/p2pcall.py:356-370 | A busy user raises, an idle one is paired with the caller |
| P2PCall.P2PCallHandle.OnHangup | januscloud/proxy/plugin/p2pcall.py:335-345 | Only a hangup from the peer frees the user |
| P2PCall.MemVideoCallUserDao.Remove | januscloud/proxy/dao/mem_videocall_user_dao.py:18-23 | A name that another handle has taken stays |
| P2PCall.MemVideoCallUserDao.Update | januscloud/proxy/dao/mem_videocall_user_dao.py:28-33 | The copy of the user is replaced |
| AudioBridge.UniqueIds | januscloud/proxy/plugin/audiobridge.py:1036-1105 | In every interleaving of suspended joins with kicks, leaves, failures and the end of the room, two participants that are joining or joined never have the same id |
| AudioBridge.RunKeepsInv | januscloud/proxy/plugin/audiobridge.py:1036-1180 | The room invariant holds in every state of every run |
| AudioBridge.RemovesOnlyItself | januscloud/proxy/plugin/audiobridge.py:309-344 | Removing one participant never evicts another |
| AudioBridge.BeganIs | januscloud/proxy/plugin/audiobridge.py:1056-1075 | A join begins iff the room lives and the id is neither joined nor reserved; then the id is reserved |
| AudioBridge.WentIs | januscloud/proxy/plugin/audiobridge.py:1077-1095 | A suspended join goes on, or releases its id and destroys the newcomer |
| AudioBridge.CommittedIs | januscloud/proxy/plugin/audiobridge.py:1080-1100 | An accepted participant is listed under its id, a refused one is destroyed; the id is not reserved any more |
| AudioBridge.KickedIs | januscloud/proxy/plugin/audiobridge.py:1122-1142 | A kick is refused iff the room is destroyed or the id unknown; else the participant with that id is destroyed, and out of the room unless it was destroyed before |
| AudioBridge.LeftIs | januscloud/proxy/plugin/audiobridge.py:309-344 | A living participant that leaves is destroyed and not listed; a destroyed one does nothing |
| AudioBridge.ClosedIs | januscloud/proxy/plugin/audiobridge.py:846-887 | At the end of the room nobody is listed or reserved, and no participant is destroyed by it |
| AudioBridge.StepKeepsAlive | januscloud/proxy/plugin/audiobridge.py:1080-1100 | A step keeps everybody in the room alive iff it does not commit a participant that was destroyed during its join |
| AudioBridge.GhostsLeftInFlight | januscloud/proxy/plugin/audiobridge.py:1036-1105 | In every run a joining or listed participant is destroyed iff it left while its join was suspended |
| AudioBridge.GhostStays | januscloud/proxy/plugin/audiobridge.py:1122-1142 | A destroyed participant that is listed stays listed in every step but the end of a living room |
| AudioBridge.ClosedWhileJoiningStays | januscloud/proxy/plugin/audiobridge.py:1087-1098 | An example: a participant closed during its join is committed all the same, and a kick does nothing to it |
| AudioBridge.AudioBridgeRoom.BeginJoin | januscloud/proxy/plugin/audiobridge.py:1056-1075 | The id is reserved before anything blocks, or refused if joined or reserved |
| AudioBridge.AudioBridgeRoom.AfterActivation | januscloud/proxy/plugin/audiobridge.py:1077-1095 | The join goes on, or its id is released |
| AudioBridge.AudioBridgeRoom.AfterAttach | januscloud/proxy/plugin/audiobridge.py:355-445 | The join goes on, or its id is released |
| AudioBridge.AudioBridgeRoom.AfterAnswer | januscloud/proxy/plugin/audiobridge.py:1080-1100 | The participant is committed under its reserved id, or its id is released |
| AudioBridge.AudioBridgeRoom.Fail | januscloud/proxy/plugin/audiobridge.py:1089-1094 | The error path releases the id and destroys the newcomer, and changes nobody else |
| AudioBridge.AudioBridgeRoom.KickParticipant | januscloud/proxy/plugin/audiobridge.py:1122-1142 | New state and outcome of a kick |
| AudioBridge.AudioBridgeRoom.Destroy | januscloud/proxy/plugin/audiobridge.py:846-887 | Everybody is put out and reserved ids are forgotten |
| AudioBridge.AudioBridgeParticipant.Destroy | januscloud/proxy/plugin/audiobridge.py:309-344 | A participant in a room leaves it, once |
| BackendSession.RegistryRun | januscloud/core/backend_session.py:89-234 | In every run with unused handle ids, a handle is registered iff it is not detached; what is detached stays as it is |
| BackendSession.AttachKeepsInv | januscloud/core/backend_session.py:89-128 | An attach keeps the registry exact iff the session is destroyed or the id is not in use |
| BackendSession.DestroyKeepsInv | januscloud/core/backend_session.py:172-195 | The end of the session closes every attached handle exactly once |
| BackendSession.DetachedStays | januscloud/core/backend_handle.py:156-172 | After detach a listener hears nothing more |
| BackendSession.ClosedOnlyIf | januscloud/core/backend_handle.py:156-172 | `on_close` is told at most once, only to an attached handle, and only because the server detached it or the session ended |
| BackendSession.AutoDestroyClosesNobody | januscloud/core/backend_session.py:205-208 | While the auto-destroy timer is pending no handle is attached, so it closes nobody |
| BackendSession.AttachedIs | januscloud/core/backend_session.py:89-128 | A reply registers the handle under its id and stops the timer, unless the session is over |
| BackendSession.DetachedIs | januscloud/core/backend_handle.py:44-69 | Detaching unregisters an attached handle without telling its listener |
| BackendSession.ServerDetachedIs | januscloud/core/backend_session.py:221-225 | A detach by the server unregisters the handle and tells its listener once |
| BackendSession.DestroyedIs | januscloud/core/backend_session.py:172-195 | The end of the session empties the registry, stops the timer and closes exactly the registered handles |
| BackendSession.KeptAliveIs | januscloud/core/backend_session.py:268-285 | A lost keepalive ends an active session; after an answered one the timer runs iff it did before, or no handle is attached and auto-destroy is wanted |
| BackendSession.TimerFiredIs | januscloud/core/backend_session.py:205-208 | A pending timer ends the session, a stopped one does nothing |
| BackendSession.Session.OnAttached | januscloud/core/backend_session.py:89-128 | New state when an attach is answered, also after the end of the session |
| BackendSession.Session.OnServerDetached | januscloud/core/backend_session.py:221-225 | New state when the server detaches a handle |
| BackendSession.Session.Destroy | januscloud/core/backend_session.py:172-195 | New state of the end of the session |
| BackendSession.Session.OnKeepalive | januscloud/core/backend_session.py:268-285 | When the timer is started, and that a lost keepalive ends the session |
| BackendSession.Session.OnTimer | januscloud/core/backend_session.py:205-208 | A pending timer ends the session |
| BackendSession.BackendHandle.Detach | januscloud/core/backend_handle.py:44-69 | The handle leaves the registry, once, without telling the listener |
| BackendSession.BackendHandle.OnClose | januscloud/core/backend_handle.py:156-172 | The listener is told unless the handle was detached |
| ProcWatcher.AtMostOneChild | januscloud/sentinel/process_mngr.py:140-315 | In every run in which no asynchronous stop drops a living child at most one child is alive |
| ProcWatcher.AsyncStopLeavesTwo | januscloud/sentinel/process_mngr.py:317-344 | An example of that from the first state on |
| ProcWatcher.RunKeepsTracked | januscloud/sentinel/process_mngr.py:140-315 | In every such run every living child is the tracked one |
| ProcWatcher.StepKeepsTracked | januscloud/sentinel/process_mngr.py:140-344 | A step keeps every living child tracked iff it is not an asynchronous stop of a started watcher whose child is alive |
| ProcWatcher.DropThenStart | januscloud/sentinel/process_mngr.py:317-344 | After such a stop every start that launches leaves two children alive |
| ProcWatcher.LaunchOverwritesNothing | januscloud/sentinel/process_mngr.py:108-119 | A child is launched only while none is tracked |
| ProcWatcher.DroppedOnlyIfExited | januscloud/sentinel/process_mngr.py:140-192 | A tracked child is dropped only when it has exited, unless by an asynchronous stop |
| ProcWatcher.OutdatedNeverActs | januscloud/sentinel/process_mngr.py:140-192 | A poller that is not current never becomes current again, and its next wake-up only ends it |
| ProcWatcher.RunKeepsPoller | januscloud/sentinel/process_mngr.py:239-344 | A watcher is started iff it has a current poller |
| ProcWatcher.StartedIs | januscloud/sentinel/process_mngr.py:239-265 | A start launches iff the watcher is stopped, no child is tracked and the launch succeeds; then the child is tracked and the new greenlet polls |
| ProcWatcher.StopBegunIs | januscloud/sentinel/process_mngr.py:267-295 | A stop waits for the tracked child, and neither kills nor forgets it yet |
| ProcWatcher.StopEndedIs | januscloud/sentinel/process_mngr.py:296-315 | The end of the wait forgets the child iff it is still the tracked one |
| ProcWatcher.AsyncStoppedIs | januscloud/sentinel/process_mngr.py:317-344 | An asynchronous stop of a started watcher forgets the child at once and leaves it alive |
| ProcWatcher.WokenIs | januscloud/sentinel/process_mngr.py:140-192 | The current poller lets a living child be, forgets an exited one, and launches one if none is tracked |
| ProcWatcher.ExitedChildComesBack | januscloud/sentinel/process_mngr.py:140-192 | With restarts on, two rounds of the current poller bring an exited child back |
| ProcWatcher.Watcher.DoStart | januscloud/sentinel/process_mngr.py:239-265 | New state of `start`, and when it raises |
| ProcWatcher.Watcher.BeginStop | januscloud/sentinel/process_mngr.py:267-295 | New state of `stop` up to the wait |
| ProcWatcher.Watcher.EndStop | januscloud/sentinel/process_mngr.py:296-315 | After the wait the child is forgotten only if it is still the tracked one |
| ProcWatcher.Watcher.DoAsyncStop | januscloud/sentinel/process_mngr.py:317-344 | New state of `async_stop` |
| ProcWatcher.Watcher.Poll | januscloud/sentinel/process_mngr.py:140-192 | One round of a poller, with restart or without |
| RoomStore.RoomRoundTrip | januscloud/proxy/dao/rd_room_dao.py:87-123 | Loading what was stored gives the room back iff its attributes are as the constructor leaves them, its codec lists are not empty and without comma, and its times read back as printed |
| RoomStore.ConstructedRoomRoundTrip | januscloud/proxy/dao/rd_room_dao.py:87-123 | So every room that the constructor made from good codec lists comes back, if its floats read back |
| RoomStore.SomeRoomIsFaithful | januscloud/proxy/dao/rd_room_dao.py:87-123 | There are such rooms, with any creation and update time |
| RoomStore.NormalTwice | januscloud/proxy/plugin/videoroom.py:3011-3077 | The normalisation of the constructor is idempotent |
| RoomStore.NormalIs | januscloud/proxy/plugin/videoroom.py:3011-3077 | The constructor changes only the attributes it checks |
| RoomStore.CheckedIs | januscloud/proxy/plugin/videoroom.py:3011-3077 | What the constructor makes of them: a default description, at least 64000 bit/s unless unlimited, five codecs at most, and codec options only with their codec |
| RoomStore.IntRoundTrip | januscloud/common/utils.py:99-117 | Every integer reads back as printed |
| RoomStore.ToRedisHash | januscloud/common/utils.py:99-117 | Exactly the public attributes are stored, each as its text |
| RoomStore.StoredIs | januscloud/common/utils.py:99-117 | What each kind of attribute is stored as |
| RoomStore.ReadIs | januscloud/proxy/dao/rd_room_dao.py:87-123 | What a field is read as, and which default a missing one has; only the room id must be there |
| RoomStore.KindsOf | januscloud/proxy/dao/rd_room_dao.py:87-123 | Which field is parsed as a number, a time, a list, a text or a flag |
| RoomStore.GetList | januscloud/proxy/dao/rd_room_dao.py:59-81 | The batches list every stored room once and in order, or those before the failing batch; a room that cannot be loaded ends the listing with an error |
| RoomStore.ListingFails | januscloud/proxy/dao/rd_room_dao.py:59-81 | The listing fails iff one of the stored rooms cannot be loaded |
| RoomStore.ListedAsStored | januscloud/proxy/dao/rd_room_dao.py:59-81 | Rooms stored as the constructor left them are listed as they were |
| Common.SplitJoin | januscloud/common/utils.py:110-114 | Splitting a comma-joined list gives it back iff it is not empty and no part has a comma |
| ServerSelection.BackendServerManager.WrAlgo | januscloud/core/backend_server.py:118-133 | The picked index is in range and the draw falls into the interval of the picked server |
| ServerSelection.IntervalIsWeight | januscloud/core/backend_server.py:118-133 | That interval is as long as the weight of the server |
| ServerSelection.DrawsOne | januscloud/core/backend_server.py:118-133 | No draw falls into two intervals |
| ServerSelection.WeightFalls | januscloud/core/backend_server.py:118-133 | An idle server weighs 1, one with k handles 1/k, and fewer handles never weigh less |
| ServerSelection.DrawsIs | januscloud/core/backend_server.py:118-133 | The intervals follow one another from 0 to the total weight, by which the draw is scaled |
| ServerSelection.BisectDraws | januscloud/core/backend_server.py:130-133 | Bisection over the running totals is the inverse of the distribution |
| ServerSelection.BackendServerManager.RrAlgo | januscloud/core/backend_server.py:135-141 | The pick at the index, which then moves on; without valid servers nothing moves |
| ServerSelection.BackendServerManager.RrPicks | januscloud/core/backend_server.py:135-141 | Of k picks in a row over n valid servers each server gets k/n, rounded down or up |
| ServerSelection.RoundRobinIsFair | januscloud/core/backend_server.py:135-141 | The same for the counter from any starting value |
| ServerSelection.PicksClosed | januscloud/core/backend_server.py:135-141 | How often an index is picked, in closed form |
| ServerSelection.ValidServersAre | januscloud/core/backend_server.py:97-109 | A server is valid iff it is listed, not expired and normal, said of its fields |
| ServerSelection.ValidServersInOrder | januscloud/core/backend_server.py:97-109 | They are listed in order, each as often as it is in the list |
| ServerSelection.BackendServerManager.GetValidServers | januscloud/core/backend_server.py:97-109 | The loop finds the valid servers in order |

## Left out

Contracts that are weaker than the source on purpose:

- Videoroom.Publisher.Cascade: one call stands for the retry loop that creates the remote publisher, because its end depends on the Janus server; `via` stands for the mediate node that a TODO in `_add_rp_to_cascade_tree` announces, and null is the code as it is.
- Videoroom.RemotePublisher.Start: does not model a second waiter that finds the node destroyed when it gets the lock, which the code does not check again; a cascade is one step.
- Videoroom.VideoRoom.NewParticipant: runs to completion, so it does not model a second join that takes the same id while the first one is blocked at the choice of a backend room, before the id is reserved.
- Videoroom.Subscriber.Join: assumes well-formed stream replies; when it succeeds is an iff, but of the forwarding trees that failed cascades leave it says only that the invariant holds.
- Videoroom.Subscriber.CascadeAll: cascades one publisher after the other, where the code spawns them together and gives up after ten seconds; when all succeed does not depend on the order.
- Videoroom.VideoRoom.ChooseBackendRoom: when the search by load decides and several backend rooms have the most publishers, it may be any of them, because the order of the dictionary is not modelled.
- Videoroom.BackendRoom.Activate: one answer stands for the lock, the loop that creates the room again and the join of the control participant.
- Videoroom.VideoRoomManager.Create: without the admin key, permanent rooms and the list of public rooms; the id is the given or drawn one.
- Videoroom.VideoRoomManager.DestroyRoom: without the secret, the stored copy and the list of public rooms.
- Videoroom.VideoRoomManager.Cleanup: without the list of public rooms and the stored copies.
- VideoroomRuns.WatchedFeedsStayServed: the backend servers offer only feeds that are available on them; `StepKeepsServed` gives both directions.
- UserDirectory.MirrorRun: holds while the proxy keeps track; `StepMirror` says of every step, in both directions, when it does.
- P2PCall.MatchingRun: names are registered only while they are free, which the directory does not check; `RegisterKeepsInv` gives both directions.
- BackendSession.RegistryRun: the ids that a server gives out are not in use; `AttachKeepsInv` gives both directions.
- ProcWatcher.AtMostOneChild: for runs without an asynchronous stop that drops a living child; `StepKeepsTracked` gives both directions.
- Schemas.Projection: as `ProjectionExactly` below; a schema outside these bounds is not in the repository.
- Schemas.ProjectionExactly: for at most one default on a catch-all, and then without a declared empty key; which of several would win depends on the order of a set.
- RoomStore.RoomRoundTrip: how a float is printed and parsed is a parameter; `allowed`, `check_allowed` and the idle timestamp are stored but not loaded.
- ServerSelection.BackendServerManager.WrAlgo: exact arithmetic instead of floating point.

What the project does not model:

- Videoroom: interleavings of greenlets inside one step; the `subscribe`, `unsubscribe`, `update` and `switch` requests, which use the same parts as a join; SDP, codecs, streams of a publisher, RTP forwarders, recording, moderation, tokens, pins and the text of events.
- Videoroom: the order in which sets are visited is free, where the code has the order of a dictionary; the loops over feeds to leave and to join are written over sets of ids.
- Videoroom: the greenlet that destroys the backend rooms of a destroyed room is a later step of its own.
- User directory: the list of user names, and the HTTP address that a record holds for its proxy.
- Schema: alternatives in `Or`, `And`, `Use`, `DictVal`, date and address types; error texts; the pattern engine, `int(s, 0)`, `float`, `isspace` and `str` are parameters.
- Peer-to-peer calls: `detach`, which calls a method that the directory does not have; buffered and trickled candidates; calls to a user on another proxy over HTTP.
- Audio bridge: groups, plain RTP participants, session descriptions, the idle timestamp of the room.
- Backend session: the interleaving of `init` with other steps, which sets the session active whatever happened meanwhile; listeners that call back into the session; transactions, the event queue and the list of sessions.
- Process watcher: ageing, signals and status callbacks.
- Server selection: the load policy, which is wired to random choice, plain random choice, and policies loaded from a module.
- `videocall.py`, whose failure paths use unbound names, `gsqlite3.py`, the HTTP poster, maintenance flags, echo test, transports, configuration, logging and the demo pages.
