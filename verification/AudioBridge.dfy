/** Joining an audio bridge room. A join is suspended while the backend room is activated, while a backend handle
    is attached and while the backend server answers the join request; kicks, leaves, closed handles, other joins
    and the destruction of the room may come in between. */
module AudioBridge {

  datatype Error = NoSuchRoom | IdExists | NoSuchUser | BackendError

  datatype Outcome = Done | Raised(error: Error)

  /** Where the join of a participant is suspended. */
  datatype Phase = Activating | Attaching | Joining | Finished

  datatype Member = Member(id: int, phase: Phase, destroyed: bool, inRoom: bool)

  datatype RoomState = RoomState(
    members: map<AudioBridgeParticipant, Member>, participants: map<int, AudioBridgeParticipant>, creating: set<int>,
    destroyed: bool)

  datatype Event =
    | Begin(p: AudioBridgeParticipant, requested: int, drawn: int)
    | Activated(p: AudioBridgeParticipant, ok: bool)
    | Attached(p: AudioBridgeParticipant, ok: bool)
    | Answered(p: AudioBridgeParticipant, ok: bool)
    | Leave(p: AudioBridgeParticipant)
    | Kick(id: int)
    | DestroyRoom

  // ---------- Steps as functions ----------

  function Taken(st: RoomState): set<int> {
    st.participants.Keys + st.creating
  }

  /** The id a join asks for; 0 stands for a drawn id, at which the drawing loop stops because it is free. */
  function ChosenId(requested: int, drawn: int): int {
    if requested == 0 then drawn else requested
  }

  function Began(st: RoomState, p: AudioBridgeParticipant, requested: int, drawn: int): (RoomState, Outcome) {
    var id := ChosenId(requested, drawn);
    if st.destroyed then (st, Raised(NoSuchRoom))
    else if id in Taken(st) then (st, Raised(IdExists))
    else (st.(members := st.members[p := Member(id, Activating, false, false)], creating := st.creating + {id}), Done)
  }

  /** The error path of a join: the id is released and the newcomer destroyed. */
  function Failed(st: RoomState, p: AudioBridgeParticipant): RoomState
    requires p in st.members
  {
    var m := st.members[p];
    st.(members := st.members[p := Member(m.id, Finished, true, false)], creating := st.creating - {m.id})
  }

  /** The first half of the error path. */
  function Released(st: RoomState, p: AudioBridgeParticipant): RoomState
    requires p in st.members
  {
    var m := st.members[p];
    st.(members := st.members[p := m.(phase := Finished, inRoom := false)], creating := st.creating - {m.id})
  }

  function Went(st: RoomState, p: AudioBridgeParticipant, ok: bool, next: Phase): RoomState
    requires p in st.members
  {
    if ok then st.(members := st.members[p := st.members[p].(phase := next)]) else Failed(st, p)
  }

  function Committed(st: RoomState, p: AudioBridgeParticipant, ok: bool): RoomState
    requires p in st.members
  {
    var m := st.members[p];
    if !ok then Failed(st, p)
    else st.(members := st.members[p := m.(phase := Finished, inRoom := true)],
             participants := st.participants[m.id := p], creating := st.creating - {m.id})
  }

  /** A participant is destroyed; if it is in the room, the room drops whoever has its id. */
  function Left(st: RoomState, p: AudioBridgeParticipant): RoomState
    requires p in st.members
  {
    var m := st.members[p];
    if m.destroyed then st
    else st.(members := st.members[p := m.(destroyed := true, inRoom := false)],
             participants := if m.inRoom then st.participants - {m.id} else st.participants)
  }

  function Kicked(st: RoomState, id: int): (RoomState, Outcome) {
    if st.destroyed then (st, Raised(NoSuchRoom))
    else if id !in st.participants || st.participants[id] !in st.members then (st, Raised(NoSuchUser))
    else (Left(st, st.participants[id]), Done)
  }

  function Closed(st: RoomState): RoomState {
    if st.destroyed then st
    else RoomState(map p | p in st.members :: if p in st.participants.Values then st.members[p].(inRoom := false)
      else st.members[p],
                   map[], {}, true)
  }

  /** An event is possible if it fits the phase of the join it is about. */
  predicate Enabled(st: RoomState, e: Event) {
    match e
    case Begin(p, requested, drawn) => p !in st.members && (requested == 0 ==> drawn !in Taken(st))
    case Activated(p, _) => p in st.members && st.members[p].phase == Activating
    case Attached(p, _) => p in st.members && st.members[p].phase == Attaching
    case Answered(p, _) => p in st.members && st.members[p].phase == Joining
    case Leave(p) => p in st.members && st.members[p].phase != Activating
    case Kick(_) => true
    case DestroyRoom => true
  }

  function Step(st: RoomState, e: Event): RoomState
    requires Enabled(st, e)
  {
    match e
    case Begin(p, requested, drawn) => Began(st, p, requested, drawn).0
    case Activated(p, ok) => Went(st, p, ok, Attaching)
    case Attached(p, ok) => Went(st, p, ok, Joining)
    case Answered(p, ok) => Committed(st, p, ok)
    case Leave(p) => Left(st, p)
    case Kick(id) => Kicked(st, id).0
    case DestroyRoom => Closed(st)
  }

  // ---------- Ids are unique under every interleaving ----------

  predicate InFlight(m: Member) { m.phase != Finished }

  /** A participant holds its id from the moment the join reserves it until it is removed. */
  predicate Holds(m: Member) { InFlight(m) || m.inRoom }

  ghost predicate Inv(st: RoomState) {
    && (forall p :: p in st.members ==> MemberShape(st, p))
    && (forall id :: id in st.participants ==> Lists(st, id))
    && (forall id :: id in st.creating ==> exists p :: p in st.members && Reserves(st, p, id))
    && (forall p, q :: p in st.members && q in st.members && Clash(st, p, q) ==> p == q)
  }

  ghost predicate MemberShape(st: RoomState, p: AudioBridgeParticipant)
    requires p in st.members
  {
    var m := st.members[p];
    && (m.inRoom ==> m.phase == Finished && m.id in st.participants && st.participants[m.id] == p)
    && (InFlight(m) && !st.destroyed ==> m.id in st.creating)
  }

  ghost predicate Lists(st: RoomState, id: int)
    requires id in st.participants
  {
    st.participants[id] in st.members && st.members[st.participants[id]].inRoom
      && st.members[st.participants[id]].id == id
  }

  ghost predicate Reserves(st: RoomState, p: AudioBridgeParticipant, id: int) {
    p in st.members && InFlight(st.members[p]) && st.members[p].id == id
  }

  ghost predicate Clash(st: RoomState, p: AudioBridgeParticipant, q: AudioBridgeParticipant)
    requires p in st.members && q in st.members
  {
    Holds(st.members[p]) && Holds(st.members[q]) && st.members[p].id == st.members[q].id
  }

  lemma StartInv()
    ensures Inv(RoomState(map[], map[], {}, false))
  {
  }

  lemma BeginKeepsInv(st: RoomState, p: AudioBridgeParticipant, requested: int, drawn: int)
    requires Inv(st) && p !in st.members
    ensures Inv(Began(st, p, requested, drawn).0)
  {
    var n := Began(st, p, requested, drawn).0;
    if Began(st, p, requested, drawn).1 == Done {
      var id := ChosenId(requested, drawn);
      forall q | q in n.members ensures MemberShape(n, q) {
        if q != p { assert MemberShape(st, q); }
      }
      forall i | i in n.participants ensures Lists(n, i) { assert Lists(st, i); }
      forall i | i in n.creating ensures exists q :: q in n.members && Reserves(n, q, i) {
        if i == id {
          assert Reserves(n, p, i);
        } else {
          var q :| q in st.members && Reserves(st, q, i);
          assert Reserves(n, q, i);
        }
      }
      forall q | q in st.members && Holds(st.members[q]) ensures st.members[q].id != id {
        assert MemberShape(st, q);
      }
      forall q, t | q in n.members && t in n.members && Clash(n, q, t) ensures q == t {
        assert q != p && t != p ==> Clash(st, q, t);
      }
    }
  }

  /** Every step of one participant that changes only that participant and gives up or keeps its id. */
  lemma OwnStepKeepsInv(st: RoomState, n: RoomState, p: AudioBridgeParticipant)
    requires Inv(st) && p in st.members && n.members.Keys == st.members.Keys && n.destroyed == st.destroyed
    requires n.members[p].id == st.members[p].id && (Holds(n.members[p]) ==> Holds(st.members[p]))
    requires forall q :: q in st.members && q != p ==> n.members[q] == st.members[q]
    requires MemberShape(n, p)
    requires n.creating == if InFlight(st.members[p]) && !InFlight(n.members[p]) then st.creating - {st.members[p].id}
              else st.creating
    requires n.participants == if n.members[p].inRoom then st.participants[n.members[p].id := p]
                               else if st.members[p].inRoom then st.participants - {st.members[p].id}
                                 else st.participants
    requires InFlight(n.members[p]) ==> InFlight(st.members[p])
    ensures Inv(n)
  {
    var m := st.members[p];
    forall q | q in n.members ensures MemberShape(n, q) {
      assert MemberShape(st, q) && MemberShape(st, p);
      assert q != p && Holds(st.members[q]) && Holds(m) ==> !Clash(st, q, p);
    }
    forall i | i in n.participants ensures Lists(n, i) {
      assert i in st.participants ==> Lists(st, i);
      assert MemberShape(st, p);
    }
    forall i | i in n.creating ensures exists q :: q in n.members && Reserves(n, q, i) {
      var q :| q in st.members && Reserves(st, q, i);
      assert Reserves(n, q, i);
    }
    forall q, t | q in n.members && t in n.members && Clash(n, q, t) ensures q == t {
      assert Clash(st, q, t);
    }
  }

  lemma FailKeepsInv(st: RoomState, p: AudioBridgeParticipant)
    requires Inv(st) && p in st.members && InFlight(st.members[p])
    ensures Inv(Failed(st, p))
  {
    assert MemberShape(st, p);
    OwnStepKeepsInv(st, Failed(st, p), p);
  }

  lemma LeaveKeepsInv(st: RoomState, p: AudioBridgeParticipant)
    requires Inv(st) && p in st.members
    ensures Inv(Left(st, p))
  {
    assert MemberShape(st, p);
    if !st.members[p].destroyed { OwnStepKeepsInv(st, Left(st, p), p); }
  }

  lemma CommitKeepsInv(st: RoomState, p: AudioBridgeParticipant, ok: bool)
    requires Inv(st) && p in st.members && st.members[p].phase == Joining
    ensures Inv(Committed(st, p, ok))
  {
    assert MemberShape(st, p);
    if ok { OwnStepKeepsInv(st, Committed(st, p, ok), p); } else { FailKeepsInv(st, p); }
  }

  lemma CloseKeepsInv(st: RoomState)
    requires Inv(st)
    ensures Inv(Closed(st))
  {
    var n := Closed(st);
    if !st.destroyed {
      forall p | p in n.members ensures MemberShape(n, p) {
        assert MemberShape(st, p);
        assert st.members[p].inRoom ==> st.participants[st.members[p].id] == p;
      }
      forall p, q | p in n.members && q in n.members && Clash(n, p, q) ensures p == q {
        assert Clash(st, p, q);
      }
    }
  }

  lemma StepKeepsInv(st: RoomState, e: Event)
    requires Inv(st) && Enabled(st, e)
    ensures Inv(Step(st, e))
  {
    match e {
      case Begin(p, requested, drawn) => BeginKeepsInv(st, p, requested, drawn);
      case Activated(p, ok) => GoKeepsInv(st, p, ok, Attaching);
      case Attached(p, ok) => GoKeepsInv(st, p, ok, Joining);
      case Answered(p, ok) => CommitKeepsInv(st, p, ok);
      case Leave(p) => LeaveKeepsInv(st, p);
      case Kick(id) => if Kicked(st, id).1 == Done { LeaveKeepsInv(st, st.participants[id]); }
      case DestroyRoom => CloseKeepsInv(st);
    }
  }

  lemma GoKeepsInv(st: RoomState, p: AudioBridgeParticipant, ok: bool, next: Phase)
    requires Inv(st) && p in st.members && InFlight(st.members[p]) && next != Finished
    ensures Inv(Went(st, p, ok, next))
  {
    assert MemberShape(st, p);
    if ok { OwnStepKeepsInv(st, Went(st, p, ok, next), p); } else { FailKeepsInv(st, p); }
  }

  /** `states` is a run: it starts with an empty room, and every next state is a possible step. */
  ghost predicate IsRun(states: seq<RoomState>, es: seq<Event>) {
    && |states| == |es| + 1 && states[0] == RoomState(map[], map[], {}, false)
    && forall i :: 0 <= i < |es| ==> Enabled(states[i], es[i]) && states[i + 1] == Step(states[i], es[i])
  }

  lemma {:induction false} RunKeepsInv(states: seq<RoomState>, es: seq<Event>, n: nat)
    requires IsRun(states, es) && n <= |es|
    ensures Inv(states[n])
  {
    if n == 0 {
      StartInv();
    } else {
      RunKeepsInv(states, es, n - 1);
      StepKeepsInv(states[n - 1], es[n - 1]);
    }
  }

  /** At every moment of every interleaving no two participants that are joining or joined and not yet removed
      have the same id. */
  lemma UniqueIds(states: seq<RoomState>, es: seq<Event>, n: nat, p: AudioBridgeParticipant, q: AudioBridgeParticipant)
    requires IsRun(states, es) && n <= |es|
    requires p in states[n].members && q in states[n].members && p != q
    requires Holds(states[n].members[p]) && Holds(states[n].members[q])
    ensures states[n].members[p].id != states[n].members[q].id
  {
    RunKeepsInv(states, es, n);
    assert !Clash(states[n], p, q);
  }

  /** Removing a participant never removes another. */
  lemma RemovesOnlyItself(st: RoomState, p: AudioBridgeParticipant)
    requires Inv(st) && p in st.members
    ensures forall id :: id in st.participants && st.participants[id] != p ==>
              id in Left(st, p).participants && Left(st, p).participants[id] == st.participants[id]
    ensures !st.members[p].destroyed ==> p !in Left(st, p).participants.Values
  {
    assert MemberShape(st, p);
    forall id | id in st.participants && st.participants[id] != p
      ensures id in Left(st, p).participants && Left(st, p).participants[id] == st.participants[id]
    {
      assert Lists(st, id);
    }
    forall id | id in Left(st, p).participants ensures !st.members[p].destroyed ==> Left(st, p).participants[id] != p {
      assert Lists(st, id);
    }
  }

  // ---------- What a step leaves behind ----------

  /** A join begins exactly if the room lives and the id is neither joined nor reserved; then the id is reserved. */
  lemma BeganIs(st: RoomState, p: AudioBridgeParticipant, requested: int, drawn: int)
    requires p !in st.members
    ensures var (n, outcome) := Began(st, p, requested, drawn);
      var id := if requested == 0 then drawn else requested;
      && (outcome == Done <==> !st.destroyed && id !in st.participants && id !in st.creating)
      && (outcome == Done ==> n == RoomState(st.members[p := Member(id, Activating, false, false)], st.participants,
                                             st.creating + {id}, false))
      && (outcome != Done ==> n == st && outcome == Raised(if st.destroyed then NoSuchRoom else IdExists))
  {
  }

  /** An answer of the server commits the participant under its id, or releases the id and destroys the newcomer. */
  lemma CommittedIs(st: RoomState, p: AudioBridgeParticipant, ok: bool)
    requires p in st.members
    ensures var (n, m) := (Committed(st, p, ok), st.members[p]);
      && p in n.members && n.members[p] == Member(m.id, Finished, if ok then m.destroyed else true, ok)
      && n.participants == (if ok then st.participants[m.id := p] else st.participants)
      && n.creating == st.creating - {m.id} && n.destroyed == st.destroyed
      && (forall q :: q in st.members && q != p ==> q in n.members && n.members[q] == st.members[q])
  {
  }

  /** A suspended join goes on to its next phase, or releases its id and destroys the newcomer. */
  lemma WentIs(st: RoomState, p: AudioBridgeParticipant, ok: bool, next: Phase)
    requires p in st.members
    ensures var (n, m) := (Went(st, p, ok, next), st.members[p]);
      && p in n.members && n.participants == st.participants && n.destroyed == st.destroyed
      && (ok ==> n.members[p] == Member(m.id, next, m.destroyed, m.inRoom) && n.creating == st.creating)
      && (!ok ==> n.members[p] == Member(m.id, Finished, true, false) && n.creating == st.creating - {m.id})
  {
  }

  /** A kick is refused in a destroyed room and for an unknown id. Else the participant with that id is destroyed and
      out of the room, unless it was destroyed before. */
  lemma KickedIs(st: RoomState, id: int)
    requires Inv(st)
    ensures var (n, outcome) := Kicked(st, id);
      && (outcome == Done <==> !st.destroyed && id in st.participants)
      && (outcome != Done ==> n == st && outcome == Raised(if st.destroyed then NoSuchRoom else NoSuchUser))
      && (outcome == Done ==> st.participants[id] in n.members && n.members[st.participants[id]].destroyed)
      && (outcome == Done && !st.members[st.participants[id]].destroyed ==>
            n.participants == st.participants - {id} && !n.members[st.participants[id]].inRoom)
  {
    if id in st.participants { assert Lists(st, id); }
  }

  /** A participant that leaves is destroyed, and out of the room if it was alive. */
  lemma LeftIs(st: RoomState, p: AudioBridgeParticipant)
    requires p in st.members
    ensures var (n, m) := (Left(st, p), st.members[p]);
      && p in n.members && n.members[p].destroyed && n.creating == st.creating && n.destroyed == st.destroyed
      && (m.destroyed ==> n == st)
      && (!m.destroyed ==> !n.members[p].inRoom && n.members[p].phase == m.phase && n.members[p].id == m.id)
      && (!m.destroyed && m.inRoom ==> n.participants == st.participants - {m.id})
  {
  }

  /** At the end of a room nobody is listed, in it or reserved, and no participant changes otherwise. */
  lemma ClosedIs(st: RoomState)
    requires Inv(st)
    ensures var n := Closed(st);
      && n.destroyed && (st.destroyed ==> n == st)
      && (!st.destroyed ==> n.participants == map[] && n.creating == {} && n.members.Keys == st.members.Keys
                            && forall p :: p in st.members ==> n.members[p] == st.members[p].(inRoom := false))
  {
    forall p | p in st.members && st.members[p].inRoom ensures p in st.participants.Values {
      assert MemberShape(st, p);
    }
  }

  // ---------- Who is listed is alive ----------

  /** Everybody in the room is alive. */
  ghost predicate NoGhosts(st: RoomState) {
    forall p :: p in st.members && st.members[p].inRoom ==> !st.members[p].destroyed
  }

  /** A step keeps that exactly if it does not commit a participant that was destroyed during its join. */
  lemma StepKeepsAlive(st: RoomState, e: Event)
    requires Inv(st) && NoGhosts(st) && Enabled(st, e)
    ensures NoGhosts(Step(st, e)) <==> !(e.Answered? && e.ok && st.members[e.p].destroyed)
  {
    if e.Answered? && e.ok && st.members[e.p].destroyed {
      assert Step(st, e).members[e.p].inRoom && Step(st, e).members[e.p].destroyed;
    }
  }

  /** `p` left while its join was suspended. */
  ghost predicate LeftInFlight(states: seq<RoomState>, es: seq<Event>, n: nat, p: AudioBridgeParticipant)
    requires IsRun(states, es) && n <= |es|
  {
    exists k :: 0 <= k < n && es[k] == Leave(p) && InFlight(states[k].members[p])
  }

  /** How one step changes whether a participant that is joining or listed is destroyed. */
  lemma StepDestroys(st: RoomState, e: Event, p: AudioBridgeParticipant)
    requires Inv(st) && Enabled(st, e) && p in Step(st, e).members && Holds(Step(st, e).members[p])
    ensures p !in st.members ==> !Step(st, e).members[p].destroyed && e != Leave(p)
    ensures p in st.members ==> Holds(st.members[p])
    ensures p in st.members ==>
              (Step(st, e).members[p].destroyed <==>
               st.members[p].destroyed || (e == Leave(p) && InFlight(st.members[p])))
  {
    if p in st.members {
      assert MemberShape(st, p);
      if e.Kick? && e.id in st.participants { assert Lists(st, e.id); }
    }
  }

  /** In every run, a participant that is joining or listed is destroyed exactly if it left while its join was
      suspended. */
  lemma {:induction false} GhostsLeftInFlight(states: seq<RoomState>, es: seq<Event>, n: nat, p: AudioBridgeParticipant)
    requires IsRun(states, es) && n <= |es| && p in states[n].members && Holds(states[n].members[p])
    ensures states[n].members[p].destroyed <==> LeftInFlight(states, es, n, p)
  {
    if n > 0 {
      RunKeepsInv(states, es, n - 1);
      hide Step, Enabled, Inv;
      StepDestroys(states[n - 1], es[n - 1], p);
      if p in states[n - 1].members {
        GhostsLeftInFlight(states, es, n - 1, p);
        assert LeftInFlight(states, es, n, p) <==>
          LeftInFlight(states, es, n - 1, p) || (es[n - 1] == Leave(p) && InFlight(states[n - 1].members[p]));
      } else {
        NotYetLeft(states, es, n, p);
      }
    }
  }

  /** Whoever is not a member has never been one. */
  lemma {:induction false} NotYetLeft(states: seq<RoomState>, es: seq<Event>, n: nat, p: AudioBridgeParticipant)
    requires IsRun(states, es) && 0 < n <= |es| && p !in states[n - 1].members
    ensures forall k :: 0 <= k < n ==> es[k] != Leave(p)
  {
    if n > 1 {
      assert p !in states[n - 2].members;
      NotYetLeft(states, es, n - 1, p);
    }
  }

  /** Once listed, it stays listed: neither a kick nor anything but the end of the room removes it. */
  lemma GhostStays(st: RoomState, e: Event, p: AudioBridgeParticipant)
    requires Inv(st) && Enabled(st, e) && p in st.members && st.members[p].inRoom && st.members[p].destroyed
    ensures p in Step(st, e).members
    ensures Step(st, e).members[p].inRoom <==> !(e.DestroyRoom? && !st.destroyed)
  {
    assert MemberShape(st, p);
    if e.Kick? && e.id in st.participants { assert Lists(st, e.id); }
  }

  function ClosedEarly(p: AudioBridgeParticipant, id: int): seq<Event> {
    [Begin(p, id, 0), Activated(p, true), Attached(p, true), Leave(p), Answered(p, true)]
  }

  function ClosedEarlyStates(p: AudioBridgeParticipant, id: int): seq<RoomState> {
    [RoomState(map[], map[], {}, false),
     RoomState(map[p := Member(id, Activating, false, false)], map[], {id}, false),
     RoomState(map[p := Member(id, Attaching, false, false)], map[], {id}, false),
     RoomState(map[p := Member(id, Joining, false, false)], map[], {id}, false),
     RoomState(map[p := Member(id, Joining, true, false)], map[], {id}, false),
     RoomState(map[p := Member(id, Finished, true, true)], map[id := p], {}, false)]
  }

  lemma ClosedEarlyStep(p: AudioBridgeParticipant, id: int, i: nat)
    requires id != 0 && i < 5
    ensures var s := ClosedEarlyStates(p, id);
      Enabled(s[i], ClosedEarly(p, id)[i]) && s[i + 1] == Step(s[i], ClosedEarly(p, id)[i])
  {
    if i == 0 {
      var s0 := RoomState(map[], map[], {}, false);
      assert Taken(s0) == {} && s0.creating + {id} == {id};
    }
  }

  /** For example: a participant whose backend handle closes during the join is committed all the same, and a kick of
      it does nothing. */
  lemma ClosedWhileJoiningStays(p: AudioBridgeParticipant, id: int)
    requires id != 0
    ensures var states := ClosedEarlyStates(p, id);
      && IsRun(states, ClosedEarly(p, id)) && id in states[5].participants
      && p in states[5].members && states[5].members[p].destroyed
      && Kicked(states[5], id) == (states[5], Done)
  {
    forall i: nat | i < 5
      ensures var s := ClosedEarlyStates(p, id);
        Enabled(s[i], ClosedEarly(p, id)[i]) && s[i + 1] == Step(s[i], ClosedEarly(p, id)[i])
    {
      ClosedEarlyStep(p, id, i);
    }
    hide Step, Enabled;
  }

  // ---------- The room and its participants ----------

  class AudioBridgeParticipant {
    const userId: int
    var phase: Phase
    var destroyed: bool
    var room: AudioBridgeRoom?
    var hasHandle: bool

    constructor (id: int)
      ensures userId == id && phase == Activating && !destroyed && room == null && !hasHandle
    {
      userId, phase, destroyed, room, hasHandle := id, Activating, false, null, false;
    }

    ghost function AsMember(r: AudioBridgeRoom): Member
      reads this
    {
      Member(userId, phase, destroyed, room == r)
    }

    /** Leaves the room, if this participant is in it, and gives up the backend handle. */
    method Destroy(ghost r: AudioBridgeRoom)
      requires this in r.members && (room == null || room == r)
      modifies this`destroyed, this`room, this`hasHandle, r`participants
      ensures destroyed && (room == null || room == r)
      ensures r.State() == Left(old(r.State()), this)
    {
      if destroyed {
        return;
      }
      destroyed := true;
      if room != null {
        room.OnParticipantDestroy(userId);
        room := null;
      }
      hasHandle := false;
      assert r.State().members == Left(old(r.State()), this).members;
    }
  }

  class AudioBridgeRoom {
    var participants: map<int, AudioBridgeParticipant>
    var creatingIds: set<int>
    var destroyed: bool
    ghost var members: set<AudioBridgeParticipant>

    ghost function State(): RoomState
      reads this, members
    {
      RoomState(map p | p in members :: p.AsMember(this), participants, creatingIds, destroyed)
    }

    /** The participants of this room are in no other room. */
    ghost predicate Valid()
      reads this, members
    {
      && participants.Values <= members
      && (forall p :: p in members ==> p.room == null || p.room == this)
    }

    constructor ()
      ensures Valid() && State() == RoomState(map[], map[], {}, false)
    {
      participants, creatingIds, destroyed, members := map[], {}, false, {};
    }

    method OnParticipantDestroy(id: int)
      modifies this`participants
      ensures participants == old(participants) - {id}
    {
      participants := participants - {id};
    }

    /** `new_participant` up to the activation of the backend room: reserves the id. */
    method BeginJoin(requested: int, drawn: int) returns (outcome: Outcome, p: AudioBridgeParticipant?)
      requires Valid() && (requested == 0 ==> drawn !in participants && drawn !in creatingIds)
      modifies this
      ensures Valid() && (outcome.Done? <==> p != null)
      ensures p == null ==> State() == old(State()) && outcome == Raised(if destroyed then NoSuchRoom else IdExists)
                            && (destroyed || ChosenId(requested, drawn) in Taken(State()))
      ensures p != null ==> fresh(p) && (State(), outcome) == Began(old(State()), p, requested, drawn)
    {
      p := null;
      if destroyed {
        return Raised(NoSuchRoom), null;
      }
      var id := if requested == 0 then drawn else requested;
      if id in participants || id in creatingIds {
        return Raised(IdExists), null;
      }
      p := new AudioBridgeParticipant(id);
      creatingIds := creatingIds + {id};
      members := members + {p};
      outcome := Done;
      assert State().members == Began(old(State()), p, requested, drawn).0.members;
    }

    /** The `except` branch of `new_participant`. */
    method Fail(p: AudioBridgeParticipant)
      requires Valid() && p in members && !State().members[p].inRoom
      modifies p, this`creatingIds, this`participants
      ensures Valid() && State() == Failed(old(State()), p)
    {
      ReleaseId(p);
      p.Destroy(this);
    }

    /** The id of a newcomer that has failed to join is free again. */
    method ReleaseId(p: AudioBridgeParticipant)
      requires Valid() && p in members
      modifies p`room, p`phase, this`creatingIds
      ensures Valid() && State() == Released(old(State()), p)
    {
      p.room := null;
      creatingIds := creatingIds - {p.userId};
      p.phase := Finished;
      assert State().members == Released(old(State()), p).members;
    }

    /** The activation of the backend room came to an end; the join goes on to attach a handle. */
    method AfterActivation(p: AudioBridgeParticipant, ok: bool)
      requires Valid() && p in members && p.phase == Activating && p.room == null
      modifies p, this`creatingIds, this`participants
      ensures Valid() && State() == Went(old(State()), p, ok, Attaching)
    {
      if !ok {
        Fail(p);
        return;
      }
      p.phase := Attaching;
      assert State().members == Went(old(State()), p, ok, Attaching).members;
    }

    /** A backend handle is attached; the join request goes out. */
    method AfterAttach(p: AudioBridgeParticipant, ok: bool)
      requires Valid() && p in members && p.phase == Attaching && p.room == null
      modifies p, this`creatingIds, this`participants
      ensures Valid() && State() == Went(old(State()), p, ok, Joining)
    {
      if !ok {
        Fail(p);
        return;
      }
      p.hasHandle := true;
      p.phase := Joining;
      assert State().members == Went(old(State()), p, ok, Joining).members;
    }

    /** The backend server answered the join: the participant is committed, without a second look at it. */
    method AfterAnswer(p: AudioBridgeParticipant, ok: bool)
      requires Valid() && p in members && p.phase == Joining && p.room == null
      modifies p, this`creatingIds, this`participants
      ensures Valid() && State() == Committed(old(State()), p, ok)
    {
      if !ok {
        Fail(p);
        return;
      }
      p.room := this;
      p.phase := Finished;
      participants := participants[p.userId := p];
      creatingIds := creatingIds - {p.userId};
      assert State().members == Committed(old(State()), p, ok).members;
    }

    /** Destroys the participant with id `id`. */
    method KickParticipant(id: int) returns (outcome: Outcome)
      requires Valid()
      modifies members`destroyed, members`room, members`hasHandle, this`participants
      ensures Valid() && (State(), outcome) == Kicked(old(State()), id)
    {
      if destroyed {
        return Raised(NoSuchRoom);
      }
      if id !in participants {
        return Raised(NoSuchUser);
      }
      participants[id].Destroy(this);
      return Done;
    }

    /** Destroys the room: everybody in it is put out, and reserved ids are forgotten. */
    method Destroy()
      requires Valid()
      modifies this`destroyed, this`participants, this`creatingIds, members`room
      ensures Valid() && destroyed && State() == Closed(old(State()))
    {
      if destroyed {
        return;
      }
      destroyed := true;
      ghost var present := participants.Values;
      var pending := participants.Values;
      participants, creatingIds := map[], {};
      while pending != {}
        invariant pending <= present <= members && Valid() && destroyed && participants == map[] && creatingIds == {}
        invariant forall p :: p in members ==>
                    p.AsMember(this) == if p in present - pending then old(p.AsMember(this)).(inRoom := false)
                      else old(p.AsMember(this))
        decreases |pending|
      {
        var p :| p in pending;
        p.room := null;
        pending := pending - {p};
      }
      assert State().members == Closed(old(State())).members;
    }
  }
}
