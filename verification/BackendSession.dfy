/** One session with a Janus server and the registry of its plugin handles. Each step runs without yielding; an
    attach is one step when its reply arrives. Listeners are told that a handle is closed and only take note. */
module BackendSession {

  datatype Status = Creating | Active | Destroyed

  /** A handle: whether it is detached or closed, whether it still knows its session, and how often its listener
      was told that it is closed. */
  datatype HandleState = HandleState(id: int, detached: bool, linked: bool, closes: nat)

  datatype SessionState = SessionState(
    status: Status, handles: map<int, BackendHandle>, timer: bool, all: map<BackendHandle, HandleState>)

  datatype Event =
    | AttachReply(h: BackendHandle, id: int)
    | Detach(h: BackendHandle)
    | DetachedByServer(id: int)
    | Keepalive(autoDestroy: bool, ok: bool)
    | TimerFires
    | Destroy

  // ---------- Steps as functions ----------

  function Closed(m: HandleState): HandleState {
    if m.detached then m else m.(detached := true, linked := false, closes := m.closes + 1)
  }

  function Attached(st: SessionState, h: BackendHandle, id: int): SessionState {
    if st.status == Destroyed then st
    else st.(handles := st.handles[id := h], timer := false, all := st.all[h := HandleState(id, false, true, 0)])
  }

  function Detached(st: SessionState, h: BackendHandle): SessionState {
    if h !in st.all || st.all[h].detached then st
    else st.(all := st.all[h := st.all[h].(detached := true, linked := false)],
             handles := if st.all[h].linked then st.handles - {st.all[h].id} else st.handles)
  }

  function ServerDetached(st: SessionState, id: int): SessionState {
    if id !in st.handles || st.handles[id] !in st.all then st
    else st.(handles := st.handles - {id}, all := st.all[st.handles[id] := Closed(st.all[st.handles[id]])])
  }

  function DestroyedState(st: SessionState): SessionState {
    if st.status == Destroyed then st
    else SessionState(Destroyed, map[], false,
                      map h | h in st.all :: if h in st.handles.Values then Closed(st.all[h]) else st.all[h])
  }

  function KeptAlive(st: SessionState, autoDestroy: bool, ok: bool): SessionState {
    if st.status != Active then st
    else
      var n := if st.handles == map[] && autoDestroy then st.(timer := true) else st;
      if ok then n else DestroyedState(n)
  }

  function TimerFired(st: SessionState): SessionState {
    if st.timer then DestroyedState(st.(timer := false)) else st
  }

  function Step(st: SessionState, e: Event): SessionState {
    match e
    case AttachReply(h, id) => if h in st.all then st else Attached(st, h, id)
    case Detach(h) => Detached(st, h)
    case DetachedByServer(id) => ServerDetached(st, id)
    case Keepalive(autoDestroy, ok) => KeptAlive(st, autoDestroy, ok)
    case TimerFires => TimerFired(st)
    case Destroy => DestroyedState(st)
  }

  // ---------- The registry is exact ----------

  /** A handle is registered exactly while it is not detached; its listener is told at most once; while the
      auto-destroy timer is pending, or after destruction, no handle is registered. */
  ghost predicate Inv(st: SessionState) {
    && (forall h :: h in st.all ==> HandleShape(st, h))
    && (forall id :: id in st.handles ==>
          st.handles[id] in st.all && st.all[st.handles[id]].id == id && !st.all[st.handles[id]].detached)
    && (st.timer || st.status == Destroyed ==> st.handles == map[])
    && (st.status == Destroyed ==> !st.timer)
  }

  ghost predicate HandleShape(st: SessionState, h: BackendHandle)
    requires h in st.all
  {
    var m := st.all[h];
    && (!m.detached <==> m.id in st.handles && st.handles[m.id] == h)
    && m.closes <= 1 && (!m.detached ==> m.closes == 0 && m.linked)
  }

  /** An attach reply keeps the registry exact, or is refused, exactly if the server's id is not in use. */
  lemma AttachKeepsInv(st: SessionState, h: BackendHandle, id: int)
    requires Inv(st) && h !in st.all
    ensures Inv(Attached(st, h, id)) <==> st.status == Destroyed || id !in st.handles
  {
    var n := Attached(st, h, id);
    if st.status != Destroyed {
      if id in st.handles {
        assert !HandleShape(n, st.handles[id]);
      } else {
        forall g | g in n.all ensures HandleShape(n, g) {
          assert g != h ==> HandleShape(st, g);
        }
      }
    }
  }

  lemma DetachKeepsInv(st: SessionState, h: BackendHandle)
    requires Inv(st)
    ensures Inv(Detached(st, h))
  {
    var n := Detached(st, h);
    forall g | g in n.all ensures HandleShape(n, g) {
      assert HandleShape(st, g);
      assert h in st.all ==> HandleShape(st, h);
    }
  }

  lemma ServerDetachKeepsInv(st: SessionState, id: int)
    requires Inv(st)
    ensures Inv(ServerDetached(st, id))
  {
    var n := ServerDetached(st, id);
    forall g | g in n.all ensures HandleShape(n, g) {
      assert HandleShape(st, g);
    }
  }

  lemma DestroyKeepsInv(st: SessionState)
    requires Inv(st)
    ensures Inv(DestroyedState(st)) && DestroyedState(st).status == Destroyed
    ensures st.status != Destroyed ==> forall id :: id in st.handles ==>
              DestroyedState(st).all[st.handles[id]].closes == 1
  {
    var n := DestroyedState(st);
    forall g | g in n.all ensures HandleShape(n, g) {
      assert HandleShape(st, g);
      assert !st.all[g].detached ==> st.handles[st.all[g].id] == g;
    }
    forall id | id in st.handles ensures st.status != Destroyed ==> n.all[st.handles[id]].closes == 1 {
      assert HandleShape(st, st.handles[id]);
    }
  }

  // ---------- What a step leaves behind ----------

  /** An attach reply registers the handle under its id and stops the auto-destroy timer, unless the session is over. */
  lemma AttachedIs(st: SessionState, h: BackendHandle, id: int)
    ensures var n := Attached(st, h, id);
      && (st.status == Destroyed ==> n == st)
      && (st.status != Destroyed ==> n.status == st.status && n.handles == st.handles[id := h] && !n.timer
                                     && n.all == st.all[h := HandleState(id, false, true, 0)])
  {
  }

  /** Detaching takes an attached handle out of the registry, and its listener is not told. */
  lemma DetachedIs(st: SessionState, h: BackendHandle)
    requires Inv(st) && h in st.all
    ensures var (n, m) := (Detached(st, h), st.all[h]);
      && h in n.all && n.all[h].detached && n.all[h].closes == m.closes && n.timer == st.timer && n.status == st.status
      && n.handles == (if m.detached then st.handles else st.handles - {m.id})
      && (forall g :: g in st.all && g != h ==> g in n.all && n.all[g] == st.all[g])
  {
  }

  /** A server's detach of a registered handle tells its listener once and takes it out of the registry. */
  lemma ServerDetachedIs(st: SessionState, id: int)
    requires Inv(st)
    ensures var n := ServerDetached(st, id);
      && (id !in st.handles ==> n == st)
      && (id in st.handles ==> var h := st.handles[id];
            && h in n.all && n.all[h].detached && n.all[h].closes == 1 && n.handles == st.handles - {id}
            && n.timer == st.timer && n.status == st.status
            && (forall g :: g in st.all && g != h ==> g in n.all && n.all[g] == st.all[g]))
  {
    if id in st.handles { assert HandleShape(st, st.handles[id]); }
  }

  /** The end of a session empties the registry and stops the timer; every registered handle is closed and every other
      one stays as it is. */
  lemma DestroyedIs(st: SessionState)
    requires Inv(st)
    ensures var n := DestroyedState(st);
      && n.status == Destroyed && n.handles == map[] && !n.timer && n.all.Keys == st.all.Keys
      && (forall h :: h in st.all ==> n.all[h].detached && n.all[h].closes == st.all[h].closes + (if st.all[h].detached
         then 0 else 1))
  {
    forall h | h in st.all ensures !st.all[h].detached ==> h in st.handles.Values {
      assert HandleShape(st, h);
    }
  }

  /** A keepalive round of an active session ends it if the server does not answer, and otherwise makes sure that the
      timer runs if no handle is attached and auto-destroy is wanted. */
  lemma KeptAliveIs(st: SessionState, autoDestroy: bool, ok: bool)
    requires Inv(st)
    ensures var n := KeptAlive(st, autoDestroy, ok);
      && (st.status != Active ==> n == st)
      && (st.status == Active && !ok ==> n.status == Destroyed && n.handles == map[] && !n.timer)
      && (st.status == Active && ok ==> n.status == Active && n.handles == st.handles && n.all == st.all
                                        && (n.timer <==> st.timer || (st.handles == map[] && autoDestroy)))
  {
  }

  /** A pending timer ends the session, one that was stopped does nothing. */
  lemma TimerFiredIs(st: SessionState)
    ensures st.timer ==>
              TimerFired(st).status == Destroyed && (st.status != Destroyed ==> TimerFired(st).handles == map[])
    ensures !st.timer ==> TimerFired(st) == st
  {
  }

  /** The ids that the server assigns are not in use. */
  predicate FreshId(st: SessionState, e: Event) {
    e.AttachReply? ==> e.id !in st.handles
  }

  lemma StepKeepsInv(st: SessionState, e: Event)
    requires Inv(st) && FreshId(st, e)
    ensures Inv(Step(st, e))
  {
    match e {
      case AttachReply(h, id) => if h !in st.all { AttachKeepsInv(st, h, id); }
      case Detach(h) => DetachKeepsInv(st, h);
      case DetachedByServer(id) => ServerDetachKeepsInv(st, id);
      case Keepalive(autoDestroy, _) =>
        var n := if st.handles == map[] && autoDestroy then st.(timer := true) else st;
        if st.status == Active {
          assert forall h :: h in st.all ==> HandleShape(st, h) && HandleShape(n, h);
          DestroyKeepsInv(n);
        }
      case TimerFires =>
        var n := st.(timer := false);
        assert forall h :: h in st.all ==> HandleShape(st, h) && HandleShape(n, h);
        DestroyKeepsInv(n);
      case Destroy => DestroyKeepsInv(st);
    }
  }

  /** A detached handle stays as it is: its listener hears nothing more, whatever happens. */
  lemma DetachedStays(st: SessionState, e: Event, h: BackendHandle)
    requires h in st.all && st.all[h].detached
    ensures h in Step(st, e).all && Step(st, e).all[h] == st.all[h]
  {
  }

  /** A handle is closed only by its server, or by the end of the session, and only if it was attached. */
  lemma ClosedOnlyIf(st: SessionState, e: Event, h: BackendHandle)
    requires Inv(st) && h in st.all && Step(st, e).all[h].closes != st.all[h].closes
    ensures !st.all[h].detached && st.all[h].closes == 0 && Step(st, e).all[h].closes == 1
    ensures e == DetachedByServer(st.all[h].id) || Step(st, e).status == Destroyed
  {
    assert HandleShape(st, h);
  }

  /** Auto-destroy never closes a handle. */
  lemma AutoDestroyClosesNobody(st: SessionState)
    requires Inv(st) && st.timer
    ensures TimerFired(st).all == st.all && TimerFired(st).status == Destroyed
  {
    assert st.handles.Values == {};
    assert TimerFired(st).all == st.all;
  }

  function Run(st: SessionState, es: seq<Event>): SessionState
    decreases |es|
  {
    if es == [] then st else Run(Step(st, es[0]), es[1..])
  }

  ghost predicate FreshIds(st: SessionState, es: seq<Event>)
    decreases |es|
  {
    es == [] || (FreshId(st, es[0]) && FreshIds(Step(st, es[0]), es[1..]))
  }

  /** Over all runs the registry is exact, and a handle once detached never hears of its end again. */
  lemma {:induction false} RegistryRun(st: SessionState, es: seq<Event>)
    requires Inv(st) && FreshIds(st, es)
    ensures Inv(Run(st, es))
    ensures forall h :: h in st.all && st.all[h].detached ==> h in Run(st, es).all && Run(st, es).all[h] == st.all[h]
    decreases |es|
  {
    if es != [] {
      StepKeepsInv(st, es[0]);
      RegistryRun(Step(st, es[0]), es[1..]);
      forall h | h in st.all && st.all[h].detached ensures h in Run(st, es).all && Run(st, es).all[h] == st.all[h] {
        DetachedStays(st, es[0], h);
      }
    }
  }

  // ---------- The session and its handles ----------

  class BackendHandle {
    const id: int
    var detached: bool
    var session: Session?
    ghost var closes: nat

    constructor (i: int, s: Session)
      ensures id == i && !detached && session == s && closes == 0
    {
      id, detached, session, closes := i, false, s, 0;
    }

    ghost function State(): HandleState
      reads this
    {
      HandleState(id, detached, session != null, closes)
    }

    /** Detaches this handle; its listener is not told. */
    method Detach(ghost s: Session)
      requires this in s.all && (session == null || session == s)
      modifies this, s`handles
      ensures (session == null || session == s) && s.State() == Detached(old(s.State()), this)
    {
      if detached {
        return;
      }
      detached := true;
      if session != null {
        var owner := session;
        session := null;
        owner.OnHandleDetached(id);
      }
      assert s.State().all == Detached(old(s.State()), this).all;
    }

    /** The server or the end of the session closes this handle; its listener is told, unless it detached before. */
    method OnClose()
      modifies this
      ensures State() == Closed(old(State())) && (old(detached) || session == null)
                && (old(detached) ==> session == old(session))
    {
      if detached {
        return;
      }
      detached := true;
      session := null;
      closes := closes + 1;
    }
  }

  class Session {
    const autoDestroy: bool
    var status: Status
    var handles: map<int, BackendHandle>
    var timer: bool
    ghost var all: set<BackendHandle>

    ghost function State(): SessionState
      reads this, all
    {
      SessionState(status, handles, timer, map h | h in all :: h.State())
    }

    ghost predicate Valid()
      reads this, all
    {
      handles.Values <= all && forall h :: h in all ==> h.session == null || h.session == this
    }

    constructor (auto: bool)
      ensures Valid() && State() == SessionState(Creating, map[], false, map[]) && Inv(State())
    {
      autoDestroy, status, handles, timer, all := auto, Creating, map[], false, {};
    }

    /** The reply to an attach request has arrived with handle id `id`. */
    method OnAttached(id: int) returns (h: BackendHandle?)
      requires Valid()
      modifies this`handles, this`timer, this`all
      ensures Valid() && (h == null <==> status == Destroyed)
      ensures h == null ==> State() == old(State())
      ensures h != null ==> fresh(h) && State() == Attached(old(State()), h, id)
    {
      if status == Destroyed {
        return null;
      }
      h := new BackendHandle(id, this);
      handles := handles[id := h];
      all := all + {h};
      timer := false;
      assert State().all == Attached(old(State()), h, id).all;
    }

    method OnHandleDetached(id: int)
      modifies this`handles
      ensures handles == old(handles) - {id}
    {
      handles := handles - {id};
    }

    /** The server says that the handle with id `id` is detached. */
    method OnServerDetached(id: int)
      requires Valid()
      modifies this`handles, all
      ensures Valid() && State() == ServerDetached(old(State()), id)
    {
      if id in handles {
        var h := handles[id];
        handles := handles - {id};
        h.OnClose();
      }
      assert State().all == ServerDetached(old(State()), id).all;
    }

    /** Destroys the session and closes every registered handle. */
    method Destroy()
      requires Valid()
      modifies this`status, this`handles, this`timer, all
      ensures Valid() && State() == DestroyedState(old(State()))
    {
      if status == Destroyed {
        return;
      }
      status, timer := Destroyed, false;
      CloseAll(handles.Values);
      handles := map[];
      assert State().all == DestroyedState(old(State())).all;
    }

    static method CloseAll(hs: set<BackendHandle>)
      modifies hs
      ensures forall h :: h in hs ==>
                h.State() == Closed(old(h.State())) && (h.session == null || h.session == old(h.session))
    {
      hide *;
      var pending := hs;
      while pending != {}
        invariant pending <= hs
        invariant forall h :: h in hs - pending ==>
                  h.State() == Closed(old(h.State())) && (h.session == null || h.session == old(h.session))
        invariant forall h :: h in pending ==> h.State() == old(h.State()) && h.session == old(h.session)
        decreases |pending|
      {
        var h :| h in pending;
        h.OnClose();
        pending := pending - {h};
      }
    }

    /** One round of the keepalive routine; `ok` says whether the server answers. */
    method OnKeepalive(ok: bool)
      requires Valid()
      modifies this`status, this`handles, this`timer, all
      ensures Valid() && State() == KeptAlive(old(State()), autoDestroy, ok)
    {
      if status != Active {
        return;
      }
      if handles == map[] && autoDestroy && !timer {
        timer := true;
      }
      if !ok {
        Destroy();
      }
    }

    /** The auto-destroy timer, if it is still pending, fires. */
    method OnTimer()
      requires Valid()
      modifies this`status, this`handles, this`timer, all
      ensures Valid() && State() == TimerFired(old(State()))
    {
      if timer {
        timer := false;
        Destroy();
      }
    }
  }
}
